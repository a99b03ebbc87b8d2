/** A command started once takes one place in the committed log, whatever leaders come and go. */
module StartedOnce {
  import opened Common
  import opened TermLogs
  import opened HistorySteps
  import opened RaftSystem
  import opened RaftSafety
  import opened RaftTheorems

  ghost predicate StartedIn<C>(x: iset<C>, h: History<C>, t: nat, j: nat) {
    Fresh(h, t, j) ==> h.reign[t].log[j].cmd.Some? && h.reign[t].log[j].cmd.value in x
  }

  ghost predicate OnePlace<C>(h: History<C>, t: nat, j: nat, u: nat, i: nat) {
    Fresh(h, t, j) && Fresh(h, u, i) && h.reign[t].log[j].cmd == h.reign[u].log[i].cmd ==> t == u && j == i
  }

  /** Leaders only ever appended commands of `x`, each of them once. */
  ghost predicate AllOnce<C(!new)>(x: iset<C>, h: History<C>) {
    && (forall t: nat, j: nat :: StartedIn(x, h, t, j))
    && (forall t: nat, j: nat, u: nat, i: nat :: OnePlace(h, t, j, u, i))
  }

  lemma OnceWithoutAdding<C(!new)>(x: iset<C>, h: History<C>, k: History<C>)
    requires AllOnce(x, h) && NothingAdded(h, k)
    ensures AllOnce(x, k)
  {
    forall t: nat, j: nat ensures StartedIn(x, k, t, j) { assert StartedIn(x, h, t, j); }
    forall t: nat, j: nat, u: nat, i: nat ensures OnePlace(k, t, j, u, i) { assert OnePlace(h, t, j, u, i); }
  }

  lemma OnceGrows<C(!new)>(x: iset<C>, y: iset<C>, h: History<C>)
    requires AllOnce(x, h) && x <= y
    ensures AllOnce(y, h)
  {
    forall t: nat, j: nat ensures StartedIn(y, h, t, j) { assert StartedIn(x, h, t, j); }
  }

  lemma OnceExtended<C(!new)>(x: iset<C>, h: History<C>, l: nat, c: C)
    requires AllOnce(x, h) && Leads(h, l) && c !in x
    ensures AllOnce(x + iset{c}, Extend(h, l, c))
  {
    var k, y := Extend(h, l, c), x + iset{c};
    forall t: nat, j: nat ensures StartedIn(y, k, t, j) { assert StartedIn(x, h, t, j); }
    forall t: nat, j: nat, u: nat, i: nat ensures OnePlace(k, t, j, u, i) {
      assert OnePlace(h, t, j, u, i) && StartedIn(x, h, t, j) && StartedIn(x, h, u, i);
    }
  }

  /** A step of the cluster keeps it, as long as a client starts only commands nobody started before. */
  lemma OnceKept<C(!new), S>(x: iset<C>, y: iset<C>, h: History<C>, k: History<C>, a: Action<C, S>)
    requires AllOnce(x, h) && StartedOnly(h, k, a) && x <= y
    requires a.ClientStart? ==> a.cmd in y && a.cmd !in x
    ensures AllOnce(y, k)
  {
    if NothingAdded(h, k) {
      OnceWithoutAdding(x, h, k);
      OnceGrows(x, y, k);
    } else {
      OnceExtended(x, h, a.i, a.cmd);
      OnceGrows(x + iset{a.cmd}, y, k);
    }
  }

  lemma OwnPlace<C>(h: History<C>, g: Log<C>, i: nat)
    requires Sound(h) && Grounded(h, g) && 0 < i < |g|
    ensures Fresh(h, g[i].term, i) && h.reign[g[i].term].log[i] == g[i]
  {
    assert GroundedAt(h, g, i);
    var t := g[i].term;
    var l := h.reign[t].log;
    assert g[..i + 1][i] == g[i] && l[i] == g[i];
    assert ReignOk(h, t) && EntryOk(h.reign[t], t, i);
  }

  ghost predicate NoRepeats<C>(cmds: seq<C>) {
    forall i, j :: 0 <= i < j < |cmds| ==> cmds[i] != cmds[j]
  }

  /** No command appears twice in the committed log. */
  lemma CommittedOnce<C(!new)>(x: iset<C>, h: History<C>, g: Log<C>)
    requires Sound(h) && Grounded(h, g) && AllCommands(g) && AllOnce(x, h)
    ensures NoRepeats(Commands(g))
  {
    var cmds := Commands(g);
    CommandsAt(g, 0);
    forall i, j | 0 <= i < j < |cmds| ensures cmds[i] != cmds[j] {
      CommandsAt(g, i + 1);
      CommandsAt(g, j + 1);
      OwnPlace(h, g, i + 1);
      OwnPlace(h, g, j + 1);
      assert OnePlace(h, g[i + 1].term, i + 1, g[j + 1].term, j + 1);
    }
  }

  lemma InitialOnce<C(!new)>(n: nat)
    ensures AllOnce<C>(iset{}, Initial<C>(n))
  {
  }
}
