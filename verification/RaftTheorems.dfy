/** What clients and operators of the cluster may rely on, in every run. */
module RaftTheorems {
  import opened Common
  import opened TermLogs
  import opened HistorySteps
  import opened RaftNode
  import opened RaftSystem
  import opened RaftGlue
  import opened RaftElections
  import opened RaftReplication
  import opened RaftReplies
  import opened RaftSafety

  // ---------------------------------------------------------------- elections

  lemma LeaderElected<C, S, R>(m: Machine<C, S, R>, h: History<C>, s: System<C, S, R>, last: History<C>, i: nat)
    requires Traced(m, h, s, last) && i < |s.servers| && s.servers[i].node.role == Leader
    ensures s.servers[i].node.currentTerm in last.reign && last.reign[s.servers[i].node.currentTerm].leader == i
    ensures s.servers[i].node.currentTerm in h.reign && h.reign[s.servers[i].node.currentTerm].log == h.log[i]
  {
    assert ServerGlue(m, h, s.servers[i], i);
    assert ReignGrows(h, last, s.servers[i].node.currentTerm);
  }

  /** Election Safety: over a whole run, crashes included, a term has at most one leader. */
  lemma OneLeaderPerTerm<C(!new), S(!new), R>(m: Machine<C, S, R>, n: nat, run: seq<System<C, S, R>>, k: nat, i: nat,
                                              k': nat, i': nat)
    requires IsRun(m, n, run) && k < |run| && i < |run[k].servers| && k' < |run| && i' < |run[k'].servers|
    requires run[k].servers[i].node.role == Leader && run[k'].servers[i'].node.role == Leader
    requires run[k].servers[i].node.currentTerm == run[k'].servers[i'].node.currentTerm
    ensures i == i'
  {
    var hs := RunTraced(m, n, run);
    var last := hs[|run| - 1];
    assert Traced(m, hs[k], run[k], last) && Traced(m, hs[k'], run[k'], last);
    LeaderElected(m, hs[k], run[k], last, i);
    LeaderElected(m, hs[k'], run[k'], last, i');
  }

  // ---------------------------------------------------------------- logs

  /** Both servers retain index `x`, and hold the same entry there (above both snapshots, the same command too). */
  ghost predicate SameAt<C, S>(a: Node<C, S>, b: Node<C, S>, x: nat) {
    a.Holds(x) && b.Holds(x) ==>
      && a.TermAt(x) == b.TermAt(x)
      && (x > a.logOffset && x > b.logOffset ==> a.log[x - a.logOffset] == b.log[x - b.logOffset])
  }

  lemma SharedPrefix<C, S>(h: History<C>, a: Node<C, S>, i: nat, h': History<C>, b: Node<C, S>, i': nat, p: Log<C>,
                           x: nat)
    requires Shape(h) && i < h.n && LogOk(h, a, i) && Shape(h') && i' < h'.n && LogOk(h', b, i')
    requires p <= h.log[i] && p <= h'.log[i'] && x < |p|
    ensures SameAt(a, b, x)
  {
  }

  /** Two servers holding the same term at `x` have the same logical log through `x`. */
  lemma MatchingNodes<C, S>(last: History<C>, h: History<C>, a: Node<C, S>, i: nat, h': History<C>, b: Node<C, S>,
                            i': nat, x: nat)
    requires Shape(h) && i < h.n && LogOk(h, a, i) && Shape(h') && i' < h'.n && LogOk(h', b, i')
    requires Grounded(last, h.log[i]) && Grounded(last, h'.log[i'])
    requires a.Holds(x) && b.Holds(x) && a.TermAt(x) == b.TermAt(x)
    ensures x < |h.log[i]| && x < |h'.log[i']| && h.log[i][..x + 1] == h'.log[i'][..x + 1]
  {
    ViewAt(h, a, i, a.commitIndex);
    ViewAt(h', b, i', b.commitIndex);
    ViewAt(h, a, i, x);
    ViewAt(h', b, i', x);
    LogMatching(last, h.log[i], h'.log[i'], x);
  }

  lemma ServerLogGrounded<C>(h: History<C>, last: History<C>, i: nat)
    requires Sound(h) && Continues(h, last) && i < h.n
    ensures Grounded(last, h.log[i])
  {
    assert ServerOk(h, i);
    GroundedStays(h, last, h.log[i]);
  }

  /** What was committed by a term is in the part every later leader inherited. */
  lemma InheritedCommitted<C>(h: History<C>, p: Log<C>, t: nat, u: nat)
    requires Sound(h) && CommittedBy(h, p, t) && |p| > 0 && t < u && u in h.reign
    ensures p <= h.reign[u].log && |p| <= h.reign[u].first + 1
  {
    LeaderCompleteness(h, p, t, u);
    assert ReignOk(h, u);
    if |p| > 1 {
      CommittedRooted(h, p, t);
      var v: nat, i: nat :| v <= t && Chosen(h, v, i) && p <= Through(h, v, i);
      var j := |p| - 1;
      assert ReignOk(h, v) && EntryOk(h.reign[v], v, j) && EntryOk(h.reign[u], u, j);
      assert h.reign[u].log[j] == p[j] == Through(h, v, i)[j];
    }
  }

  /** The inherited part of a leader's log is there from the start. */
  lemma InheritedNow<C>(h: History<C>, last: History<C>, u: nat, p: Log<C>)
    requires Sound(h) && Continues(h, last) && u in h.reign && u in last.reign
    requires p <= last.reign[u].log && |p| <= last.reign[u].first + 1
    ensures p <= h.reign[u].log
  {
    assert ReignGrows(h, last, u) && ReignOk(h, u);
    Comparable(p, h.reign[u].log, last.reign[u].log);
  }

  // ---------------------------------------------------------------- one log explains everything

  /** The machine's state after executing a list of commands. */
  ghost function Fold<C, S, R>(m: Machine<C, S, R>, cmds: seq<C>): S {
    if |cmds| == 0 then m.init
    else m.step(Fold(m, cmds[..|cmds| - 1]), cmds[|cmds| - 1]).0
  }

  ghost function Commands<C>(l: Log<C>): seq<C>
    requires forall k: nat :: 0 < k < |l| ==> l[k].cmd.Some?
  {
    if |l| <= 1 then [] else Commands(l[..|l| - 1]) + [l[|l| - 1].cmd.value]
  }

  ghost predicate AllCommands<C>(l: Log<C>) {
    forall k: nat :: 0 < k < |l| ==> l[k].cmd.Some?
  }

  lemma {:induction false} CommandsAt<C>(l: Log<C>, i: nat)
    requires AllCommands(l) && 0 < |l|
    ensures |Commands(l)| == |l| - 1
    ensures i < |l| ==> Commands(l[..i + 1]) == Commands(l)[..i]
    ensures 0 < i < |l| ==> Commands(l)[i - 1] == l[i].cmd.value
    decreases |l|
  {
    if |l| > 1 {
      var f := l[..|l| - 1];
      CommandsAt(f, i);
      if i == |l| - 1 {
        assert l[..i + 1] == l;
      } else if i < |l| {
        assert l[..i + 1] == f[..i + 1];
      }
    } else if i < |l| {
      assert l[..i + 1] == l;
    }
  }

  lemma FoldStep<C, S, R>(m: Machine<C, S, R>, cmds: seq<C>, i: nat)
    requires 0 < i <= |cmds|
    ensures Fold(m, cmds[..i]) == m.step(Fold(m, cmds[..i - 1]), cmds[i - 1]).0
  {
    assert cmds[..i][..i - 1] == cmds[..i - 1];
  }

  lemma {:induction false} ReplayIsFold<C, S, R>(m: Machine<C, S, R>, l: Log<C>, i: nat)
    requires AllCommands(l) && i < |l|
    ensures i <= |Commands(l)| && Replay(m, l, i) == Fold(m, Commands(l)[..i])
  {
    CommandsAt(l, i);
    if i > 0 {
      ReplayIsFold(m, l, i - 1);
      FoldStep(m, Commands(l), i);
    }
  }

  lemma {:induction false} LargestKey(ks: set<nat>) returns (u: nat)
    requires ks != {}
    ensures u in ks && forall t :: t in ks ==> t <= u
    decreases ks
  {
    var w: nat :| w in ks;
    u := w;
    if ks - {w} != {} {
      var v := LargestKey(ks - {w});
      assert forall t :: t in ks ==> t == w || t in ks - {w};
      if v > w { u := v; }
    } else {
      assert ks == {w};
    }
  }

  /** Whatever is committed is a prefix of `g`. */
  ghost predicate Covers<C(!new)>(h: History<C>, g: Log<C>) {
    forall p: Log<C>, t: nat :: CommittedBy(h, p, t) && |p| > 0 ==> p <= g
  }

  lemma CommittedByLargest<C>(h: History<C>, p: Log<C>, t: nat, u: nat)
    requires CommittedBy(h, p, t) && forall v :: v in h.reign ==> v <= u
    ensures CommittedBy(h, p, u)
  {
  }

  /** The longest committed prefix of a log, among those of length at most `n`. */
  lemma {:induction false} LongestCommitted<C>(h: History<C>, l: Log<C>, u: nat, n: nat) returns (g: Log<C>)
    requires Rooted(l) && 0 < n <= |l|
    ensures g <= l && |g| > 0 && CommittedBy(h, g, u)
    ensures forall p: Log<C> :: p <= l && 0 < |p| <= n && CommittedBy(h, p, u) ==> p <= g
    decreases n
  {
    if n == 1 || CommittedBy(h, l[..n], u) {
      g := l[..n];
      assert n == 1 ==> g == [Entry(0, None)];
    } else {
      g := LongestCommitted(h, l, u, n - 1);
      forall p: Log<C> | p <= l && 0 < |p| <= n && CommittedBy(h, p, u) ensures p <= g {
        assert p == l[..|p|];
      }
    }
  }

  /** What is committed is in the log of the newest leader. */
  lemma CommittedInNewest<C>(h: History<C>, p: Log<C>, t: nat, u: nat)
    requires Sound(h) && u in h.reign && (forall v :: v in h.reign ==> v <= u) && CommittedBy(h, p, t) && |p| > 0
    ensures p <= h.reign[u].log && CommittedBy(h, p, u)
  {
    CommittedByLargest(h, p, t, u);
    CommittedRooted(h, p, t);
    assert ReignOk(h, u);
    if |p| > 1 {
      var v: nat, i: nat :| v <= t && Chosen(h, v, i) && p <= Through(h, v, i);
      LeaderCompleteness(h, p, v, u);
    }
  }

  lemma PrefixOfReign<C>(h: History<C>, u: nat, g: Log<C>)
    requires Sound(h) && u in h.reign && g <= h.reign[u].log && |g| > 0
    ensures Grounded(h, g) && AllCommands(g)
  {
    var l := h.reign[u].log;
    assert ReignOk(h, u);
    forall k: nat | 0 < k < |g| ensures g[k].cmd.Some? { assert EntryOk(h.reign[u], u, k) && g[k] == l[k]; }
    forall k: nat | 0 < k < |g| ensures GroundedAt(h, g, k) { assert GroundedAt(h, l, k) && g[..k + 1] == l[..k + 1]; }
  }

  /** Every committed prefix is a prefix of one and the same log, which is itself committed. */
  lemma OneCommittedLog<C(!new)>(h: History<C>) returns (g: Log<C>, u: nat)
    requires Sound(h)
    ensures Grounded(h, g) && AllCommands(g) && CommittedBy(h, g, u)
    ensures Covers(h, g)
  {
    if h.reign.Keys == {} {
      g, u := [Entry(0, None)], 0;
      forall p: Log<C>, t: nat | CommittedBy(h, p, t) && |p| > 0 ensures p <= g { CommittedRooted(h, p, t); }
    } else {
      u := LargestKey(h.reign.Keys);
      assert ReignOk(h, u);
      g := LongestCommitted(h, h.reign[u].log, u, |h.reign[u].log|);
      PrefixOfReign(h, u, g);
      forall p: Log<C>, t: nat | CommittedBy(h, p, t) && |p| > 0 ensures p <= g { CommittedInNewest(h, p, t, u); }
    }
  }

  /** The retained entry at index `y` is the list's command. */
  ghost predicate Retains<C, S>(cmds: seq<C>, nd: Node<C, S>, y: nat) {
    nd.logOffset < y <= |cmds| && y - nd.logOffset < |nd.log| && nd.log[y - nd.logOffset].cmd == Some(cmds[y - 1])
  }

  /**
   The service of this server holds exactly the fold of the commands it has consumed, its snapshot that of the
   compacted ones, and its log retains the committed ones after them.
   */
  ghost predicate ReplicaExplained<C, S, R>(m: Machine<C, S, R>, cmds: seq<C>, sv: Server<C, S>) {
    && sv.svc.index <= |cmds| && sv.svc.state == Fold(m, cmds[..sv.svc.index])
    && sv.node.logOffset <= |cmds|
    && (sv.node.logOffset > 0 ==> sv.node.snapshot == Some(Fold(m, cmds[..sv.node.logOffset])))
    && (forall y: nat :: sv.node.logOffset < y <= sv.node.commitIndex ==> Retains(cmds, sv.node, y))
  }

  /**
   An installed snapshot on its way to the service stands for the prefix it replaces; a command is the one at its index.
   */
  ghost predicate StreamExplained<C, S, R>(m: Machine<C, S, R>, cmds: seq<C>, msg: ApplyMsg<C, S>) {
    match msg
    case Command(i, c) => 0 < i <= |cmds| && c == Some(cmds[i - 1])
    case Restore(i, _, d) => i <= |cmds| && d == Some(Fold(m, cmds[..i]))
  }

  /** The command is the one at its index, and the reply is that of executing it after all earlier ones. */
  ghost predicate AnswerExplained<C, S, R>(m: Machine<C, S, R>, cmds: seq<C>, a: Answer<C, R>) {
    0 < a.index <= |cmds| && a.cmd == cmds[a.index - 1] && a.result == m.step(Fold(m, cmds[..a.index - 1]), a.cmd).1
  }

  ghost predicate StateExplained<C, S, R>(m: Machine<C, S, R>, cmds: seq<C>, s: System<C, S, R>) {
    && (forall i :: 0 <= i < |s.servers| ==> ReplicaExplained(m, cmds, s.servers[i]))
    && (forall i :: 0 <= i < |s.servers| && s.servers[i].outbox.Some? ==>
        StreamExplained(m, cmds, s.servers[i].outbox.value))
    && (forall a :: a in s.answers ==> AnswerExplained(m, cmds, a))
  }

  lemma FoldOfPrefix<C, S, R>(m: Machine<C, S, R>, l: Log<C>, p: Log<C>, g: Log<C>, i: nat)
    requires AllCommands(g) && p <= l && p <= g && i < |p|
    ensures i <= |Commands(g)| && Replay(m, l, i) == Fold(m, Commands(g)[..i])
    ensures i > 0 ==> l[i].cmd == Some(Commands(g)[i - 1])
  {
    ReplayPrefix(m, l, g, p, i);
    ReplayIsFold(m, g, i);
    CommandsAt(g, i);
  }

  lemma ServerExplained<C, S, R>(m: Machine<C, S, R>, h: History<C>, sv: Server<C, S>, i: nat, g: Log<C>)
    requires ServerGlue(m, h, sv, i) && AllCommands(g) && h.log[i][..sv.node.commitIndex + 1] <= g
    ensures ReplicaExplained(m, Commands(g), sv)
    ensures sv.outbox.Some? ==> StreamExplained(m, Commands(g), sv.outbox.value)
  {
    var l := h.log[i];
    var p := l[..sv.node.commitIndex + 1];
    FoldOfPrefix(m, l, p, g, sv.svc.index);
    FoldOfPrefix(m, l, p, g, sv.node.logOffset);
    FoldOfPrefix(m, l, p, g, Reached(sv));
    RetainedAre(m, h, sv.node, i, p, g);
  }

  /** Above the snapshot, a logical log that shares `p` with the committed log retains its commands. */
  lemma RetainedAre<C, S, R>(m: Machine<C, S, R>, h: History<C>, nd: Node<C, S>, i: nat, p: Log<C>, g: Log<C>)
    requires Shape(h) && i < h.n && LogOk(h, nd, i) && AllCommands(g) && p <= h.log[i] && p <= g && |p| > 0
    ensures |p| - 1 <= nd.LastIndex()
    ensures forall y: nat :: nd.logOffset < y < |p| ==> Retains(Commands(g), nd, y)
  {
    ViewAt(h, nd, i, nd.commitIndex);
    forall y: nat | nd.logOffset < y < |p| ensures Retains(Commands(g), nd, y) {
      ViewAt(h, nd, i, y);
      FoldOfPrefix(m, h.log[i], p, g, y);
    }
  }

  lemma AnsweredExplained<C(!new), S, R>(m: Machine<C, S, R>, h: History<C>, a: Answer<C, R>, g: Log<C>)
    requires Shape(h) && AnswerGlue(m, h, a) && AllCommands(g)
    requires Covers(h, g)
    ensures AnswerExplained(m, Commands(g), a)
  {
    var t: nat, i: nat :| Explains(m, h, t, i, a);
    var p := Through(h, t, i);
    assert CommittedBy(h, p, t);
    FoldOfPrefix(m, h.reign[t].log, p, g, a.index);
    FoldOfPrefix(m, h.reign[t].log, p, g, a.index - 1);
  }

  lemma TracedExplained<C(!new), S, R>(m: Machine<C, S, R>, h: History<C>, s: System<C, S, R>, last: History<C>,
                                       g: Log<C>)
    requires Traced(m, h, s, last) && AllCommands(g)
    requires Covers(last, g)
    ensures StateExplained(m, Commands(g), s)
  {
    forall i: nat | i < |s.servers|
      ensures ReplicaExplained(m, Commands(g), s.servers[i])
      ensures s.servers[i].outbox.Some? ==> StreamExplained(m, Commands(g), s.servers[i].outbox.value)
    {
      var sv := s.servers[i];
      assert ServerGlue(m, h, sv, i);
      CommittedStays(h, last, h.log[i][..sv.node.commitIndex + 1], h.term[i], h.term[i]);
      ServerExplained(m, h, sv, i, g);
    }
    forall a | a in s.answers ensures AnswerExplained(m, Commands(g), a) {
      AnswerStays(m, h, last, a);
      AnsweredExplained(m, last, a, g);
    }
  }

  /**
   State Machine Safety and the replicated fold.  For every run there is one list of commands such
   that, at every moment and on every server, through any mix of commands, local and installed
   snapshots, crashes and restarts: the service state is the fold of the consumed prefix, every
   snapshot stands for exactly the prefix it replaces, everything handed to a service is the
   list's command at that index, and every reply is that of executing the list in order.
   */
  lemma OneLogExplainsTheRun<C(!new), S(!new), R>(m: Machine<C, S, R>, n: nat, run: seq<System<C, S, R>>)
    returns (cmds: seq<C>)
    requires IsRun(m, n, run)
    ensures forall k :: 0 <= k < |run| ==> StateExplained(m, cmds, run[k])
  {
    var _, g := RunExplained(m, n, run);
    cmds := Commands(g);
  }

  // ---------------------------------------------------------------- logical logs against the one list

  /** All states of the run are explained by the list `Commands(g)`, where `g` contains whatever was committed. */
  lemma RunExplained<C(!new), S(!new), R>(m: Machine<C, S, R>, n: nat, run: seq<System<C, S, R>>)
    returns (hs: seq<History<C>>, g: Log<C>)
    requires IsRun(m, n, run)
    ensures |hs| == |run| && AllCommands(g) && Sound(hs[|run| - 1])
    ensures forall k :: 0 <= k < |run| ==>
        Traced(m, hs[k], run[k], hs[|run| - 1]) && StateExplained(m, Commands(g), run[k])
    ensures Covers(hs[|run| - 1], g)
  {
    hs := RunTraced(m, n, run);
    var last, u := hs[|run| - 1], 0;
    assert Traced(m, last, run[|run| - 1], last);
    g, u := OneCommittedLog(last);
    forall k | 0 <= k < |run| ensures StateExplained(m, Commands(g), run[k]) {
      assert Traced(m, hs[k], run[k], last);
      TracedExplained(m, hs[k], run[k], last, g);
    }
  }

  /** What a server knows to be committed is part of the log that contains everything committed. */
  lemma KnownIsCommitted<C(!new), S, R>(m: Machine<C, S, R>, h: History<C>, s: System<C, S, R>, i: nat,
                                        last: History<C>, g: Log<C>)
    requires Traced(m, h, s, last) && i < |s.servers|
    requires Covers(last, g)
    ensures s.servers[i].node.commitIndex < |h.log[i]| && h.log[i][..s.servers[i].node.commitIndex + 1] <= g
    ensures CommittedBy(last, h.log[i][..s.servers[i].node.commitIndex + 1], s.servers[i].node.currentTerm)
  {
    var sv := s.servers[i];
    assert ServerGlue(m, h, sv, i);
    CommittedStays(h, last, h.log[i][..sv.node.commitIndex + 1], h.term[i], h.term[i]);
  }

  /**
   Log Matching with compaction, across time: two servers that hold the same term at the same index, be it at
   a snapshot slot, have the same logical log through it.  Where both retain an entry the entries are equal;
   where one of them knows the entry to be committed, in particular where it has compacted it, what the other
   retains is the very command of the list that the snapshots fold.
   */
  lemma LogMatchingOverRuns<C(!new), S(!new), R>(m: Machine<C, S, R>, n: nat, run: seq<System<C, S, R>>,
                                                 k: nat, i: nat, k': nat, i': nat, x: nat) returns (cmds: seq<C>)
    requires IsRun(m, n, run) && k < |run| && i < |run[k].servers| && k' < |run| && i' < |run[k'].servers|
    requires run[k].servers[i].node.Holds(x) && run[k'].servers[i'].node.Holds(x)
    requires run[k].servers[i].node.TermAt(x) == run[k'].servers[i'].node.TermAt(x)
    ensures forall j :: 0 <= j < |run| ==> StateExplained(m, cmds, run[j])
    ensures MatchThrough(cmds, run[k].servers[i].node, run[k'].servers[i'].node, x)
    ensures MatchThrough(cmds, run[k'].servers[i'].node, run[k].servers[i].node, x)
  {
    var hs, g := RunExplained(m, n, run);
    cmds := Commands(g);
    var h, h', last := hs[k], hs[k'], hs[|run| - 1];
    assert Traced(m, h, run[k], last) && Traced(m, h', run[k'], last);
    NodesMatch(m, last, h, run[k], i, h', run[k'], i', x, g);
    NodesMatch(m, last, h', run[k'], i', h, run[k], i, x, g);
  }

  /** `a` and `b` agree through index `x`: on what both retain, and `a` with the list on what `b` knows committed. */
  ghost predicate MatchThrough<C, S>(cmds: seq<C>, a: Node<C, S>, b: Node<C, S>, x: nat) {
    && (forall y: nat :: y <= x ==> SameAt(a, b, y))
    && (forall y: nat :: a.logOffset < y <= x && y <= b.commitIndex ==> Retains(cmds, a, y))
  }

  lemma NodesMatch<C(!new), S, R>(m: Machine<C, S, R>, last: History<C>, h: History<C>, s: System<C, S, R>, i: nat,
                            h': History<C>, s': System<C, S, R>, i': nat, x: nat, g: Log<C>)
    requires Traced(m, h, s, last) && i < |s.servers| && Traced(m, h', s', last) && i' < |s'.servers|
    requires Covers(last, g) && AllCommands(g) && s.servers[i].node.Holds(x) && s'.servers[i'].node.Holds(x)
    requires s.servers[i].node.TermAt(x) == s'.servers[i'].node.TermAt(x)
    ensures MatchThrough(Commands(g), s.servers[i].node, s'.servers[i'].node, x)
  {
    assert ServerGlue(m, h, s.servers[i], i) && ServerGlue(m, h', s'.servers[i'], i');
    KnownIsCommitted(m, h', s', i', last, g);
    ServerLogGrounded(h, last, i);
    ServerLogGrounded(h', last, i');
    MatchingNodes(last, h, s.servers[i].node, i, h', s'.servers[i'].node, i', x);
    MatchedLogs(m, h, s.servers[i].node, i, h', s'.servers[i'].node, i', x, g);
  }

  lemma MatchedLogs<C, S, R>(m: Machine<C, S, R>, h: History<C>, a: Node<C, S>, i: nat,
                             h': History<C>, b: Node<C, S>, i': nat, x: nat, g: Log<C>)
    requires Shape(h) && i < h.n && LogOk(h, a, i) && Shape(h') && i' < h'.n && LogOk(h', b, i') && AllCommands(g)
    requires x < |h.log[i]| && x < |h'.log[i']| && h.log[i][..x + 1] == h'.log[i'][..x + 1]
    requires h'.log[i'][..b.commitIndex + 1] <= g
    ensures MatchThrough(Commands(g), a, b, x)
  {
    forall y: nat | y <= x ensures SameAt(a, b, y) { SharedPrefix(h, a, i, h', b, i', h.log[i][..x + 1], y); }
    var c := if x < b.commitIndex then x else b.commitIndex;
    var p := h'.log[i'][..c + 1];
    assert p == h'.log[i'][..x + 1][..c + 1] == h'.log[i'][..b.commitIndex + 1][..c + 1];
    RetainedAre(m, h, a, i, p, g);
  }

  /**
   Leader Completeness: whatever a server ever knew to be committed while in term `t` is in the logical log of
   every leader of every later term, at every moment of its reign.  The leader's log reaches that far, what it
   retains of it is the committed commands, and what it has compacted is folded in its snapshot.
   */
  lemma LeaderCompletenessOverRuns<C(!new), S(!new), R>(m: Machine<C, S, R>, n: nat, run: seq<System<C, S, R>>,
                                                        k: nat, i: nat, k': nat, i': nat) returns (cmds: seq<C>)
    requires IsRun(m, n, run) && k < |run| && i < |run[k].servers| && k' < |run| && i' < |run[k'].servers|
    requires run[k'].servers[i'].node.role == Leader
    requires run[k].servers[i].node.currentTerm < run[k'].servers[i'].node.currentTerm
    ensures forall j :: 0 <= j < |run| ==> StateExplained(m, cmds, run[j])
    ensures LeaderHas(cmds, run[k'].servers[i'].node, run[k].servers[i].node.commitIndex)
    ensures forall x: nat :: x <= run[k].servers[i].node.commitIndex ==>
        SameAt(run[k].servers[i].node, run[k'].servers[i'].node, x)
  {
    var hs, g := RunExplained(m, n, run);
    cmds := Commands(g);
    var h, h', last := hs[k], hs[k'], hs[|run| - 1];
    assert Traced(m, h, run[k], last) && Traced(m, h', run[k'], last);
    LeaderComplete(m, last, h, run[k], i, h', run[k'], i', g);
  }

  /** The leader's log reaches index `c`, and above its snapshot holds the list's commands up to there. */
  ghost predicate LeaderHas<C, S>(cmds: seq<C>, nd: Node<C, S>, c: nat) {
    && c <= nd.LastIndex() && c <= |cmds|
    && forall y: nat :: nd.logOffset < y <= c ==> Retains(cmds, nd, y)
  }

  lemma LeaderComplete<C(!new), S, R>(m: Machine<C, S, R>, last: History<C>, h: History<C>, s: System<C, S, R>, i: nat,
                                h': History<C>, s': System<C, S, R>, i': nat, g: Log<C>)
    requires Traced(m, h, s, last) && Traced(m, h', s', last) && Sound(last) && i < |s.servers| && i' < |s'.servers|
    requires s'.servers[i'].node.role == Leader && s.servers[i].node.currentTerm < s'.servers[i'].node.currentTerm
    requires Covers(last, g) && AllCommands(g)
    ensures LeaderHas(Commands(g), s'.servers[i'].node, s.servers[i].node.commitIndex)
    ensures forall x: nat :: x <= s.servers[i].node.commitIndex ==> SameAt(s.servers[i].node, s'.servers[i'].node, x)
  {
    KnownIsCommitted(m, h, s, i, last, g);
    LeaderInherits(m, last, h, s, i, h', s', i');
    LeaderMatches(m, h, s.servers[i], i, h', s'.servers[i'], i', g);
  }

  lemma LeaderInherits<C, S, R>(m: Machine<C, S, R>, last: History<C>, h: History<C>, s: System<C, S, R>, i: nat,
                                h': History<C>, s': System<C, S, R>, i': nat)
    requires Traced(m, h, s, last) && Traced(m, h', s', last) && Sound(last) && i < |s.servers| && i' < |s'.servers|
    requires s'.servers[i'].node.role == Leader && s.servers[i].node.currentTerm < s'.servers[i'].node.currentTerm
    requires s.servers[i].node.commitIndex < |h.log[i]|
    requires CommittedBy(last, h.log[i][..s.servers[i].node.commitIndex + 1], s.servers[i].node.currentTerm)
    ensures h.log[i][..s.servers[i].node.commitIndex + 1] <= h'.log[i']
  {
    var a, b := s.servers[i].node, s'.servers[i'].node;
    var p := h.log[i][..a.commitIndex + 1];
    LeaderElected(m, h', s', last, i');
    InheritedCommitted(last, p, a.currentTerm, b.currentTerm);
    InheritedNow(h', last, b.currentTerm, p);
  }

  lemma LeaderMatches<C, S, R>(m: Machine<C, S, R>, h: History<C>, sv: Server<C, S>, i: nat,
                               h': History<C>, sv': Server<C, S>, i': nat, g: Log<C>)
    requires ServerGlue(m, h, sv, i) && ServerGlue(m, h', sv', i') && AllCommands(g)
    requires h.log[i][..sv.node.commitIndex + 1] <= g && h.log[i][..sv.node.commitIndex + 1] <= h'.log[i']
    ensures LeaderHas(Commands(g), sv'.node, sv.node.commitIndex)
    ensures forall x: nat :: x <= sv.node.commitIndex ==> SameAt(sv.node, sv'.node, x)
  {
    var p := h.log[i][..sv.node.commitIndex + 1];
    RetainedAre(m, h', sv'.node, i', p, g);
    CommandsAt(g, 0);
    forall x: nat | x <= sv.node.commitIndex ensures SameAt(sv.node, sv'.node, x) {
      SharedPrefix(h, sv.node, i, h', sv'.node, i', p, x);
    }
  }

  /**
   State Machine Safety in the small: no two services ever execute different commands, or answer differently, at one
   index.
   */
  lemma StateMachineSafety<C(!new), S(!new), R>(m: Machine<C, S, R>, n: nat, run: seq<System<C, S, R>>,
                                                k: nat, a: Answer<C, R>, k': nat, b: Answer<C, R>)
    requires IsRun(m, n, run) && k < |run| && a in run[k].answers && k' < |run| && b in run[k'].answers
        && a.index == b.index
    ensures a.cmd == b.cmd && a.result == b.result
  {
    var cmds := OneLogExplainsTheRun(m, n, run);
    assert StateExplained(m, cmds, run[k]) && StateExplained(m, cmds, run[k']);
    assert AnswerExplained(m, cmds, a) && AnswerExplained(m, cmds, b);
  }

  // ---------------------------------------------------------------- the apply stream

  /** The message offered to the service continues its stream: the next command, or a snapshot further on. */
  ghost predicate Continuous<C, S>(sv: Server<C, S>) {
    match sv.outbox
    case None => true
    case Some(Command(i, c)) => i == sv.svc.index + 1 && c.Some?
    case Some(Restore(i, _, _)) => i > sv.svc.index
  }

  /** The apply stream has no gap, no repeat and no empty command, on any server at any time. */
  lemma ApplyStreamContinuous<C(!new), S(!new), R>(m: Machine<C, S, R>, n: nat, run: seq<System<C, S, R>>, k: nat,
                                                   i: nat)
    requires IsRun(m, n, run) && k < |run| && i < |run[k].servers|
    ensures Continuous(run[k].servers[i])
  {
    var hs := RunTraced(m, n, run);
    assert Traced(m, hs[k], run[k], hs[|run| - 1]);
    assert ServerGlue(m, hs[k], run[k].servers[i], i);
  }

  // ---------------------------------------------------------------- fast backup

  /** Leader `sv` acts on the rejection `r` of its probe `a` of peer `p`. */
  ghost predicate ActsOnRejection<C, S>(sv: Server<C, S>, p: nat, a: AppendArgs<C>, r: AppendReply) {
    && p < |sv.workers| && sv.workers[p] == AwaitAppend(a)
    && p < |sv.node.nextIndex| && p < |sv.node.matchIndex|
    && r.term <= sv.node.currentTerm && sv.node.role == Leader && sv.node.currentTerm == a.term && !r.success
    && sv.node.nextIndex[p] == a.prevLogIndex + 1 && sv.node.nextIndex[p] > sv.node.matchIndex[p] + 1
  }

  /**
   Fast backup: acting on a rejection keeps the next probe within `1..lastLogIndex+1`.  It strictly
   lowers the probe when the follower named a conflicting term or was too short; otherwise the
   follower had compacted the probed index, and the probe moves up to just above its snapshot.
   */
  lemma FastBackup<C(!new), S(!new), R>(m: Machine<C, S, R>, n: nat, run: seq<System<C, S, R>>, k: nat, i: nat,
                                        p: nat, a: AppendArgs<C>, r: AppendReply)
    requires IsRun(m, n, run) && k < |run| && i < |run[k].servers| && AppendRep(p, a, r) in run[k].net
    requires ActsOnRejection(run[k].servers[i], p, a, r)
    ensures var nd := run[k].servers[i].node;
      && |nd.log| > 0 && nd.logOffset <= nd.commitIndex
      && var next := OnAppendReply(nd, p, a, r).nextIndex[p];
        && 1 <= next <= nd.LastIndex() + 1
        && (r.xTerm.Some? || r.xLen <= a.prevLogIndex ==> next < nd.nextIndex[p])
        && (r.xTerm.None? && r.xLen > a.prevLogIndex ==> next > nd.nextIndex[p])
  {
    var hs := RunTraced(m, n, run);
    assert Traced(m, hs[k], run[k], hs[|run| - 1]);
    var sv := run[k].servers[i];
    assert ServerGlue(m, hs[k], sv, i);
    ViewAt(hs[k], sv.node, i, sv.node.commitIndex);
    assert MsgGlue(m, hs[k], AppendRep(p, a, r));
    BackUpInRange(hs[k], sv.node, i, a, r);
  }
}
