/** Nothing is ever executed that no client started: where the commands in a cluster come from. */
module StartedCommands {
  import opened Common
  import opened TermLogs
  import opened RaftNode
  import opened RaftSystem

  ghost predicate EntryWithin<C>(x: iset<C>, e: Entry<C>) {
    e.cmd.Some? ==> e.cmd.value in x
  }

  ghost predicate LogWithin<C>(x: iset<C>, l: Log<C>) {
    forall k: nat :: k < |l| ==> EntryWithin(x, l[k])
  }

  ghost predicate ServerWithin<C, S>(x: iset<C>, sv: Server<C, S>) {
    && LogWithin(x, sv.node.log)
    && (sv.outbox.Some? && sv.outbox.value.Command? && sv.outbox.value.cmd.Some? ==> sv.outbox.value.cmd.value in x)
  }

  ghost predicate MessageWithin<C, S>(x: iset<C>, msg: Message<C, S>) {
    msg.AppendReq? ==> LogWithin(x, msg.aa.entries)
  }

  /** Every command in a log, in the network, on its way to a service or executed belongs to `x`. */
  ghost predicate Within<C, S, R>(x: iset<C>, s: System<C, S, R>) {
    && (forall i :: 0 <= i < |s.servers| ==> ServerWithin(x, s.servers[i]))
    && (forall msg :: msg in s.net ==> MessageWithin(x, msg))
    && (forall a :: a in s.answers ==> a.cmd in x)
  }

  lemma {:induction false} MergeWithin<C>(x: iset<C>, log: Log<C>, at: nat, entries: Log<C>)
    requires at <= |log| && LogWithin(x, log) && LogWithin(x, entries)
    ensures LogWithin(x, MergeEntries(log, at, entries))
    decreases |entries|
  {
    if |entries| == 0 {
    } else if at < |log| && log[at].term == entries[0].term {
      forall k: nat | k < |entries[1..]| ensures EntryWithin(x, entries[1..][k]) {
        assert EntryWithin(x, entries[k + 1]);
      }
      MergeWithin(x, log, at + 1, entries[1..]);
    } else {
      var l := MergeEntries(log, at, entries);
      var cut := if at >= |log| then |log| else at;
      forall k: nat | k < |l| ensures EntryWithin(x, l[k]) {
        if k < cut { assert EntryWithin(x, log[k]); } else { assert EntryWithin(x, entries[k - cut]); }
      }
    }
  }

  lemma CutWithin<C>(x: iset<C>, log: Log<C>, at: nat, t: nat)
    requires at < |log| && LogWithin(x, log)
    ensures LogWithin(x, CutAt(log, at, t))
  {
  }

  lemma HandleWithin<C, S>(x: iset<C>, sv: Server<C, S>, msg: Message<C, S>)
    requires ServerWithin(x, sv) && MessageWithin(x, msg) && |sv.node.log| > 0
    requires msg.AppendRep? ==>
               && msg.src < |sv.node.nextIndex| && msg.src < |sv.node.matchIndex| && msg.src < |sv.workers|
               && sv.node.logOffset <= sv.node.commitIndex
    requires msg.SnapRep? ==> msg.src < |sv.node.nextIndex| && msg.src < |sv.node.matchIndex| && msg.src < |sv.workers|
    ensures ServerWithin(x, Handle(sv, msg).0)
    ensures forall out :: out in Handle(sv, msg).1 ==> MessageWithin(x, out)
  {
    if msg.AppendReq? {
      var a := msg.aa;
      if sv.node.Holds(a.prevLogIndex) {
        MergeWithin(x, sv.node.log, a.prevLogIndex + 1 - sv.node.logOffset, a.entries);
      }
    } else if msg.SnapReq? {
      var a := msg.sa;
      if sv.node.Holds(a.lastIncludedIndex) {
        CutWithin(x, sv.node.log, a.lastIncludedIndex - sv.node.logOffset, a.lastIncludedTerm);
      }
    }
  }

  lemma SendWithin<C, S>(x: iset<C>, sv: Server<C, S>, p: nat)
    requires ServerWithin(x, sv) && CanSend(sv, p)
    ensures ServerWithin(x, Send(sv, p).0) && MessageWithin(x, Send(sv, p).1)
  {
  }

  lemma StartWithin<C, S>(x: iset<C>, sv: Server<C, S>, c: C)
    requires ServerWithin(x, sv) && c in x && sv.node.me < |sv.node.nextIndex| && sv.node.me < |sv.node.matchIndex|
    ensures ServerWithin(x, sv.(node := StartCommand(sv.node, c)))
  {
  }

  lemma ApplyWithin<C, S>(x: iset<C>, sv: Server<C, S>)
    requires ServerWithin(x, sv)
    requires sv.node.pending.None? && sv.node.lastApplied < sv.node.commitIndex ==>
        sv.node.Holds(sv.node.lastApplied + 1)
    ensures ServerWithin(x, sv.(node := ApplierTurn(sv.node).0, outbox := ApplierTurn(sv.node).1))
  {
  }

  lemma CompactWithin<C, S>(x: iset<C>, sv: Server<C, S>, svc: Service<S>)
    requires ServerWithin(x, sv)
    ensures ServerWithin(x, sv.(node := TakeSnapshot(sv.node, sv.svc.index, Some(sv.svc.state)), svc := svc))
  {
  }

  lemma StepServerWithin<C, S, R>(m: Machine<C, S, R>, x: iset<C>, s: System<C, S, R>, a: Action<C, S>)
    requires Within(x, s) && Enabled(s, a) && InBounds(s, a) && (a.ClientStart? ==> a.cmd in x)
    ensures ServerWithin(x, Perform(m, s, a).servers[a.i])
  {
    var sv := s.servers[a.i];
    assert ServerWithin(x, sv);
    match a
    case Deliver(_, msg) => HandleWithin(x, sv, msg);
    case ClientStart(_, c) => StartWithin(x, sv, c);
    case WorkerSend(_, p) => SendWithin(x, sv, p);
    case Apply(_) => ApplyWithin(x, sv);
    case Compact(_) => CompactWithin(x, sv, sv.svc.(mayCompact := false));
    case _ =>
  }

  lemma StepMessagesWithin<C, S, R>(m: Machine<C, S, R>, x: iset<C>, s: System<C, S, R>, a: Action<C, S>)
    requires Within(x, s) && Enabled(s, a) && InBounds(s, a)
    ensures forall msg :: msg in Perform(m, s, a).net ==> MessageWithin(x, msg)
    ensures forall b :: b in Perform(m, s, a).answers ==> b.cmd in x
  {
  }

  lemma StepWithin<C, S, R>(m: Machine<C, S, R>, x: iset<C>, s: System<C, S, R>, a: Action<C, S>)
    requires Within(x, s) && Enabled(s, a) && InBounds(s, a) && (a.ClientStart? ==> a.cmd in x)
    ensures Within(x, Perform(m, s, a))
  {
    StepServerWithin(m, x, s, a);
    StepMessagesWithin(m, x, s, a);
    var s' := Perform(m, s, a);
    forall i | 0 <= i < |s'.servers| ensures ServerWithin(x, s'.servers[i]) {
      if i != a.i { assert s'.servers[i] == s.servers[i]; }
    }
  }
}
