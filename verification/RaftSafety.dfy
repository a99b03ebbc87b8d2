/**
 Safety of the cluster over every run: whatever is lost, delayed, duplicated, compacted or crashed.
 The theorems speak of the servers, messages and answers of `RaftSystem` alone; histories are
 only used to prove them.
 */
module RaftSafety {
  import opened Common
  import opened TermLogs
  import opened HistorySteps
  import opened RaftNode
  import opened RaftSystem
  import opened RaftGlue
  import opened RaftElections
  import opened RaftReplication
  import opened RaftFollowing
  import opened RaftReplies

  // ---------------------------------------------------------------- every step keeps the cluster glued

  lemma InitGlued<C, S, R>(m: Machine<C, S, R>, n: nat, s: System<C, S, R>)
    requires Init(m, n, s)
    ensures Glued(m, Initial<C>(n), s)
  {
    var h := Initial<C>(n);
    InitialSound<C>(n);
    forall i: nat | i < n ensures ServerGlue(m, h, s.servers[i], i) {
      assert s.servers[i] == Fresh0(m, n, i);
      forall p: nat | p < n ensures WorkerOk(m, h, s.servers[i], i, p) {}
    }
  }

  /** No reachable state lets a step index a log outside its bounds. */
  lemma StepInBounds<C, S, R>(m: Machine<C, S, R>, h: History<C>, s: System<C, S, R>, a: Action<C, S>)
    requires Glued(m, h, s) && Enabled(s, a)
    ensures InBounds(s, a)
  {
    var sv := s.servers[a.i];
    assert ServerGlue(m, h, sv, a.i);
    ViewAt(h, sv.node, a.i, sv.node.commitIndex);
    match a
    case WorkerSend(i, p) => SendInBounds(m, h, sv, i, p);
    case _ =>
  }

  lemma DeliverGlued<C, S, R>(m: Machine<C, S, R>, h: History<C>, sv: Server<C, S>, i: nat, msg: Message<C, S>)
    returns (k: History<C>)
    requires Sound(h) && ServerGlue(m, h, sv, i) && |sv.node.log| > 0 && MsgGlue(m, h, msg) && Addressed(sv, msg)
    ensures Sound(k) && OthersUndisturbed(h, k, i) && NothingAdded(h, k)
    ensures ServerGlue(m, k, Handle(sv, msg).0, i)
    ensures forall out :: out in Handle(sv, msg).1 ==> MsgGlue(m, k, out)
  {
    match msg
    case VoteReq(_, _) => k := VoteReqGlue(m, h, sv, i, msg);
    case VoteRep(_, _, _) => k := VoteRepGlue(m, h, sv, i, msg);
    case AppendReq(_, a) => k := AppendReqGlue(m, h, sv, i, a);
    case AppendRep(p, a, r) => k := AppendRepGlue(m, h, sv, i, p, a, r);
    case SnapReq(_, a) => k := SnapReqGlue(m, h, sv, i, a);
    case SnapRep(p, a, r) => k := SnapRepGlue(m, h, sv, i, p, a, r);
  }

  lemma ReceiveGlued<C, S, R>(m: Machine<C, S, R>, h: History<C>, s: System<C, S, R>, i: nat)
    requires Glued(m, h, s) && Enabled(s, Receive(i))
    ensures Glued(m, h, Perform(m, s, Receive(i)))
  {
    var sv := s.servers[i];
    OthersSame(h, i);
    assert ServerGlue(m, h, sv, i);
    ReceiveGlue(m, h, sv, i);
    StepGlued(m, h, h, s, i, Consume(m, sv), []);
    var s' := Perform(m, s, Receive(i));
    forall a | a in s'.answers ensures AnswerGlue(m, h, a) {
      if a !in s.answers { ReceiveAnswers(m, h, sv, i, a); }
    }
  }

  lemma LocalGlued<C, S, R>(m: Machine<C, S, R>, h: History<C>, s: System<C, S, R>, i: nat, sv: Server<C, S>)
    requires Glued(m, h, s) && i < h.n && ServerGlue(m, h, sv, i)
    ensures Glued(m, h, Put(s, i, sv, []))
  {
    OthersSame(h, i);
    StepGlued(m, h, h, s, i, sv, []);
  }

  /** Only a client's Start on a leader adds an entry to the history, and adds just that one. */
  ghost predicate StartedOnly<C, S>(h: History<C>, k: History<C>, a: Action<C, S>) {
    NothingAdded(h, k) || (a.ClientStart? && Leads(h, a.i) && k == Extend(h, a.i, a.cmd))
  }

  lemma StartStepGlued<C, S, R>(m: Machine<C, S, R>, h: History<C>, s: System<C, S, R>, a: Action<C, S>)
    returns (k: History<C>)
    requires Glued(m, h, s) && Enabled(s, a) && InBounds(s, a) && a.ClientStart?
    ensures Glued(m, k, Perform(m, s, a)) && Continues(h, k) && StartedOnly(h, k, a)
  {
    var i, c := a.i, a.cmd;
    var sv := s.servers[i];
    assert ServerGlue(m, h, sv, i);
    k := h;
    OthersSame(h, i);
    if sv.node.role == Leader {
      StartGlue(m, h, sv, i, c);
      k := Extend(h, i, c);
      StepGlued(m, h, k, s, i, sv.(node := StartCommand(sv.node, c)), []);
    } else {
      LocalGlued(m, h, s, i, sv);
    }
  }

  lemma SendStepGlued<C, S, R>(m: Machine<C, S, R>, h: History<C>, s: System<C, S, R>, i: nat, p: nat)
    requires Glued(m, h, s) && Enabled(s, WorkerSend(i, p)) && InBounds(s, WorkerSend(i, p))
    ensures Glued(m, h, Perform(m, s, WorkerSend(i, p)))
  {
    var sv := s.servers[i];
    assert ServerGlue(m, h, sv, i);
    OthersSame(h, i);
    SendGlue(m, h, sv, i, p);
    StepGlued(m, h, h, s, i, Send(sv, p).0, [Send(sv, p).1]);
  }

  lemma LeaderStepGlued<C, S, R>(m: Machine<C, S, R>, h: History<C>, s: System<C, S, R>, a: Action<C, S>)
    returns (k: History<C>)
    requires Glued(m, h, s) && Enabled(s, a) && InBounds(s, a)
    requires a.ClientStart? || a.WorkerSend? || a.WorkerTimeout? || a.Heartbeat?
    ensures Glued(m, k, Perform(m, s, a)) && Continues(h, k) && StartedOnly(h, k, a)
  {
    var i := a.i;
    var sv := s.servers[i];
    assert ServerGlue(m, h, sv, i);
    k := h;
    OthersSame(h, i);
    match a
    case ClientStart(_, _) => k := StartStepGlued(m, h, s, a);
    case WorkerSend(_, p) => SendStepGlued(m, h, s, i, p);
    case WorkerTimeout(_, p) => IdleGlue(m, h, sv, i, p); LocalGlued(m, h, s, i, sv.(workers := sv.workers[p := Idle]));
    case Heartbeat(_) => PushGlue(m, h, sv, i); LocalGlued(m, h, s, i, sv.(node := PushForward(sv.node)));
  }

  lemma ElectionStepGlued<C, S, R>(m: Machine<C, S, R>, h: History<C>, s: System<C, S, R>, a: Action<C, S>)
    returns (k: History<C>)
    requires Glued(m, h, s) && Enabled(s, a) && InBounds(s, a)
    requires a.Timeout? || a.WinAlone? || a.Deliver?
    ensures Glued(m, k, Perform(m, s, a)) && Continues(h, k) && StartedOnly(h, k, a)
  {
    var i := a.i;
    var sv := s.servers[i];
    assert ServerGlue(m, h, sv, i);
    match a
    case Timeout(_) =>
      TimeoutGlue(m, h, sv, i);
      k := Stand(h, i);
      StepGlued(m, h, k, s, i, OnTimeout(sv), Campaign(sv.node.n, BeginElection(sv.node).1));
    case WinAlone(_) =>
      WinAloneGlue(m, h, sv, i);
      k := Win(h, i);
      StepGlued(m, h, k, s, i, sv.(node := LeaderInit(sv.node)), []);
    case Deliver(_, msg) =>
      k := DeliverGlued(m, h, sv, i, msg);
      StepGlued(m, h, k, s, i, Handle(sv, msg).0, Handle(sv, msg).1);
  }

  lemma ServiceStepGlued<C, S, R>(m: Machine<C, S, R>, h: History<C>, s: System<C, S, R>, a: Action<C, S>)
    requires Glued(m, h, s) && Enabled(s, a) && InBounds(s, a)
    requires a.Apply? || a.Receive? || a.Compact? || a.Restart?
    ensures Glued(m, h, Perform(m, s, a))
  {
    var i := a.i;
    var sv := s.servers[i];
    assert ServerGlue(m, h, sv, i);
    match a
    case Apply(_) =>
      ApplyGlue(m, h, sv, i);
      LocalGlued(m, h, s, i, sv.(node := ApplierTurn(sv.node).0, outbox := ApplierTurn(sv.node).1));
    case Receive(_) => ReceiveGlued(m, h, s, i);
    case Compact(_) =>
      CompactGlue(m, h, sv, i);
      LocalGlued(m, h, s, i, sv.(node := TakeSnapshot(sv.node, sv.svc.index, Some(sv.svc.state)),
          svc := sv.svc.(mayCompact := false)));
    case Restart(_) => RestartGlue(m, h, sv, i); LocalGlued(m, h, s, i, Reboot(m, sv));
  }

  lemma NextGlued<C, S, R>(m: Machine<C, S, R>, h: History<C>, s: System<C, S, R>, a: Action<C, S>)
    returns (k: History<C>)
    requires Glued(m, h, s) && Enabled(s, a) && InBounds(s, a)
    ensures Glued(m, k, Perform(m, s, a)) && Continues(h, k) && StartedOnly(h, k, a)
  {
    if a.Timeout? || a.WinAlone? || a.Deliver? {
      k := ElectionStepGlued(m, h, s, a);
    } else if a.Apply? || a.Receive? || a.Compact? || a.Restart? {
      ServiceStepGlued(m, h, s, a);
      k := h;
    } else {
      k := LeaderStepGlued(m, h, s, a);
    }
  }

  lemma NextHistory<C(!new), S(!new), R>(m: Machine<C, S, R>, h: History<C>, s: System<C, S, R>, s': System<C, S, R>)
    returns (k: History<C>)
    requires Traced(m, h, s, h) && Next(m, s, s')
    ensures Traced(m, k, s', k) && Continues(h, k)
  {
    var a: Action<C, S> :| Enabled(s, a) && InBounds(s, a) && s' == Perform(m, s, a);
    k := NextGlued(m, h, s, a);
    OthersSame(k, 0);
  }

  /** `h` is a history for `s` that `last` continues. */
  ghost predicate Traced<C, S, R>(m: Machine<C, S, R>, h: History<C>, s: System<C, S, R>, last: History<C>) {
    Glued(m, h, s) && Continues(h, last)
  }

  /** Every run has a history at every moment, and the last one continues all the others. */
  lemma RunTraced<C(!new), S(!new), R>(m: Machine<C, S, R>, n: nat, run: seq<System<C, S, R>>)
    returns (hs: seq<History<C>>)
    requires IsRun(m, n, run)
    ensures |hs| == |run| && forall k :: 0 <= k < |run| ==> Traced(m, hs[k], run[k], hs[|run| - 1])
  {
    hs := TracedUpTo(m, n, run, |run| - 1);
  }

  lemma {:induction false} TracedUpTo<C(!new), S(!new), R>(m: Machine<C, S, R>, n: nat, run: seq<System<C, S, R>>,
                                                           j: nat)
    returns (hs: seq<History<C>>)
    requires IsRun(m, n, run) && j < |run|
    ensures |hs| == j + 1 && forall k :: 0 <= k <= j ==> Traced(m, hs[k], run[k], hs[j])
    decreases j
  {
    if j == 0 {
      var h := FirstHistory(m, n, run[0]);
      hs := [h];
    } else {
      hs := TracedUpTo(m, n, run, j - 1);
      assert Next(m, run[j - 1], run[j]) && Traced(m, hs[j - 1], run[j - 1], hs[j - 1]);
      var h := NextHistory(m, hs[j - 1], run[j - 1], run[j]);
      TraceGrows(m, run, hs, j, h);
      hs := hs + [h];
    }
  }

  lemma TraceGrows<C(!new), S(!new), R>(m: Machine<C, S, R>, run: seq<System<C, S, R>>, hs: seq<History<C>>, j: nat,
                                        h: History<C>)
    requires 0 < j < |run| && |hs| == j && Traced(m, h, run[j], h) && Continues(hs[j - 1], h)
    requires forall k :: 0 <= k < j ==> Traced(m, hs[k], run[k], hs[j - 1])
    ensures forall k :: 0 <= k <= j ==> Traced(m, (hs + [h])[k], run[k], h)
  {
    forall k | 0 <= k < j ensures Traced(m, hs[k], run[k], h) { TracedLonger(m, hs[k], run[k], hs[j - 1], h); }
  }

  lemma FirstHistory<C, S, R>(m: Machine<C, S, R>, n: nat, s: System<C, S, R>) returns (h: History<C>)
    requires Init(m, n, s)
    ensures Traced(m, h, s, h)
  {
    InitGlued(m, n, s);
    h := Initial<C>(n);
    OthersSame(h, 0);
  }

  lemma TracedLonger<C, S, R>(m: Machine<C, S, R>, h: History<C>, s: System<C, S, R>, last: History<C>, k: History<C>)
    requires Traced(m, h, s, last) && Continues(last, k)
    ensures Traced(m, h, s, k)
  {
    ContinuesTrans(h, last, k);
  }

  // ---------------------------------------------------------------- index safety

  ghost predicate IndexesOrdered<C, S>(nd: Node<C, S>) {
    nd.logOffset <= nd.lastApplied <= nd.commitIndex <= nd.LastIndex()
  }

  ghost predicate BookkeepingInRange<C, S>(nd: Node<C, S>, p: nat) {
    && p < |nd.nextIndex| && p < |nd.matchIndex|
    && nd.matchIndex[p] + 1 <= nd.nextIndex[p] <= nd.LastIndex() + 1
  }

  /**
   Index safety: in every reachable state the four log positions of every server are in order, every
   leader's `matchIndex` and `nextIndex` are in range for every peer, and no step that can
   be taken indexes a log outside its bounds.
   */
  lemma IndexSafety<C(!new), S(!new), R>(m: Machine<C, S, R>, n: nat, run: seq<System<C, S, R>>, k: nat, i: nat, p: nat)
    requires IsRun(m, n, run) && k < |run| && i < |run[k].servers| && p < n
    ensures |run[k].servers| == n
    ensures IndexesOrdered(run[k].servers[i].node)
    ensures run[k].servers[i].node.role == Leader ==> BookkeepingInRange(run[k].servers[i].node, p)
    ensures forall a: Action<C, S> :: Enabled(run[k], a) ==> InBounds(run[k], a)
  {
    var hs := RunTraced(m, n, run);
    var h, sv := hs[k], run[k].servers[i];
    assert Traced(m, h, run[k], hs[|run| - 1]);
    RunSize(m, n, run, k);
    assert ServerGlue(m, h, sv, i);
    ViewAt(h, sv.node, i, sv.node.commitIndex);
    if sv.node.role == Leader { assert PeerOk(h, sv, i, p); }
    forall a: Action<C, S> | Enabled(run[k], a) ensures InBounds(run[k], a) { StepInBounds(m, h, run[k], a); }
  }

  lemma {:induction false} RunSize<C(!new), S(!new), R>(m: Machine<C, S, R>, n: nat, run: seq<System<C, S, R>>, k: nat)
    requires IsRun(m, n, run) && k < |run|
    ensures |run[k].servers| == n
  {
    if k > 0 {
      RunSize(m, n, run, k - 1);
      assert Next(m, run[k - 1], run[k]);
    }
  }
}
