/**
 One run of a cluster of three, for every machine and every command: a server is elected, replicates the command to one
 peer, commits and executes it, compacts its log, and brings the third server up to date with a snapshot.
 */
module RaftExample {
  import opened Common
  import opened TermLogs
  import opened RaftNode
  import opened RaftSystem

  function Now<C, S, R>(run: seq<System<C, S, R>>): System<C, S, R>
    requires |run| > 0
  {
    run[|run| - 1]
  }

  /** One more step. */
  lemma GoOn<C(!new), S(!new), R>(m: Machine<C, S, R>, run: seq<System<C, S, R>>, a: Action<C, S>)
    returns (run': seq<System<C, S, R>>)
    requires IsRun(m, 3, run) && Enabled(Now(run), a) && InBounds(Now(run), a)
    ensures IsRun(m, 3, run') && Now(run') == Perform(m, Now(run), a)
  {
    run' := run + [Perform(m, Now(run), a)];
    assert Next(m, Now(run), Now(run'));
    forall k | 0 <= k < |run'| - 1 ensures Next(m, run'[k], run'[k + 1]) {
      if k < |run| - 1 { assert run'[k] == run[k] && run'[k + 1] == run[k + 1]; }
    }
  }

  /** Server `i` of three has nothing queued, and this role, term, log and these indexes. */
  ghost predicate Is<C, S>(sv: Server<C, S>, i: nat, role: Role, term: nat, log: Log<C>, commit: nat, applied: nat) {
    && sv.node.n == 3 && sv.node.me == i && sv.node.role == role && sv.node.currentTerm == term && sv.node.log == log
    && sv.node.logOffset == 0 && sv.node.commitIndex == commit && sv.node.lastApplied == applied
    && sv.node.pending == None && sv.outbox == None && |sv.workers| == 3
  }

  ghost predicate Fresh<C, S, R>(m: Machine<C, S, R>, sv: Server<C, S>, i: nat) {
    && Is(sv, i, Follower, 0, [Entry(0, None)], 0, 0) && sv.node.voteFor == None
    && sv.svc == Service(m.init, 0, false)
  }

  const Ballot := VoteArgs(1, 0, 0, 0)

  /** Server 0 stands for election. */
  lemma Stood<C(!new), S(!new), R>(m: Machine<C, S, R>) returns (run: seq<System<C, S, R>>)
    ensures IsRun(m, 3, run)
    ensures var s := Now(run);
      && |s.servers| == 3 && Is(s.servers[0], 0, Candidate, 1, [Entry(0, None)], 0, 0) && s.servers[0].votes == {0}
      && (forall p :: 0 <= p < 3 ==> s.servers[0].workers[p] == Idle) && s.servers[0].svc == Service(m.init, 0, false)
      && Fresh(m, s.servers[1], 1) && Fresh(m, s.servers[2], 2) && VoteReq(1, Ballot) in s.net
  {
    run := [System([Fresh0(m, 3, 0), Fresh0(m, 3, 1), Fresh0(m, 3, 2)], [], [])];
    run := GoOn(m, run, Timeout(0));
  }

  /** Server 1 votes for it. */
  lemma Voted<C(!new), S(!new), R>(m: Machine<C, S, R>) returns (run: seq<System<C, S, R>>)
    ensures IsRun(m, 3, run)
    ensures var s := Now(run);
      && |s.servers| == 3 && Is(s.servers[0], 0, Candidate, 1, [Entry(0, None)], 0, 0) && s.servers[0].votes == {0}
      && (forall p :: 0 <= p < 3 ==> s.servers[0].workers[p] == Idle) && s.servers[0].svc == Service(m.init, 0, false)
      && Is(s.servers[1], 1, Follower, 1, [Entry(0, None)], 0, 0) && Fresh(m, s.servers[2], 2)
      && VoteRep(1, Ballot, VoteReply(1, true)) in s.net
  {
    run := Stood(m);
    run := GoOn(m, run, Deliver(1, VoteReq(1, Ballot)));
  }

  /** Server 0 leads. */
  lemma Elected<C(!new), S(!new), R>(m: Machine<C, S, R>) returns (run: seq<System<C, S, R>>)
    ensures IsRun(m, 3, run)
    ensures var s := Now(run);
      && |s.servers| == 3 && Is(s.servers[0], 0, Leader, 1, [Entry(0, None)], 0, 0)
      && s.servers[0].node.nextIndex == [1, 1, 1] && s.servers[0].node.matchIndex == [0, 0, 0]
      && (forall p :: 0 <= p < 3 ==> s.servers[0].workers[p] == Idle) && s.servers[0].svc == Service(m.init, 0, false)
      && Is(s.servers[1], 1, Follower, 1, [Entry(0, None)], 0, 0) && Fresh(m, s.servers[2], 2)
  {
    run := Voted(m);
    assert |{0, 1}| == 2;
    assert {0} + {1} == {0, 1};
    run := GoOn(m, run, Deliver(0, VoteRep(1, Ballot, VoteReply(1, true))));
  }

  function Append<C>(c: C): AppendArgs<C> {
    AppendArgs(1, 0, 0, 0, [Entry(1, Some(c))], 0)
  }

  /** It takes the command and sends it to server 1, which stores it. */
  lemma Sent<C(!new), S(!new), R>(m: Machine<C, S, R>, c: C) returns (run: seq<System<C, S, R>>)
    ensures IsRun(m, 3, run)
    ensures var s := Now(run);
      && |s.servers| == 3 && Is(s.servers[0], 0, Leader, 1, [Entry(0, None), Entry(1, Some(c))], 0, 0)
      && s.servers[0].node.nextIndex == [2, 1, 1] && s.servers[0].node.matchIndex == [1, 0, 0]
      && s.servers[0].workers[1] == AwaitAppend(Append(c)) && s.servers[0].workers[2] == Idle
      && s.servers[0].svc == Service(m.init, 0, false)
      && Is(s.servers[1], 1, Follower, 1, [Entry(0, None)], 0, 0) && Fresh(m, s.servers[2], 2)
      && AppendReq(1, Append(c)) in s.net
  {
    run := Elected(m);
    run := GoOn(m, run, ClientStart(0, c));
    run := GoOn(m, run, WorkerSend(0, 1));
  }

  lemma Stored<C(!new), S(!new), R>(m: Machine<C, S, R>, c: C) returns (run: seq<System<C, S, R>>)
    ensures IsRun(m, 3, run)
    ensures var s := Now(run);
      && |s.servers| == 3 && Is(s.servers[0], 0, Leader, 1, [Entry(0, None), Entry(1, Some(c))], 0, 0)
      && s.servers[0].node.nextIndex == [2, 1, 1] && s.servers[0].node.matchIndex == [1, 0, 0]
      && s.servers[0].workers[1] == AwaitAppend(Append(c)) && s.servers[0].workers[2] == Idle
      && s.servers[0].svc == Service(m.init, 0, false)
      && Is(s.servers[1], 1, Follower, 1, [Entry(0, None), Entry(1, Some(c))], 0, 0) && Fresh(m, s.servers[2], 2)
      && AppendRep(1, Append(c), AppendReply(1, true, Some(0), 0, 0)) in s.net
  {
    run := Sent(m, c);
    var nd := Now(run).servers[1].node;
    assert MergeEntries(nd.log, 1, Append(c).entries) == [Entry(0, None), Entry(1, Some(c))];
    run := GoOn(m, run, Deliver(1, AppendReq(1, Append(c))));
  }

  lemma TwoOfThree()
    ensures CountAtLeast([1, 1, 0], 1) == 2
  {
    assert [1, 1, 0][..2] == [1, 1] && [1, 1][..1] == [1] && [1][..0] == [];
    assert CountAtLeast([1], 1) == 1;
    assert CountAtLeast([1, 1], 1) == 2;
  }

  /** The leader hears of it and commits. */
  lemma Committed<C(!new), S(!new), R>(m: Machine<C, S, R>, c: C) returns (run: seq<System<C, S, R>>)
    ensures IsRun(m, 3, run)
    ensures var s := Now(run);
      && |s.servers| == 3 && Is(s.servers[0], 0, Leader, 1, [Entry(0, None), Entry(1, Some(c))], 1, 0)
      && s.servers[0].node.nextIndex == [2, 2, 1] && s.servers[0].workers[2] == Idle
      && s.servers[0].svc == Service(m.init, 0, false) && Fresh(m, s.servers[2], 2)
  {
    run := Stored(m, c);
    TwoOfThree();
    var mid := Advance(Now(run).servers[0].node, 1, 1);
    assert mid.matchIndex == [1, 1, 0] && MayCommit(mid, 1) && CommitPoint(mid, 1) == 1;
    run := GoOn(m, run, Deliver(0, AppendRep(1, Append(c), AppendReply(1, true, Some(0), 0, 0))));
  }

  /** Its service executes the command and answers. */
  lemma Answered<C(!new), S(!new), R>(m: Machine<C, S, R>, c: C) returns (run: seq<System<C, S, R>>)
    ensures IsRun(m, 3, run)
    ensures var s := Now(run);
      && |s.servers| == 3 && Is(s.servers[0], 0, Leader, 1, [Entry(0, None), Entry(1, Some(c))], 1, 1)
      && s.servers[0].node.nextIndex == [2, 2, 1] && s.servers[0].workers[2] == Idle
      && s.servers[0].svc == Service(m.step(m.init, c).0, 1, true) && Fresh(m, s.servers[2], 2)
      && Answer(0, 1, c, m.step(m.init, c).1) in s.answers
  {
    run := Committed(m, c);
    run := GoOn(m, run, Apply(0));
    run := GoOn(m, run, Receive(0));
  }

  function Snap<C, S, R>(m: Machine<C, S, R>, c: C): SnapArgs<S> {
    SnapArgs(1, 0, 1, 1, Some(m.step(m.init, c).0))
  }

  /** It compacts its log, so that server 2, which has nothing, must be sent the snapshot. */
  lemma SnapshotSent<C(!new), S(!new), R>(m: Machine<C, S, R>, c: C) returns (run: seq<System<C, S, R>>)
    ensures IsRun(m, 3, run)
    ensures var s := Now(run);
      && |s.servers| == 3 && Fresh(m, s.servers[2], 2) && SnapReq(2, Snap(m, c)) in s.net
      && s.servers[0].node.logOffset == 1 && s.servers[0].node.log == [Entry(1, None)]
      && s.servers[0].svc.state == m.step(m.init, c).0 && Answer(0, 1, c, m.step(m.init, c).1) in s.answers
  {
    run := Answered(m, c);
    run := GoOn(m, run, Compact(0));
    run := GoOn(m, run, WorkerSend(0, 2));
  }

  /** The command is answered, and the third server's service reaches the same state without having had the command. */
  lemma CommittedAndTransferred<C(!new), S(!new), R>(m: Machine<C, S, R>, c: C) returns (run: seq<System<C, S, R>>)
    ensures IsRun(m, 3, run)
    ensures var s := Now(run);
      && |s.servers| == 3 && Answer(0, 1, c, m.step(m.init, c).1) in s.answers
      && s.servers[0].svc.state == m.step(m.init, c).0
      && s.servers[2].svc == Service(m.step(m.init, c).0, 1, false)
  {
    run := SnapshotSent(m, c);
    run := GoOn(m, run, Deliver(2, SnapReq(2, Snap(m, c))));
    run := GoOn(m, run, Apply(2));
    run := GoOn(m, run, Receive(2));
  }
}
