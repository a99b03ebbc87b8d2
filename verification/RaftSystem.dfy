/**
 A whole cluster: Raft peers, the replicated service each of them feeds, and a network that may
 lose, delay, reorder and duplicate.  A step is one region some goroutine executes under a lock, one
 message handed to the service, or a crash followed by a restart.
 */
module RaftSystem {
  import opened Common
  import opened TermLogs
  import opened RaftNode

  /** The replicated state machine: `step` is DoOp, returning the new state and the reply. */
  datatype Machine<!C, !S, R> = Machine(init: S, step: (S, C) -> (S, R))

  /** The replication goroutine for one peer waits for at most one reply. */
  datatype Worker<C, S> = Idle | AwaitAppend(append: AppendArgs<C>) | AwaitSnap(snap: SnapArgs<S>)

  /** The reader goroutine: the machine's state, the index of the last message consumed, and whether
      that message was a command after which the reader may still compact the log. */
  datatype Service<S> = Service(state: S, index: nat, mayCompact: bool)

  datatype Server<C, S> = Server(
    node: Node<C, S>,
    votes: set<nat>,
    workers: seq<Worker<C, S>>,
    outbox: Option<ApplyMsg<C, S>>,
    svc: Service<S>)

  datatype Message<C, S> =
    | VoteReq(dst: nat, va: VoteArgs)
    | VoteRep(src: nat, va: VoteArgs, vr: VoteReply)
    | AppendReq(dst: nat, aa: AppendArgs<C>)
    | AppendRep(src: nat, aa: AppendArgs<C>, ar: AppendReply)
    | SnapReq(dst: nat, sa: SnapArgs<S>)
    | SnapRep(src: nat, sa: SnapArgs<S>, sr: SnapReply)

  /** The service of `server` executed `cmd` from index `index` and computed `result`. */
  datatype Answer<C, R> = Answer(server: nat, index: nat, cmd: C, result: R)

  datatype System<C, S, R> = System(
    servers: seq<Server<C, S>>,
    net: seq<Message<C, S>>,
    answers: seq<Answer<C, R>>)

  datatype Action<C, S> =
    | Timeout(i: nat)
    | WinAlone(i: nat)
    | Deliver(i: nat, msg: Message<C, S>)
    | ClientStart(i: nat, cmd: C)
    | WorkerSend(i: nat, peer: nat)
    | WorkerTimeout(i: nat, peer: nat)
    | Heartbeat(i: nat)
    | Apply(i: nat)
    | Receive(i: nat)
    | Compact(i: nat)
    | Restart(i: nat)

  function Fresh0<C, S, R>(m: Machine<C, S, R>, n: nat, me: nat): Server<C, S> {
    Server(Boot(n, me, FirstBoot()), {}, seq(n, _ => Idle), None, Service(m.init, 0, false))
  }

  ghost predicate Init<C, S, R>(m: Machine<C, S, R>, n: nat, s: System<C, S, R>) {
    && n > 0 && |s.servers| == n && s.net == [] && s.answers == []
    && forall i :: 0 <= i < n ==> s.servers[i] == Fresh0(m, n, i)
  }

  // ---------------------------------------------------------------- what each step does to its server

  /** The vote requests of a candidate, one for every peer below `n` but itself. */
  function Campaign<C, S>(n: nat, args: VoteArgs): (ms: seq<Message<C, S>>)
    ensures forall msg :: msg in ms ==> msg.VoteReq? && msg.dst < n && msg.dst != args.candidate && msg.va == args
    ensures forall p: nat :: p < n && p != args.candidate ==> VoteReq(p, args) in ms
  {
    if n == 0 then []
    else Campaign(n - 1, args) + if n - 1 == args.candidate then [] else [VoteReq(n - 1, args)]
  }

  function OnTimeout<C, S>(sv: Server<C, S>): Server<C, S>
    requires |sv.node.log| > 0
  {
    sv.(node := BeginElection(sv.node).0, votes := {sv.node.me})
  }

  function Send<C, S>(sv: Server<C, S>, p: nat): (Server<C, S>, Message<C, S>)
    requires CanSend(sv, p)
  {
    if sv.node.nextIndex[p] <= sv.node.logOffset then
      var a := BeginSnapshot(sv.node);
      (sv.(workers := sv.workers[p := AwaitSnap(a)]), SnapReq(p, a))
    else
      var a := BeginAppend(sv.node, p);
      (sv.(workers := sv.workers[p := AwaitAppend(a)]), AppendReq(p, a))
  }

  /** Every index the sender computes lies inside its log. */
  predicate CanSend<C, S>(sv: Server<C, S>, p: nat) {
    && p < |sv.workers| && p < |sv.node.nextIndex| && |sv.node.log| > 0
    && (sv.node.nextIndex[p] > sv.node.logOffset ==> sv.node.Holds(sv.node.nextIndex[p] - 1))
  }

  function Consume<C, S, R>(m: Machine<C, S, R>, sv: Server<C, S>): Server<C, S>
    requires sv.outbox.Some?
  {
    var svc := match sv.outbox.value
      case Restore(i, _, Some(st)) => Service(st, i, false)
      case Restore(i, _, None) => Service(sv.svc.state, i, false)
      case Command(i, Some(c)) => Service(m.step(sv.svc.state, c).0, i, true)
      case Command(i, None) => Service(sv.svc.state, i, true);
    sv.(outbox := None, svc := svc)
  }

  function AnswersOf<C, S, R>(m: Machine<C, S, R>, sv: Server<C, S>): seq<Answer<C, R>>
    requires sv.outbox.Some?
  {
    match sv.outbox.value
    case Command(i, Some(c)) => [Answer(sv.node.me, i, c, m.step(sv.svc.state, c).1)]
    case _ => []
  }

  function Reboot<C, S, R>(m: Machine<C, S, R>, sv: Server<C, S>): Server<C, S> {
    var nd := Boot(sv.node.n, sv.node.me, ToPersist(sv.node));
    Server(nd, {}, seq(nd.n, _ => Idle), None,
           Service(if nd.snapshot.Some? then nd.snapshot.value else m.init, nd.logOffset, false))
  }

  // ---------------------------------------------------------------- index safety

  /** Whenever the step is taken, every slice index it uses is in range; a step that is not safe is a Go panic. */
  predicate InBounds<C, S, R>(s: System<C, S, R>, a: Action<C, S>)
    requires a.i < |s.servers|
  {
    var sv := s.servers[a.i];
    match a
    case Timeout(_) => |sv.node.log| > 0
    case WinAlone(_) => |sv.node.log| > 0
    case Deliver(_, msg) =>
      && |sv.node.log| > 0
      && (msg.AppendRep? ==>
          msg.src < |sv.node.nextIndex| && msg.src < |sv.node.matchIndex| && sv.node.logOffset <= sv.node.commitIndex)
      && (msg.SnapRep? ==> msg.src < |sv.node.nextIndex| && msg.src < |sv.node.matchIndex|)
    case ClientStart(_, _) => sv.node.me < |sv.node.nextIndex| && sv.node.me < |sv.node.matchIndex|
    case WorkerSend(_, p) => sv.node.role == Leader ==> CanSend(sv, p)
    case WorkerTimeout(_, p) => true
    case Heartbeat(_) => sv.node.logOffset <= sv.node.commitIndex
    case Apply(_) => sv.node.pending.None? && sv.node.lastApplied < sv.node.commitIndex ==>
        sv.node.Holds(sv.node.lastApplied + 1)
    case Receive(_) => true
    case Compact(_) => true
    case Restart(_) => true
  }

  // ---------------------------------------------------------------- steps

  ghost predicate Enabled<C, S, R>(s: System<C, S, R>, a: Action<C, S>) {
    a.i < |s.servers| &&
    var sv := s.servers[a.i];
    match a
    case Timeout(_) => sv.node.role != Leader
    case WinAlone(_) => sv.node.role == Candidate && Enough(1, sv.node.n)
    case Deliver(_, msg) => msg in s.net && Addressed(sv, msg)
    case ClientStart(_, _) => true
    case WorkerSend(_, p) => p < |sv.workers| && p != sv.node.me && sv.node.role == Leader && sv.workers[p].Idle?
    case WorkerTimeout(_, p) => p < |sv.workers|
    case Heartbeat(_) => sv.node.role == Leader
    case Apply(_) => sv.outbox.None?
    case Receive(_) => sv.outbox.Some?
    case Compact(_) => sv.svc.mayCompact
    case Restart(_) => true
  }

  /** Requests go to their destination; a reply goes to the goroutine that is waiting for it. */
  ghost predicate Addressed<C, S>(sv: Server<C, S>, msg: Message<C, S>) {
    match msg
    case VoteReq(dst, _) => dst == sv.node.me
    case VoteRep(_, a, _) => a.candidate == sv.node.me
    case AppendReq(dst, _) => dst == sv.node.me
    case AppendRep(src, a, _) => src < |sv.workers| && sv.workers[src] == AwaitAppend(a)
    case SnapReq(dst, _) => dst == sv.node.me
    case SnapRep(src, a, _) => src < |sv.workers| && sv.workers[src] == AwaitSnap(a)
  }

  function Handle<C, S>(sv: Server<C, S>, msg: Message<C, S>): (Server<C, S>, seq<Message<C, S>>)
    requires |sv.node.log| > 0
    requires msg.AppendRep? ==>
               && msg.src < |sv.node.nextIndex| && msg.src < |sv.node.matchIndex| && msg.src < |sv.workers|
               && sv.node.logOffset <= sv.node.commitIndex
    requires msg.SnapRep? ==> msg.src < |sv.node.nextIndex| && msg.src < |sv.node.matchIndex| && msg.src < |sv.workers|
  {
    match msg
    case VoteReq(_, a) =>
      var (nd, r) := HandleVote(sv.node, a);
      (sv.(node := nd), [VoteRep(sv.node.me, a, r)])
    case VoteRep(p, a, r) =>
      var (nd, v) := OnVoteReply(sv.node, sv.votes, p, a.term, r);
      (sv.(node := nd, votes := v), [])
    case AppendReq(_, a) =>
      var (nd, r) := HandleAppend(sv.node, a);
      (sv.(node := nd), [AppendRep(sv.node.me, a, r)])
    case AppendRep(p, a, r) =>
      (sv.(node := OnAppendReply(sv.node, p, a, r), workers := sv.workers[p := Idle]), [])
    case SnapReq(_, a) =>
      var (nd, r) := HandleSnapshot(sv.node, a);
      (sv.(node := nd), [SnapRep(sv.node.me, a, r)])
    case SnapRep(p, a, r) =>
      (sv.(node := OnSnapReply(sv.node, p, a, r), workers := sv.workers[p := Idle]), [])
  }

  ghost function Perform<C, S, R>(m: Machine<C, S, R>, s: System<C, S, R>, a: Action<C, S>): System<C, S, R>
    requires Enabled(s, a) && InBounds(s, a)
  {
    var sv := s.servers[a.i];
    match a
    case Timeout(i) => Put(s, i, OnTimeout(sv), Campaign(sv.node.n, BeginElection(sv.node).1))
    case WinAlone(i) => Put(s, i, sv.(node := LeaderInit(sv.node)), [])
    case Deliver(i, msg) => var (sv', out) := Handle(sv, msg); Put(s, i, sv', out)
    case ClientStart(i, c) => Put(s, i, sv.(node := StartCommand(sv.node, c)), [])
    case WorkerSend(i, p) => var (sv', msg) := Send(sv, p); Put(s, i, sv', [msg])
    case WorkerTimeout(i, p) => Put(s, i, sv.(workers := sv.workers[p := Idle]), [])
    case Heartbeat(i) => Put(s, i, sv.(node := PushForward(sv.node)), [])
    case Apply(i) => var (nd, msg) := ApplierTurn(sv.node); Put(s, i, sv.(node := nd, outbox := msg), [])
    case Receive(i) => Put(s, i, Consume(m, sv), []).(answers := s.answers + AnswersOf(m, sv))
    case Compact(i) =>
      Put(s, i, sv.(node := TakeSnapshot(sv.node, sv.svc.index, Some(sv.svc.state)),
          svc := sv.svc.(mayCompact := false)), [])
    case Restart(i) => Put(s, i, Reboot(m, sv), [])
  }

  ghost function Put<C, S, R>(s: System<C, S, R>, i: nat, sv: Server<C, S>, out: seq<Message<C, S>>): System<C, S, R>
    requires i < |s.servers|
  {
    s.(servers := s.servers[i := sv], net := s.net + out)
  }

  ghost predicate Next<C(!new), S(!new), R>(m: Machine<C, S, R>, s: System<C, S, R>, s': System<C, S, R>) {
    exists a: Action<C, S> :: Enabled(s, a) && InBounds(s, a) && s' == Perform(m, s, a)
  }

  /** An execution from a fresh cluster. */
  ghost predicate IsRun<C(!new), S(!new), R>(m: Machine<C, S, R>, n: nat, run: seq<System<C, S, R>>) {
    && |run| > 0 && Init(m, n, run[0])
    && forall k :: 0 <= k < |run| - 1 ==> Next(m, run[k], run[k + 1])
  }
}
