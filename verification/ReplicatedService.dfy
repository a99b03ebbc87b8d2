/**
 The RSM layer: Submit gives every request an identity, hands it to Raft and waits on a channel the
 reader fills when the operation comes back through the apply stream.
 */
module ReplicatedService {
  import opened Common
  import opened TermLogs
  import opened HistorySteps
  import opened RaftNode
  import opened RaftSystem
  import opened RaftSafety
  import opened RaftTheorems
  import opened StartedCommands
  import opened StartedOnce
  import opened RaftGlue

  datatype OpId = OpId(server: nat, uniId: nat)

  datatype Op<Q> = Op(me: nat, id: nat, req: Q)

  function IdOf<Q>(op: Op<Q>): OpId {
    OpId(op.me, op.id)
  }

  /** The machine Raft replicates executes the request inside the operation. */
  function OnRequests<Q(!new), S, R>(dm: Machine<Q, S, R>): Machine<Op<Q>, S, R> {
    Machine(dm.init, (s, op: Op<Q>) => dm.step(s, op.req))
  }

  /** The channels submitters wait on, each holding at most one result. */
  type Channels<R> = map<OpId, Option<R>>

  function Answered<R>(ch: Channels<R>, id: OpId, r: R): Channels<R> {
    if id in ch && ch[id].None? then ch[id := Some(r)] else ch
  }

  // ---------------------------------------------------------------- one RSM, as it runs

  /** What ends or prolongs Submit's wait: the result, a look at the leadership, or the end of the apply stream. */
  datatype Wake = ResultReady | Timer(stillLeading: bool) | Stopped

  class RSM<Q(!new), S, R> {
    const me: nat
    const sm: Machine<Q, S, R>
    var state: S
    var uniId: nat
    var resultCh: Channels<R>
    ghost var issued: set<OpId>

    /** Identities are handed out in order; only issued ones have a channel. */
    ghost predicate Valid()
      reads this
    {
      resultCh.Keys <= issued && forall id :: id in issued ==> id.server == me && id.uniId < uniId
    }

    constructor (me: nat, sm: Machine<Q, S, R>, start: nat, saved: Option<S>)
      ensures Valid() && this.me == me && this.sm == sm && uniId == start && resultCh == map[] && issued == {}
      ensures state == match saved { case None => sm.init case Some(s) => s }
    {
      this.me, this.sm, uniId, resultCh, issued := me, sm, start, map[], {};
      state := match saved { case None => sm.init case Some(s) => s };
    }

    /**
     The first half of Submit: an operation for this request under an identity never issued before, with an
     empty channel of its own; no other channel is touched.
     */
    method Register(req: Q) returns (op: Op<Q>)
      requires Valid()
      modifies this`uniId, this`resultCh, this`issued
      ensures Valid() && op.req == req && op.me == me
      ensures IdOf(op) !in old(issued) && issued == old(issued) + {IdOf(op)}
      ensures IdOf(op) !in old(resultCh) && resultCh == old(resultCh)[IdOf(op) := None]
    {
      op := Op(me, uniId, req);
      uniId := uniId + 1;
      resultCh := resultCh[IdOf(op) := None];
      issued := issued + {IdOf(op)};
    }

    /**
     One turn of Submit's wait.  It ends with the result, or without one when the leadership or the apply stream
     is gone; whenever it ends the channel is removed, and while it lasts nothing changes.
     */
    method Await(op: Op<Q>, wake: Wake) returns (ended: bool, res: Option<R>)
      requires Valid() && IdOf(op) in resultCh && (wake == ResultReady ==> resultCh[IdOf(op)].Some?)
      modifies this`resultCh
      ensures Valid()
      ensures ended == (wake != Timer(true))
      ensures res == if wake == ResultReady then old(resultCh)[IdOf(op)] else None
      ensures resultCh == if ended then old(resultCh) - {IdOf(op)} else old(resultCh)
    {
      match wake {
        case ResultReady => ended, res := true, resultCh[IdOf(op)];
        case Timer(stillLeading) => ended, res := !stillLeading, None;
        case Stopped => ended, res := true, None;
      }
      if ended {
        resultCh := resultCh - {IdOf(op)};
      }
    }

    /** One message of the apply stream: execute and answer, or adopt a snapshot. */
    method Read(msg: ApplyMsg<Op<Q>, S>) returns (executed: Option<R>)
      requires Valid()
      modifies this`state, this`resultCh
      ensures Valid()
      ensures match msg
              case Command(_, Some(op)) =>
                && executed.Some? && (state, executed.value) == sm.step(old(state), op.req)
                && resultCh.Keys == old(resultCh).Keys
                && (forall id :: id in resultCh && id != IdOf(op) ==> resultCh[id] == old(resultCh)[id])
                && (IdOf(op) in resultCh ==>
                      resultCh[IdOf(op)] == if old(resultCh)[IdOf(op)].None? then executed else old(resultCh)[IdOf(op)])
              case Command(_, None) => state == old(state) && executed == None && resultCh == old(resultCh)
              case Restore(_, _, d) =>
                state == (if d.Some? then d.value else old(state)) && executed == None && resultCh == old(resultCh)
    {
      executed := None;
      match msg
      case Command(_, Some(op)) =>
        var (s, r) := sm.step(state, op.req);
        state := s;
        executed := Some(r);
        if IdOf(op) in resultCh && resultCh[IdOf(op)].None? {
          resultCh := resultCh[IdOf(op) := Some(r)];
        }
      case Command(_, None) =>
      case Restore(_, _, d) =>
        if d.Some? {
          state := d.value;
        }
    }
  }

  // ---------------------------------------------------------------- the whole service

  /** A Submit that returned OK with `result`. */
  datatype Completed<Q, R> = Completed(op: Op<Q>, result: R)

  /** `frames[i]` are the Submits in progress on server `i`; `issued` records every identity ever handed out. */
  datatype Cluster<Q, S, R> = Cluster(
    raft: System<Op<Q>, S, R>,
    chans: seq<Channels<R>>,
    frames: seq<map<OpId, Op<Q>>>,
    issued: map<OpId, Op<Q>>,
    completed: seq<Completed<Q, R>>)

  datatype Event<Q, S> =
    | SubmitBegin(i: nat, id: nat, req: Q)
    | SubmitOk(i: nat, oid: OpId)
    | SubmitFail(i: nat, oid: OpId)
    | RaftEvent(a: Action<Op<Q>, S>)

  ghost predicate InitCluster<Q(!new), S, R>(dm: Machine<Q, S, R>, n: nat, c: Cluster<Q, S, R>) {
    && Init(OnRequests(dm), n, c.raft) && |c.chans| == n && |c.frames| == n
    && (forall i :: 0 <= i < n ==> c.chans[i] == map[] && c.frames[i] == map[])
    && c.issued == map[] && c.completed == []
  }

  /** An identity is never handed out twice: the random start of the counter makes reuse after a restart negligible. */
  ghost predicate Allowed<Q(!new), S, R>(c: Cluster<Q, S, R>, e: Event<Q, S>) {
    match e
    case SubmitBegin(i, id, req) =>
      && i < |c.raft.servers| && i < |c.chans| && i < |c.frames| && OpId(i, id) !in c.issued
      && InBounds(c.raft, ClientStart(i, Op(i, id, req)))
    case SubmitOk(i, oid) =>
      && i < |c.chans| && i < |c.frames| && oid in c.frames[i] && oid in c.chans[i]
      && c.chans[i][oid].Some?
    case SubmitFail(i, oid) => i < |c.chans| && i < |c.frames|
    case RaftEvent(a) =>
      && !a.ClientStart? && Enabled(c.raft, a) && InBounds(c.raft, a) && a.i < |c.chans|
      && a.i < |c.frames|
  }

  /** What the reader of server `a.i` does to the channels in this step. */
  ghost function ChannelsAfter<Q(!new), S, R>(dm: Machine<Q, S, R>, sv: Server<Op<Q>, S>, ch: Channels<R>,
                                              a: Action<Op<Q>, S>): Channels<R> {
    if a.Restart? then map[]
    else if a.Receive? && sv.outbox.Some? && sv.outbox.value.Command? && sv.outbox.value.cmd.Some? then
      var op := sv.outbox.value.cmd.value;
      Answered(ch, IdOf(op), dm.step(sv.svc.state, op.req).1)
    else ch
  }

  ghost function Occur<Q(!new), S, R>(dm: Machine<Q, S, R>, c: Cluster<Q, S, R>, e: Event<Q, S>): Cluster<Q, S, R>
    requires Allowed(c, e)
  {
    match e
    case SubmitBegin(i, id, req) =>
      var op := Op(i, id, req);
      c.(raft := Perform(OnRequests(dm), c.raft, ClientStart(i, op)),
      chans := c.chans[i := c.chans[i][IdOf(op) := None]],
      frames := c.frames[i := c.frames[i][IdOf(op) := op]],
      issued := c.issued[IdOf(op) := op])
    case SubmitOk(i, oid) =>
      c.(chans := c.chans[i := c.chans[i] - {oid}],
      frames := c.frames[i := c.frames[i] - {oid}],
      completed := c.completed + [Completed(c.frames[i][oid], c.chans[i][oid].value)])
    case SubmitFail(i, oid) =>
      c.(chans := c.chans[i := c.chans[i] - {oid}], frames := c.frames[i := c.frames[i] - {oid}])
    case RaftEvent(a) =>
      c.(raft := Perform(OnRequests(dm), c.raft, a),
      chans := c.chans[a.i := ChannelsAfter(dm, c.raft.servers[a.i], c.chans[a.i], a)],
      frames := c.frames[a.i := if a.Restart? then map[] else c.frames[a.i]])
  }

  ghost predicate Happens<Q(!new), S(!new), R>(dm: Machine<Q, S, R>, c: Cluster<Q, S, R>, c': Cluster<Q, S, R>) {
    exists e: Event<Q, S> :: Allowed(c, e) && c' == Occur(dm, c, e)
  }

  ghost predicate IsService<Q(!new), S(!new), R>(dm: Machine<Q, S, R>, n: nat, run: seq<Cluster<Q, S, R>>) {
    && |run| > 0 && InitCluster(dm, n, run[0])
    && forall k :: 0 <= k < |run| - 1 ==> Happens(dm, run[k], run[k + 1])
  }

  // ---------------------------------------------------------------- answers reach the right submitter

  ghost function Issued<Q(!new)>(issued: map<OpId, Op<Q>>): iset<Op<Q>> {
    iset op | IdOf(op) in issued && issued[IdOf(op)] == op
  }

  /** Some server executed `op` and computed `r`. */
  ghost predicate Executed<Q(!new), S, R>(s: System<Op<Q>, S, R>, op: Op<Q>, r: R) {
    exists k: nat :: k < |s.answers| && s.answers[k].cmd == op && s.answers[k].result == r
  }

  ghost predicate FrameOk<Q(!new), S, R>(c: Cluster<Q, S, R>, i: nat, oid: OpId)
    requires i < |c.frames|
  {
    oid in c.frames[i] ==> oid in c.issued && c.issued[oid] == c.frames[i][oid]
  }

  ghost predicate ChannelOk<Q(!new), S, R>(c: Cluster<Q, S, R>, i: nat, oid: OpId)
    requires i < |c.chans|
  {
    oid in c.chans[i] && c.chans[i][oid].Some? ==>
        oid in c.issued && Executed(c.raft, c.issued[oid], c.chans[i][oid].value)
  }

  /** A Submit in progress has a channel, and every channel a Submit. */
  ghost predicate Paired<Q(!new), S, R>(c: Cluster<Q, S, R>, i: nat)
    requires i < |c.chans| && i < |c.frames|
  {
    c.chans[i].Keys == c.frames[i].Keys
  }

  ghost predicate Consistent<Q(!new), S, R>(c: Cluster<Q, S, R>) {
    && |c.chans| == |c.frames| == |c.raft.servers|
    && (forall i: nat :: i < |c.frames| ==> Paired(c, i))
    && Within(Issued(c.issued), c.raft)
    && (forall i: nat, oid :: i < |c.frames| ==> FrameOk(c, i, oid))
    && (forall i: nat, oid :: i < |c.chans| ==> ChannelOk(c, i, oid))
    && (forall x :: x in c.completed ==> Executed(c.raft, x.op, x.result))
  }

  lemma ExecutedStays<Q(!new), S, R>(s: System<Op<Q>, S, R>, s': System<Op<Q>, S, R>, op: Op<Q>, r: R)
    requires s.answers <= s'.answers && Executed(s, op, r)
    ensures Executed(s', op, r)
  {
    var k: nat :| k < |s.answers| && s.answers[k].cmd == op && s.answers[k].result == r;
    assert s'.answers[k] == s.answers[k];
  }

  lemma WithinGrows<Q(!new), S, R>(x: iset<Op<Q>>, y: iset<Op<Q>>, s: System<Op<Q>, S, R>)
    requires Within(x, s) && x <= y
    ensures Within(y, s)
  {
    forall i | 0 <= i < |s.servers| ensures ServerWithin(y, s.servers[i]) {
      var sv := s.servers[i];
      assert ServerWithin(x, sv);
      forall k: nat | k < |sv.node.log| ensures EntryWithin(y, sv.node.log[k]) {
        assert EntryWithin(x, sv.node.log[k]);
      }
    }
    forall msg | msg in s.net ensures MessageWithin(y, msg) {
      assert MessageWithin(x, msg);
      if msg.AppendReq? {
        forall k: nat | k < |msg.aa.entries| ensures EntryWithin(y, msg.aa.entries[k]) {
          assert EntryWithin(x, msg.aa.entries[k]);
        }
      }
    }
  }

  lemma PairedKept<Q(!new), S, R>(dm: Machine<Q, S, R>, c: Cluster<Q, S, R>, e: Event<Q, S>, i: nat)
    requires Consistent(c) && Allowed(c, e) && i < |c.frames|
    ensures Paired(Occur(dm, c, e), i)
  {
    assert Paired(c, i);
  }

  lemma SubmitBeginConsistent<Q(!new), S, R>(dm: Machine<Q, S, R>, c: Cluster<Q, S, R>, e: Event<Q, S>)
    requires Consistent(c) && Allowed(c, e) && e.SubmitBegin?
    ensures Consistent(Occur(dm, c, e))
  {
    var op := Op(e.i, e.id, e.req);
    var c' := Occur(dm, c, e);
    forall i: nat | i < |c'.frames| ensures Paired(c', i) { PairedKept(dm, c, e, i); }
    assert Issued(c.issued) <= Issued(c'.issued);
    WithinGrows(Issued(c.issued), Issued(c'.issued), c.raft);
    StepWithin(OnRequests(dm), Issued(c'.issued), c.raft, ClientStart(e.i, op));
    assert c'.raft.answers == c.raft.answers;
    forall i: nat, oid | i < |c'.frames| ensures FrameOk(c', i, oid) { assert FrameOk(c, i, oid); }
    forall i: nat, oid | i < |c'.chans| ensures ChannelOk(c', i, oid) {
      assert ChannelOk(c, i, oid);
      if oid in c'.chans[i] && c'.chans[i][oid].Some? {
        ExecutedStays(c.raft, c'.raft, c.issued[oid], c.chans[i][oid].value);
      }
    }
    forall x | x in c'.completed ensures Executed(c'.raft, x.op, x.result) {
      ExecutedStays(c.raft, c'.raft, x.op, x.result);
    }
  }

  lemma SubmitEndConsistent<Q(!new), S, R>(dm: Machine<Q, S, R>, c: Cluster<Q, S, R>, e: Event<Q, S>)
    requires Consistent(c) && Allowed(c, e) && (e.SubmitOk? || e.SubmitFail?)
    ensures Consistent(Occur(dm, c, e))
  {
    var c' := Occur(dm, c, e);
    forall i: nat | i < |c'.frames| ensures Paired(c', i) { PairedKept(dm, c, e, i); }
    assert FrameOk(c, e.i, e.oid) && ChannelOk(c, e.i, e.oid);
    forall i: nat, oid | i < |c'.frames| ensures FrameOk(c', i, oid) { assert FrameOk(c, i, oid); }
    forall i: nat, oid | i < |c'.chans| ensures ChannelOk(c', i, oid) { assert ChannelOk(c, i, oid); }
  }

  /** The reader answers a channel with the result of the very operation the channel was made for. */
  lemma ReaderChannelOk<Q(!new), S, R>(dm: Machine<Q, S, R>, c: Cluster<Q, S, R>, a: Action<Op<Q>, S>, oid: OpId)
    requires Consistent(c) && Allowed(c, RaftEvent(a))
    ensures ChannelOk(Occur(dm, c, RaftEvent(a)), a.i, oid)
  {
    var c' := Occur(dm, c, RaftEvent(a));
    var i := a.i;
    assert ChannelOk(c, i, oid);
    assert c.raft.answers <= c'.raft.answers;
    if oid in c'.chans[i] && c'.chans[i][oid].Some? {
      if oid in c.chans[i] && c.chans[i][oid] == c'.chans[i][oid] {
        ExecutedStays(c.raft, c'.raft, c.issued[oid], c.chans[i][oid].value);
      } else {
        var sv := c.raft.servers[i];
        var op := sv.outbox.value.cmd.value;
        assert ServerWithin(Issued(c.issued), sv);
        assert c.issued[oid] == op;
        var k := |c.raft.answers|;
        assert c'.raft.answers[k].cmd == op && c'.raft.answers[k].result == c'.chans[i][oid].value;
      }
    }
  }

  lemma RaftEventConsistent<Q(!new), S, R>(dm: Machine<Q, S, R>, c: Cluster<Q, S, R>, e: Event<Q, S>)
    requires Consistent(c) && Allowed(c, e) && e.RaftEvent?
    ensures Consistent(Occur(dm, c, e))
  {
    var c' := Occur(dm, c, e);
    forall i: nat | i < |c'.frames| ensures Paired(c', i) { PairedKept(dm, c, e, i); }
    StepWithin(OnRequests(dm), Issued(c.issued), c.raft, e.a);
    assert c.raft.answers <= c'.raft.answers;
    forall i: nat, oid | i < |c'.frames| ensures FrameOk(c', i, oid) { assert FrameOk(c, i, oid); }
    forall i: nat, oid | i < |c'.chans| ensures ChannelOk(c', i, oid) {
      if i == e.a.i {
        ReaderChannelOk(dm, c, e.a, oid);
      } else {
        assert ChannelOk(c, i, oid);
        if oid in c.chans[i] && c.chans[i][oid].Some? {
          ExecutedStays(c.raft, c'.raft, c.issued[oid], c.chans[i][oid].value);
        }
      }
    }
    forall x | x in c'.completed ensures Executed(c'.raft, x.op, x.result) {
      ExecutedStays(c.raft, c'.raft, x.op, x.result);
    }
  }

  lemma InitConsistent<Q(!new), S, R>(dm: Machine<Q, S, R>, n: nat, c: Cluster<Q, S, R>)
    requires InitCluster(dm, n, c)
    ensures Consistent(c)
  {
    forall i | 0 <= i < n ensures ServerWithin(Issued(c.issued), c.raft.servers[i]) {
      assert c.raft.servers[i] == Fresh0(OnRequests(dm), n, i);
    }
  }

  /** Every run of the service is consistent throughout and contains a run of its Raft cluster. */
  lemma {:induction false} ServiceRun<Q(!new), S(!new), R>(dm: Machine<Q, S, R>, n: nat, run: seq<Cluster<Q, S, R>>)
    returns (raft: seq<System<Op<Q>, S, R>>)
    requires IsService(dm, n, run)
    ensures Consistent(run[|run| - 1])
    ensures IsRun(OnRequests(dm), n, raft) && raft[|raft| - 1] == run[|run| - 1].raft
    decreases |run|
  {
    var last := |run| - 1;
    if last == 0 {
      InitConsistent(dm, n, run[0]);
      raft := [run[0].raft];
    } else {
      raft := ServiceRun(dm, n, run[..last]);
      var c, c' := run[last - 1], run[last];
      assert Happens(dm, c, c');
      var e: Event<Q, S> :| Allowed(c, e) && c' == Occur(dm, c, e);
      raft := EventRun(dm, n, raft, c, e);
    }
  }

  lemma EventRun<Q(!new), S(!new), R>(dm: Machine<Q, S, R>, n: nat, raft: seq<System<Op<Q>, S, R>>,
                                      c: Cluster<Q, S, R>, e: Event<Q, S>)
    returns (raft': seq<System<Op<Q>, S, R>>)
    requires IsRun(OnRequests(dm), n, raft) && raft[|raft| - 1] == c.raft && Consistent(c) && Allowed(c, e)
    ensures Consistent(Occur(dm, c, e))
    ensures IsRun(OnRequests(dm), n, raft') && raft'[|raft'| - 1] == Occur(dm, c, e).raft
  {
    var m := OnRequests(dm);
    match e
    case SubmitBegin(i, id, req) =>
      SubmitBeginConsistent(dm, c, e);
      var a := ClientStart(i, Op(i, id, req));
      assert Next(m, c.raft, Perform(m, c.raft, a));
      raft' := raft + [Perform(m, c.raft, a)];
    case RaftEvent(a) =>
      RaftEventConsistent(dm, c, e);
      assert Next(m, c.raft, Perform(m, c.raft, a));
      raft' := raft + [Perform(m, c.raft, a)];
    case _ =>
      SubmitEndConsistent(dm, c, e);
      raft' := raft;
  }

  /** `op` is the list's operation at index `x`, and `r` is what executing it there returns. */
  ghost predicate ResultAt<Q(!new), S, R>(dm: Machine<Q, S, R>, ops: seq<Op<Q>>, x: nat, op: Op<Q>, r: R) {
    0 < x <= |ops| && ops[x - 1] == op && r == dm.step(Fold(OnRequests(dm), ops[..x - 1]), op.req).1
  }

  ghost predicate HasResult<Q(!new), S, R>(dm: Machine<Q, S, R>, ops: seq<Op<Q>>, c: Completed<Q, R>) {
    exists x: nat :: ResultAt(dm, ops, x, c.op, c.result)
  }

  /** `h` is a history of the cluster in which each issued operation was started at most once. */
  ghost predicate Recorded<Q(!new), S, R>(dm: Machine<Q, S, R>, h: History<Op<Q>>, c: Cluster<Q, S, R>) {
    Consistent(c) && Glued(OnRequests(dm), h, c.raft) && AllOnce(Issued(c.issued), h)
  }

  ghost predicate RecordedUntil<Q(!new), S, R>(dm: Machine<Q, S, R>, h: History<Op<Q>>, c: Cluster<Q, S, R>,
                                               last: History<Op<Q>>) {
    Recorded(dm, h, c) && Continues(h, last)
  }

  /** Every run of the service is recorded at every moment, the last record continuing all the others. */
  lemma {:induction false} ServiceHistories<Q(!new), S(!new), R>(dm: Machine<Q, S, R>, n: nat,
      run: seq<Cluster<Q, S, R>>, j: nat)
    returns (hs: seq<History<Op<Q>>>)
    requires IsService(dm, n, run) && j < |run|
    ensures |hs| == j + 1 && forall k: nat :: k <= j ==> RecordedUntil(dm, hs[k], run[k], hs[j])
    decreases j
  {
    if j == 0 {
      var h := FirstRecord(dm, n, run[0]);
      hs := [h];
    } else {
      hs := ServiceHistories(dm, n, run, j - 1);
      assert Happens(dm, run[j - 1], run[j]) && RecordedUntil(dm, hs[j - 1], run[j - 1], hs[j - 1]);
      var h := NextHistoryOf(dm, hs[j - 1], run[j - 1], run[j]);
      RecordGrows(dm, run, hs, j, h);
      hs := hs + [h];
    }
  }

  lemma RecordGrows<Q(!new), S, R>(dm: Machine<Q, S, R>, run: seq<Cluster<Q, S, R>>, hs: seq<History<Op<Q>>>, j: nat,
                                   h: History<Op<Q>>)
    requires 0 < j < |run| && |hs| == j && RecordedUntil(dm, h, run[j], h) && Continues(hs[j - 1], h)
    requires forall k: nat :: k < j ==> RecordedUntil(dm, hs[k], run[k], hs[j - 1])
    ensures forall k: nat :: k <= j ==> RecordedUntil(dm, (hs + [h])[k], run[k], h)
  {
    forall k: nat | k < j ensures RecordedUntil(dm, hs[k], run[k], h) { StillRecorded(dm, hs[k], run[k], hs[j - 1], h); }
  }

  lemma NextHistoryOf<Q(!new), S(!new), R>(dm: Machine<Q, S, R>, h: History<Op<Q>>, c: Cluster<Q, S, R>,
                                           c': Cluster<Q, S, R>)
    returns (k: History<Op<Q>>)
    requires Recorded(dm, h, c) && Happens(dm, c, c')
    ensures RecordedUntil(dm, k, c', k) && Continues(h, k)
  {
    var e: Event<Q, S> :| Allowed(c, e) && c' == Occur(dm, c, e);
    k := EventHistory(dm, h, c, e);
    OthersSame(k, 0);
  }

  lemma StillRecorded<Q(!new), S, R>(dm: Machine<Q, S, R>, h: History<Op<Q>>, c: Cluster<Q, S, R>,
                                     last: History<Op<Q>>, k: History<Op<Q>>)
    requires RecordedUntil(dm, h, c, last) && Continues(last, k)
    ensures RecordedUntil(dm, h, c, k)
  {
    ContinuesTrans(h, last, k);
  }

  lemma FirstRecord<Q(!new), S, R>(dm: Machine<Q, S, R>, n: nat, c: Cluster<Q, S, R>) returns (h: History<Op<Q>>)
    requires InitCluster(dm, n, c)
    ensures Recorded(dm, h, c) && Continues(h, h)
  {
    InitConsistent(dm, n, c);
    InitGlued(OnRequests(dm), n, c.raft);
    h := Initial<Op<Q>>(n);
    InitialOnce<Op<Q>>(n);
    OnceGrows(iset{}, Issued(c.issued), h);
    OthersSame(h, 0);
  }

  lemma EventHistory<Q(!new), S, R>(dm: Machine<Q, S, R>, h: History<Op<Q>>, c: Cluster<Q, S, R>, e: Event<Q, S>)
    returns (k: History<Op<Q>>)
    requires Recorded(dm, h, c) && Allowed(c, e)
    ensures Recorded(dm, k, Occur(dm, c, e)) && Continues(h, k)
  {
    var x, y := Issued(c.issued), Issued(Occur(dm, c, e).issued);
    match e
    case SubmitBegin(i, id, req) =>
      SubmitBeginConsistent(dm, c, e);
      var a := ClientStart(i, Op(i, id, req));
      k := NextGlued(OnRequests(dm), h, c.raft, a);
      assert x <= y && a.cmd in y && a.cmd !in x;
      OnceKept(x, y, h, k, a);
    case RaftEvent(a) =>
      RaftEventConsistent(dm, c, e);
      k := NextGlued(OnRequests(dm), h, c.raft, a);
      OnceKept(x, y, h, k, a);
    case _ =>
      SubmitEndConsistent(dm, c, e);
      k := h;
      OthersSame(h, 0);
  }

  /** An operation some server has executed by the time of record `h` is in the part of `g` that was committed then. */
  lemma ExecutedEarly<Q(!new), S, R>(dm: Machine<Q, S, R>, h: History<Op<Q>>, c: Cluster<Q, S, R>, h': History<Op<Q>>,
                                     g: Log<Op<Q>>, op: Op<Q>, r: R) returns (p: Log<Op<Q>>, x: nat)
    requires Recorded(dm, h, c) && Continues(h, h') && Covers(h', g) && Executed(c.raft, op, r)
    ensures 0 < x < |p| && p <= g && p[x].cmd == Some(op) && Grounded(h, p)
  {
    var k: nat :| k < |c.raft.answers| && c.raft.answers[k].cmd == op && c.raft.answers[k].result == r;
    var a := c.raft.answers[k];
    assert AnswerGlue(OnRequests(dm), h, a);
    var t: nat, i: nat :| Explains(OnRequests(dm), h, t, i, a);
    p, x := Through(h, t, i), a.index;
    PrefixOfReign(h, t, p);
    assert CommittedBy(h, p, t);
    CommittedStays(h, h', p, t, t);
  }

  /** What was committed by the time of record `h` was issued by then. */
  lemma CommittedWasIssued<Q(!new)>(x: iset<Op<Q>>, h: History<Op<Q>>, p: Log<Op<Q>>, i: nat)
    requires Sound(h) && AllOnce(x, h) && Grounded(h, p) && 0 < i < |p|
    ensures p[i].cmd.Some? && p[i].cmd.value in x
  {
    OwnPlace(h, p, i);
    assert StartedIn(x, h, p[i].term, i);
  }

  /** Index of an operation in the list. */
  ghost predicate At<Q>(ops: seq<Op<Q>>, op: Op<Q>, x: nat) {
    x < |ops| && ops[x] == op
  }

  /** The operation `op1` had been executed by the time of record `h`; `op2` was not yet issued then. */
  lemma EarlierFirst<Q(!new), S, R>(dm: Machine<Q, S, R>, h: History<Op<Q>>, c: Cluster<Q, S, R>, h': History<Op<Q>>,
                                    g: Log<Op<Q>>, op1: Op<Q>, r: R, op2: Op<Q>, x: nat, y: nat)
    requires Recorded(dm, h, c) && Continues(h, h') && Covers(h', g) && AllCommands(g) && Rooted(g)
        && NoRepeats(Commands(g))
    requires Executed(c.raft, op1, r) && IdOf(op2) !in c.issued
    requires At(Commands(g), op1, x) && At(Commands(g), op2, y)
    ensures x < y
  {
    var p, i := ExecutedEarly(dm, h, c, h', g, op1, r);
    CommandsAt(g, i);
    CommandsAt(g, y + 1);
    assert g[i] == p[i] && Commands(g)[i - 1] == op1 && x == i - 1;
    if y < i {
      assert g[y + 1] == p[y + 1];
      CommittedWasIssued(Issued(c.issued), h, p, y + 1);
    }
  }

  /** A Submit that returned OK by moment `k` precedes one whose identity was issued only later. */
  ghost predicate InOrder<Q(!new), S, R>(ops: seq<Op<Q>>, c: Cluster<Q, S, R>) {
    forall d, op2: Op<Q>, x: nat, y: nat ::
      d in c.completed && IdOf(op2) !in c.issued && At(ops, d.op, x) && At(ops, op2, y) ==> x < y
  }

  /**
   The service is linearizable.  For every run there is one list of committed operations, none of them twice,
   that explains all replicas, such that every Submit that returned OK, on any server and through any crashes
   and snapshots, returned the result of executing its own operation at its one position in the list, after
   everything before it; and an operation whose Submit had returned OK at any moment `k` comes before every
   operation whose Submit began after that moment.
   */
  lemma SubmitIsLinearizable<Q(!new), S(!new), R>(dm: Machine<Q, S, R>, n: nat, run: seq<Cluster<Q, S, R>>)
    returns (ops: seq<Op<Q>>)
    requires IsService(dm, n, run)
    ensures NoRepeats(ops) && StateExplained(OnRequests(dm), ops, run[|run| - 1].raft)
    ensures forall c :: c in run[|run| - 1].completed ==> HasResult(dm, ops, c)
    ensures forall k: nat :: k < |run| ==> InOrder(ops, run[k])
  {
    var last := |run| - 1;
    var hs := ServiceHistories(dm, n, run, last);
    assert RecordedUntil(dm, hs[last], run[last], hs[last]);
    var g, _ := OneCommittedLog(hs[last]);
    ops := Commands(g);
    CommittedOnce(Issued(run[last].issued), hs[last], g);
    OwnResults(dm, hs[last], run[last], g);
    forall k: nat | k < |run| ensures InOrder(ops, run[k]) {
      assert RecordedUntil(dm, hs[k], run[k], hs[last]);
      OrderedAt(dm, hs[k], run[k], hs[last], g);
    }
  }

  lemma OwnResults<Q(!new), S, R>(dm: Machine<Q, S, R>, h: History<Op<Q>>, c: Cluster<Q, S, R>, g: Log<Op<Q>>)
    requires RecordedUntil(dm, h, c, h) && Covers(h, g) && AllCommands(g)
    ensures StateExplained(OnRequests(dm), Commands(g), c.raft)
    ensures forall d :: d in c.completed ==> HasResult(dm, Commands(g), d)
  {
    TracedExplained(OnRequests(dm), h, c.raft, h, g);
    forall d | d in c.completed ensures HasResult(dm, Commands(g), d) {
      assert Executed(c.raft, d.op, d.result);
      var k: nat :| k < |c.raft.answers| && c.raft.answers[k].cmd == d.op && c.raft.answers[k].result == d.result;
      assert AnswerExplained(OnRequests(dm), Commands(g), c.raft.answers[k]);
      assert ResultAt(dm, Commands(g), c.raft.answers[k].index, d.op, d.result);
    }
  }

  lemma OrderedAt<Q(!new), S, R>(dm: Machine<Q, S, R>, h: History<Op<Q>>, c: Cluster<Q, S, R>, h': History<Op<Q>>,
                                 g: Log<Op<Q>>)
    requires RecordedUntil(dm, h, c, h') && Covers(h', g) && AllCommands(g) && Rooted(g) && NoRepeats(Commands(g))
    ensures InOrder(Commands(g), c)
  {
    forall d, op2: Op<Q>, x: nat, y: nat
      | d in c.completed && IdOf(op2) !in c.issued && At(Commands(g), d.op, x) && At(Commands(g), op2, y)
      ensures x < y
    {
      EarlierFirst(dm, h, c, h', g, d.op, d.result, op2, x, y);
    }
  }

  // ---------------------------------------------------------------- results reach their submitters

  lemma OneMoreEvent<Q(!new), S(!new), R>(dm: Machine<Q, S, R>, n: nat, run: seq<Cluster<Q, S, R>>, e: Event<Q, S>)
    returns (run': seq<Cluster<Q, S, R>>)
    requires IsService(dm, n, run) && Allowed(run[|run| - 1], e)
    ensures run' == run + [Occur(dm, run[|run| - 1], e)] && IsService(dm, n, run')
  {
    run' := run + [Occur(dm, run[|run| - 1], e)];
    assert Happens(dm, run[|run| - 1], run'[|run|]);
    forall k | 0 <= k < |run'| - 1 ensures Happens(dm, run'[k], run'[k + 1]) {
      if k < |run| - 1 { assert Happens(dm, run[k], run[k + 1]); }
    }
  }

  /** The operation with this identity is the next command server `i`'s reader will take, and its Submit waits there. */
  ghost predicate WaitedFor<Q(!new), S, R>(c: Cluster<Q, S, R>, i: nat, x: nat, op: Op<Q>) {
    && i < |c.raft.servers| && i < |c.chans| && i < |c.frames|
    && c.raft.servers[i].outbox == Some(Command(x, Some(op))) && IdOf(op) in c.frames[i]
  }

  /** Once the reader has taken the operation, its Submit may return OK. */
  lemma ReaderAnswers<Q(!new), S, R>(dm: Machine<Q, S, R>, c: Cluster<Q, S, R>, i: nat, x: nat, op: Op<Q>)
    requires Consistent(c) && WaitedFor(c, i, x, op)
    ensures Allowed(c, RaftEvent(Receive(i)))
    ensures var d := Occur(dm, c, RaftEvent(Receive(i)));
      && Allowed(d, SubmitOk(i, IdOf(op))) && d.frames[i][IdOf(op)] == op
      && exists k: nat :: k < |d.raft.answers| && d.raft.answers[k].index == x && d.raft.answers[k].cmd == op
  {
    var d := Occur(dm, c, RaftEvent(Receive(i)));
    assert Paired(c, i) && ServerWithin(Issued(c.issued), c.raft.servers[i]) && FrameOk(c, i, IdOf(op));
    var k := |c.raft.answers|;
    assert d.raft.answers[k].index == x && d.raft.answers[k].cmd == op;
  }

  /**
   A result reaches its submitter: whenever a server's reader is about to take an operation whose Submit still waits
   there, the reader takes it and that Submit can return OK, with the result of the operation at its very index in the
   one list that explains the run.
   */
  lemma WaitingSubmitCompletes<Q(!new), S(!new), R>(dm: Machine<Q, S, R>, n: nat, run: seq<Cluster<Q, S, R>>, i: nat,
                                                    x: nat, op: Op<Q>)
    returns (run': seq<Cluster<Q, S, R>>, r: R, ops: seq<Op<Q>>)
    requires IsService(dm, n, run) && WaitedFor(run[|run| - 1], i, x, op)
    ensures IsService(dm, n, run') && |run'| == |run| + 2 && run <= run'
    ensures run'[|run|] == Occur(dm, run[|run| - 1], RaftEvent(Receive(i)))
    ensures run'[|run| + 1].completed == run[|run| - 1].completed + [Completed(op, r)]
    ensures NoRepeats(ops) && StateExplained(OnRequests(dm), ops, run'[|run| + 1].raft) && ResultAt(dm, ops, x, op, r)
  {
    var _ := ServiceRun(dm, n, run);
    var c := run[|run| - 1];
    ReaderAnswers(dm, c, i, x, op);
    run' := OneMoreEvent(dm, n, run, RaftEvent(Receive(i)));
    var d := run'[|run|];
    r := d.chans[i][IdOf(op)].value;
    run' := OneMoreEvent(dm, n, run', SubmitOk(i, IdOf(op)));
    ops := SubmitIsLinearizable(dm, n, run');
    AtItsIndex(dm, run'[|run| + 1], ops, x, op, r);
  }

  /** Its position in the list is the index the reader took it from. */
  lemma AtItsIndex<Q(!new), S, R>(dm: Machine<Q, S, R>, c: Cluster<Q, S, R>, ops: seq<Op<Q>>, x: nat, op: Op<Q>, r: R)
    requires NoRepeats(ops) && StateExplained(OnRequests(dm), ops, c.raft) && HasResult(dm, ops, Completed(op, r))
    requires exists k: nat :: k < |c.raft.answers| && c.raft.answers[k].index == x && c.raft.answers[k].cmd == op
    ensures ResultAt(dm, ops, x, op, r)
  {
    var k: nat :| k < |c.raft.answers| && c.raft.answers[k].index == x && c.raft.answers[k].cmd == op;
    assert AnswerExplained(OnRequests(dm), ops, c.raft.answers[k]);
    var y: nat :| ResultAt(dm, ops, y, op, r);
  }
}
