/**
 The sharded service with any number of controllers.  A shard group and the configuration store are
 each one atomic object; a request to either may be executed late and repeatedly, a reply may be
 lost, and a controller may stall anywhere, be overtaken, or never come back.
 */
module ShardMigration {
  import opened Common
  import opened VersionedStore
  import opened ShardGroup

  datatype Config = Config(num: nat, shards: seq<nat>, groups: map<nat, seq<string>>)

  // ---------------------------------------------------------------- the configuration store

  /** One key of the configuration store; version 0 means the key does not exist. */
  datatype Register = Register(value: Option<Config>, version: nat)

  datatype Which = Current | Next

  /** A write request; the ticket tells one call's request from another's. */
  datatype Cas = Cas(which: Which, value: Config, version: nat, ticket: nat)

  function TryPut(r: Register, value: Config, version: nat): (Register, bool) {
    if version == r.version then (Register(Some(value), version + 1), true) else (r, false)
  }

  // ---------------------------------------------------------------- controllers

  datatype Move = Move(shard: nat, src: nat, dst: nat)

  /** The shards whose owner changes, in shard order. */
  function Moves(prev: Config, target: Config, s: nat): seq<Move>
    requires s <= |prev.shards| && s <= |target.shards|
    decreases s
  {
    if s == 0 then []
    else Moves(prev, target, s - 1) +
         if prev.shards[s - 1] == target.shards[s - 1] then []
             else [Move(s - 1, prev.shards[s - 1], target.shards[s - 1])]
  }

  /** A change from `prev`, read at `version` of the current key, to `target`. */
  datatype Job = Job(prev: Config, target: Config, version: nat)

  function MovesOf(j: Job): seq<Move> {
    if |j.prev.shards| == |j.target.shards| then Moves(j.prev, j.target, |j.prev.shards|) else []
  }

  /** The loop that lists the moves. */
  method ListMoves(prev: Config, target: Config) returns (moves: seq<Move>)
    requires |prev.shards| == |target.shards| == NSHARDS
    ensures moves == MovesOf(Job(prev, target, 0))
  {
    moves := [];
    for i := 0 to NSHARDS
      invariant moves == Moves(prev, target, i)
    {
      var from, to := prev.shards[i], target.shards[i];
      if from != to {
        moves := moves + [Move(i, from, to)];
      }
    }
  }

  /** Where a controller is, with its local variables. */
  datatype Ctrl =
    | Idle
    | InitCurrent(cfg: Config, ticket: nat)
    | InitNext(cfg: Config, ticket: nat)
    | ReadNext(goal: Option<Config>, prev: Config, version: nat)
    | PutNext(job: Job, nextVersion: nat, ticket: nat)
    | ConfirmNext(job: Job)
    | Freezing(job: Job, moves: seq<Move>, states: seq<Option<Store>>)
    | Installing(job: Job, moves: seq<Move>, states: seq<Option<Store>>, i: nat)
    | Deleting(job: Job, moves: seq<Move>, i: nat)
    | Publishing(job: Job, ticket: nat)
    | Panicked

  datatype GroupReq = GroupReq(gid: nat, op: Op)
  datatype GroupRep = GroupRep(gid: nat, op: Op, r: Result)

  datatype Sys = Sys(
    groups: map<nat, Group>,
    current: Register,
    next: Register,
    ctrls: map<nat, Ctrl>,
    reqs: seq<GroupReq>,
    reps: seq<GroupRep>,
    puts: seq<Cas>,
    granted: seq<Cas>)

  /** `first` is the configuration the service starts with: number one, every shard at group one. */
  predicate IsFirst(first: Config) {
    |first.shards| == NSHARDS && first.num == NUM_FIRST && forall s :: 0 <= s < NSHARDS ==> first.shards[s] == GID1
  }

  ghost predicate Init(first: Config, y: Sys) {
    && IsFirst(first) && y.current == Register(None, 0) && y.next == Register(None, 0)
    && (forall g :: g in y.groups ==> y.groups[g] == Initial(g)) && GID1 in y.groups
    && y.ctrls == map[] && y.reqs == [] && y.reps == [] && y.puts == [] && y.granted == []
  }

  function CtrlOf(y: Sys, k: nat): Ctrl {
    if k in y.ctrls then y.ctrls[k] else Idle
  }

  /** The group request the controller is currently waiting for, if its group is known to the configuration. */
  function Wanted(c: Ctrl): Option<GroupReq> {
    match c
    case Freezing(j, ms, states) =>
      if |states| < |ms| && ms[|states|].src in j.prev.groups
      then var mv := ms[|states|]; Some(GroupReq(mv.src, Freeze(mv.shard, j.target.num)))
      else None
    case Installing(j, ms, states, i) =>
      if i < |ms| && i < |states| && ms[i].dst in j.target.groups
      then var mv := ms[i]; Some(GroupReq(mv.dst, Install(mv.shard, states[i], j.target.num)))
      else None
    case Deleting(j, ms, i) =>
      if i < |ms| && ms[i].src in j.prev.groups
      then var mv := ms[i]; Some(GroupReq(mv.src, Delete(mv.shard, j.target.num)))
      else None
    case _ => None
  }

  predicate IsOk(r: Result) {
    match r
    case ClientR(_) => false
    case FreezeR(_, _, e) => e == OK
    case InstallR(e) => e == OK
    case DeleteR(e) => e == OK
  }

  /** Going on after the reply to the wanted request; anything but OK ends the attempt. */
  function After(c: Ctrl, r: Result): Ctrl {
    if !IsOk(r) then Idle
    else match c
         case Freezing(j, ms, states) => if r.FreezeR? then Freezing(j, ms, states + [r.state]) else Idle
         case Installing(j, ms, states, i) => Installing(j, ms, states, i + 1)
         case Deleting(j, ms, i) => Deleting(j, ms, i + 1)
         case _ => Idle
  }

  /** Entering the next phase once every move has been dealt with. */
  function NextPhase(c: Ctrl, ticket: nat): Ctrl {
    match c
    case Freezing(j, ms, states) => if |states| == |ms| then Installing(j, ms, states, 0) else c
    case Installing(j, ms, states, i) => if i == |ms| then Deleting(j, ms, 0) else c
    case Deleting(j, ms, i) => if i == |ms| then Publishing(j, ticket) else c
    case _ => c
  }

  /** The start of completing a change: list the moves. */
  function StartChange(j: Job): Ctrl {
    Freezing(j, MovesOf(j), [])
  }

  /** What a controller does once it has read the next key. */
  function DecideNext(c: Ctrl, next: Register, ticket: nat): Ctrl
    requires c.ReadNext?
  {
    if next.value.None? then Idle
    else
      var nv := next.value.value;
      match c.goal
      case None => if nv.num == c.prev.num + 1 then StartChange(Job(c.prev, nv, c.version)) else Idle
      case Some(g) =>
        if nv.num == g.num then (if nv == g then StartChange(Job(c.prev, g, c.version)) else Idle)
        else if nv.num != c.prev.num then Idle
        else PutNext(Job(c.prev, g, c.version), next.version, ticket)
  }

  function PutsOf(c: Ctrl): seq<Cas> {
    match c
    case InitCurrent(cfg, t) => [Cas(Current, cfg, 0, t)]
    case InitNext(cfg, t) => [Cas(Next, cfg, 0, t)]
    case PutNext(j, v, t) => [Cas(Next, j.target, v, t)]
    case Publishing(j, t) => [Cas(Current, j.target, j.version, t)]
    case _ => []
  }

  /** Initialising finds the key taken by another configuration, which the source answers with a panic. */
  predicate FindsOther(c: Ctrl, current: Register, next: Register) {
    || (c.InitCurrent? && current.value.Some? && current.value.value != c.cfg)
    || (c.InitNext? && next.value.Some? && next.value.value != c.cfg)
  }

  // ---------------------------------------------------------------- events

  datatype Event =
    | InitConfig(k: nat)
    | InitGoesOn(k: nat)
    | InitPanics(k: nat)
    | Recover(k: nat)
    | Change(k: nat, goal: Config)
    | SeeNext(k: nat)
    | NextGranted(k: nat)
    | NextUnsure(k: nat)
    | SeeConfirm(k: nat)
    | Ask(k: nat)
    | Hear(k: nat, rep: GroupRep)
    | Proceed(k: nat)
    | Stop(k: nat)
    | ExecPut(put: Cas)
    | ExecGroup(req: GroupReq)
    | ClientOp(gid: nat, q: Request)

  function SetCtrl(y: Sys, k: nat, c: Ctrl): Sys {
    y.(ctrls := y.ctrls[k := c], puts := y.puts + PutsOf(c))
  }

  ghost predicate Enabled(kf: KeyMap, y: Sys, e: Event) {
    match e
    case InitConfig(k) => CtrlOf(y, k).Idle?
    case InitGoesOn(k) =>
      var c := CtrlOf(y, k);
      || (c.InitCurrent? && (Cas(Current, c.cfg, 0, c.ticket) in y.granted || y.current.value == Some(c.cfg)))
      || (c.InitNext? && (Cas(Next, c.cfg, 0, c.ticket) in y.granted || y.next.value == Some(c.cfg)))
    case InitPanics(k) => FindsOther(CtrlOf(y, k), y.current, y.next)
    case Recover(k) => CtrlOf(y, k).Idle?
    case Change(k, goal) => CtrlOf(y, k).Idle? && |goal.shards| == NSHARDS
    case SeeNext(k) => CtrlOf(y, k).ReadNext?
    case NextGranted(k) =>
      var c := CtrlOf(y, k);
      && c.PutNext?
      && Cas(Next, c.job.target, c.nextVersion, c.ticket) in y.granted
    case NextUnsure(k) => CtrlOf(y, k).PutNext?
    case SeeConfirm(k) => CtrlOf(y, k).ConfirmNext?
    case Ask(k) => Wanted(CtrlOf(y, k)).Some?
    case Hear(k, rep) => rep in y.reps && Wanted(CtrlOf(y, k)) == Some(GroupReq(rep.gid, rep.op))
    case Proceed(k) => true
    case Stop(k) => !CtrlOf(y, k).Panicked?
    case ExecPut(p) => p in y.puts
    case ExecGroup(q) => q in y.reqs && q.gid in y.groups && WellFormed(y.groups[q.gid]) && InRange(kf, q.op)
    case ClientOp(gid, q) => gid in y.groups && WellFormed(y.groups[gid]) && kf(q.key) < NSHARDS
  }

  ghost function RunPut(y: Sys, p: Cas): Sys {
    var (r, ok) := TryPut(if p.which == Current then y.current else y.next, p.value, p.version);
    var y1 := if p.which == Current then y.(current := r) else y.(next := r);
    if ok then y1.(granted := y1.granted + [p]) else y1
  }

  ghost function RunGroup(kf: KeyMap, y: Sys, q: GroupReq): Sys
    requires q.gid in y.groups && WellFormed(y.groups[q.gid]) && InRange(kf, q.op)
  {
    var (g, r) := DoOp(kf, y.groups[q.gid], q.op);
    y.(groups := y.groups[q.gid := g], reps := y.reps + [GroupRep(q.gid, q.op, r)])
  }

  ghost function Perform(kf: KeyMap, first: Config, y: Sys, e: Event): Sys
    requires Enabled(kf, y, e)
  {
    match e
    case InitConfig(k) => SetCtrl(y, k, InitCurrent(first, |y.puts|))
    case InitGoesOn(k) => SetCtrl(y, k, match CtrlOf(y, k) case InitCurrent(cfg, _) =>
        InitNext(cfg, |y.puts|) case _ => Idle)
    case InitPanics(k) => SetCtrl(y, k, Panicked)
    case Recover(k) =>
      SetCtrl(y, k, if y.current.value.None? then Idle else ReadNext(None, y.current.value.value, y.current.version))
    case Change(k, goal) =>
      SetCtrl(y, k, if y.current.value.None? || goal.num != y.current.value.value.num + 1 then Idle
                    else ReadNext(Some(goal), y.current.value.value, y.current.version))
    case SeeNext(k) => SetCtrl(y, k, DecideNext(CtrlOf(y, k), y.next, |y.puts|))
    case NextGranted(k) => SetCtrl(y, k, StartChange(CtrlOf(y, k).job))
    case NextUnsure(k) => SetCtrl(y, k, ConfirmNext(CtrlOf(y, k).job))
    case SeeConfirm(k) =>
      SetCtrl(y, k, if y.next.value == Some(CtrlOf(y, k).job.target) then StartChange(CtrlOf(y, k).job) else Idle)
    case Ask(k) => y.(reqs := y.reqs + [Wanted(CtrlOf(y, k)).value])
    case Hear(k, rep) => SetCtrl(y, k, After(CtrlOf(y, k), rep.r))
    case Proceed(k) => SetCtrl(y, k, NextPhase(CtrlOf(y, k), |y.puts|))
    case Stop(k) => SetCtrl(y, k, Idle)
    case ExecPut(p) => RunPut(y, p)
    case ExecGroup(q) => RunGroup(kf, y, q)
    case ClientOp(gid, q) => y.(groups := y.groups[gid := DoClient(kf, y.groups[gid], q).0])
  }

  /** A run: the states passed through and the events between them. */
  ghost predicate IsRun(kf: KeyMap, first: Config, run: seq<Sys>, events: seq<Event>) {
    && |run| == |events| + 1 && Init(first, run[0])
    && forall i :: 0 <= i < |events| ==>
        Enabled(kf, run[i], events[i]) && run[i + 1] == Perform(kf, first, run[i], events[i])
  }
}
