/**
 What the sharded service does do: requests of the change in progress always succeed, deleted shards leave nothing
 behind,
 and from every reachable state one undisturbed controller can complete a recorded change.
 */
module ShardProgress {
  import opened Common
  import opened VersionedStore
  import opened ShardGroup
  import opened ShardMigration
  import opened ShardSafety
  import opened ShardSteps
  import opened ShardExec
  import opened ShardTheorems
  import ShardInit

  // ---------------------------------------------------------------- nothing is left behind

  ghost predicate EmptyAt(kf: KeyMap, y: Sys, g: nat, s: nat) {
    s < NSHARDS && St(y, g, s) == Absent ==> Slice(kf, Data(y, g), s) == map[]
  }

  ghost predicate AbsentEmpty(kf: KeyMap, y: Sys) {
    forall g: nat, s: nat :: EmptyAt(kf, y, g, s)
  }

  /** The shard a request is about is empty afterwards if it is absent afterwards. */
  lemma TouchedEmpty(kf: KeyMap, y: Sys, q: GroupReq)
    requires q.gid in y.groups && WellFormed(y.groups[q.gid]) && InRange(kf, q.op) && !q.op.Client?
    requires EmptyAt(kf, y, q.gid, ShardOf(q.op))
    ensures EmptyAt(kf, RunGroup(kf, y, q), q.gid, ShardOf(q.op))
  {
    var y', s := RunGroup(kf, y, q), ShardOf(q.op);
    if q.op.Delete? && y'.groups[q.gid] != y.groups[q.gid] {
      assert Slice(kf, Without(kf, y.groups[q.gid].data, s), s) == map[];
    }
  }

  lemma GroupEmpty(kf: KeyMap, first: Config, y: Sys, chain: seq<Config>, q: GroupReq)
    requires Inv(kf, first, y, chain) && Enabled(kf, y, ExecGroup(q)) && AbsentEmpty(kf, y)
    ensures AbsentEmpty(kf, RunGroup(kf, y, q))
  {
    var y', s := RunGroup(kf, y, q), ShardOf(q.op);
    assert ReqOk(kf, y, chain, q);
    RequestHops(kf, y, y', chain, q);
    assert EmptyAt(kf, y, q.gid, s);
    TouchedEmpty(kf, y, q);
    forall g: nat, x: nat ensures EmptyAt(kf, y', g, x) {
      assert EmptyAt(kf, y, g, x);
      if y'.groups != y.groups && (g != q.gid || x != s) { assert Same(kf, y, y', g, x); }
    }
  }

  lemma ClientEmpty(kf: KeyMap, y: Sys, y': Sys, gid: nat, q: Request)
    requires GroupsOk(y) && gid in y.groups && kf(q.key) < NSHARDS && y'.current == y.current && AbsentEmpty(kf, y)
    requires y'.groups == y.groups[gid := DoClient(kf, y.groups[gid], q).0]
    ensures AbsentEmpty(kf, y')
  {
    ClientElsewhere(kf, y, y', gid, q);
    forall g: nat, x: nat ensures EmptyAt(kf, y', g, x) {
      assert EmptyAt(kf, y, g, x);
      if g != gid || x != kf(q.key) { assert Same(kf, y, y', g, x); }
    }
  }

  lemma StepEmpty(kf: KeyMap, first: Config, y: Sys, chain: seq<Config>, e: Event)
    requires Inv(kf, first, y, chain) && Enabled(kf, y, e) && AbsentEmpty(kf, y)
    ensures AbsentEmpty(kf, Perform(kf, first, y, e))
  {
    var y' := Perform(kf, first, y, e);
    match e
    case ExecGroup(q) => GroupEmpty(kf, first, y, chain, q);
    case ClientOp(gid, q) => ClientEmpty(kf, y, y', gid, q);
    case _ => SameGroupsEmpty(kf, y, y');
  }

  lemma SameGroupsEmpty(kf: KeyMap, y: Sys, y': Sys)
    requires AbsentEmpty(kf, y) && y'.groups == y.groups
    ensures AbsentEmpty(kf, y')
  {
    forall g: nat, x: nat ensures EmptyAt(kf, y', g, x) { assert EmptyAt(kf, y, g, x); }
  }

  /** In every reachable state a group has no data of a shard that is absent there: a delete removes everything. */
  lemma {:induction false} AbsentShardsAreEmpty(kf: KeyMap, first: Config, run: seq<Sys>, events: seq<Event>, i: nat)
    requires IsRun(kf, first, run, events) && i < |run|
    ensures forall g: nat, s: nat :: s < NSHARDS && St(run[i], g, s) == Absent ==>
        Slice(kf, Data(run[i], g), s) == map[]
    ensures AbsentEmpty(kf, run[i])
    decreases i
  {
    if i == 0 {
      forall g: nat, s: nat ensures EmptyAt(kf, run[0], g, s) { assert Data(run[0], g) == map[]; }
    } else {
      AbsentShardsAreEmpty(kf, first, run, events, i - 1);
      var _, chain := RunInv(kf, first, run, events, i - 1, i - 1);
      StepEmpty(kf, first, run[i - 1], chain, events[i - 1]);
    }
    forall g: nat, s: nat | s < NSHARDS && St(run[i], g, s) == Absent ensures Slice(kf, Data(run[i], g), s) == map[] {
      assert EmptyAt(kf, run[i], g, s);
    }
  }

  // ---------------------------------------------------------------- requests take effect

  predicate ErrorOf(r: Result, e: Err) {
    match r
    case ClientR(_) => false
    case FreezeR(state, _, x) => x == e && state == None
    case InstallR(x) => x == e
    case DeleteR(x) => x == e
  }

  /**
   The fence, on any group whatever: a number below the last one seen is answered ErrVersion without effect, as is any
   delete for another number; a larger number on the wrong side of a move is answered ErrWrongGroup without effect.
   */
  lemma FencedByNumber(kf: KeyMap, g: Group, op: Op)
    requires WellFormed(g) && InRange(kf, op) && !op.Client?
    ensures var s, n, seen := ShardOf(op), NumOf(op), g.lastNum[ShardOf(op)];
      && (n < seen || (op.Delete? && n != seen) ==> DoOp(kf, g, op).0 == g && ErrorOf(DoOp(kf, g, op).1, ErrVersion))
      && (n > seen && ((op.Freeze? && g.status[s] != Serving) || (op.Install? && g.status[s] != Absent)) ==>
            DoOp(kf, g, op).0 == g && ErrorOf(DoOp(kf, g, op).1, ErrWrongGroup))
  {
  }

  ghost function NumOf(op: Op): nat {
    match op
    case Client(_) => 0
    case Freeze(_, n) => n
    case Install(_, _, n) => n
    case Delete(_, n) => n
  }

  /** What the request asks for is so. */
  ghost predicate Fulfilled(kf: KeyMap, y: Sys, chain: seq<Config>, q: GroupReq, r: Result) {
    match q.op
    case Client(_) => true
    case Freeze(s, n) => r.FreezeR? && St(y, q.gid, s) != Serving && Ln(y, q.gid, s) == n
        && FrozenCopy(kf, y, chain, n, s, r.state)
    case Install(s, _, n) => Installed(y, chain, n, s)
    case Delete(s, n) => Gone(y, chain, n, s)
  }

  ghost predicate TakesEffect(kf: KeyMap, y: Sys, chain: seq<Config>, q: GroupReq)
    requires q.gid in y.groups && WellFormed(y.groups[q.gid]) && InRange(kf, q.op)
  {
    var y', r := RunGroup(kf, y, q), DoOp(kf, y.groups[q.gid], q.op).1;
    if NumOf(q.op) <= Num(y) then y'.groups == y.groups else IsOk(r) && Fulfilled(kf, y', chain, q, r)
  }

  /**
   A request a controller may send does exactly this: for a change that is over, nothing; for the change in progress,
   it always succeeds and what it asks for is so afterwards.
   */
  lemma RequestsTakeEffect(kf: KeyMap, y: Sys, chain: seq<Config>, q: GroupReq)
    requires StoreOk(y, chain) && ShardsOk(y, chain) && ReqOk(kf, y, chain, q)
    requires q.gid in y.groups && WellFormed(y.groups[q.gid]) && InRange(kf, q.op)
    ensures TakesEffect(kf, y, chain, q)
  {
    RequestHops(kf, y, RunGroup(kf, y, q), chain, q);
    match q.op
    case Client(_) =>
    case Freeze(s, n) => FreezeTakesEffect(kf, y, chain, q, s, n);
    case Install(s, d, n) => InstallTakesEffect(kf, y, chain, q, s, d, n);
    case Delete(s, n) => DeleteTakesEffect(kf, y, chain, q, s, n);
  }

  lemma FreezeTakesEffect(kf: KeyMap, y: Sys, chain: seq<Config>, q: GroupReq, s: nat, n: nat)
    requires StoreOk(y, chain) && ShardsOk(y, chain) && ReqOk(kf, y, chain, q) && q.op == Freeze(s, n)
    requires q.gid in y.groups && WellFormed(y.groups[q.gid]) && InRange(kf, q.op)
    ensures TakesEffect(kf, y, chain, q)
  {
    Stale(y, chain, n, s);
    FreezeStep(kf, y, RunGroup(kf, y, q), chain, q.gid, s, n);
    if n <= Num(y) { assert DoFreeze(kf, y.groups[q.gid], s, n).0 == y.groups[q.gid]; }
  }

  lemma InstallTakesEffect(kf: KeyMap, y: Sys, chain: seq<Config>, q: GroupReq, s: nat, d: Option<Store>, n: nat)
    requires StoreOk(y, chain) && ShardsOk(y, chain) && ReqOk(kf, y, chain, q) && q.op == Install(s, d, n)
    requires q.gid in y.groups && WellFormed(y.groups[q.gid]) && InRange(kf, q.op)
    ensures TakesEffect(kf, y, chain, q)
  {
    Stale(y, chain, n, s);
    InstallStep(kf, y, RunGroup(kf, y, q), chain, q.gid, s, d, n);
    if n <= Num(y) { assert DoInstall(kf, y.groups[q.gid], s, d, n).0 == y.groups[q.gid]; }
  }

  lemma DeleteTakesEffect(kf: KeyMap, y: Sys, chain: seq<Config>, q: GroupReq, s: nat, n: nat)
    requires StoreOk(y, chain) && ShardsOk(y, chain) && ReqOk(kf, y, chain, q) && q.op == Delete(s, n)
    requires q.gid in y.groups && WellFormed(y.groups[q.gid]) && InRange(kf, q.op)
    ensures TakesEffect(kf, y, chain, q)
  {
    Stale(y, chain, n, s);
    DeleteStep(kf, y, RunGroup(kf, y, q), chain, q.gid, s, n);
    if St(y, q.gid, s) == Frozen { FrozenIsNewest(y, chain, q.gid, s); }
    if n <= Num(y) { assert DoDelete(kf, y.groups[q.gid], s, n).0 == y.groups[q.gid]; }
  }

  // ---------------------------------------------------------------- one controller completes a change

  /** Every shard is at a member group of its configuration, and the groups are there. */
  ghost predicate Staffed(y: Sys, c: Config) {
    forall s: nat :: s < |c.shards| ==> c.shards[s] in c.groups && c.shards[s] in y.groups
  }

  /** The change controller `k` is carrying out is the one in progress, and its groups are there. */
  ghost predicate Working(y: Sys, k: nat, j: Job) {
    j.version == y.current.version > 0 && Staffed(y, j.prev) && Staffed(y, j.target)
  }

  /** The change controller `k` works on and is waiting for a group. */
  ghost predicate Waits(c: Ctrl, j: Job) {
    || (c.Freezing? && c.job == j && |c.states| < |c.moves|)
    || (c.Installing? && c.job == j && c.i < |c.moves|)
    || (c.Deleting? && c.job == j && c.i < |c.moves|)
  }

  lemma WantsSomething(kf: KeyMap, first: Config, y: Sys, chain: seq<Config>, c: Ctrl, k: nat, j: Job)
    requires IsChain(first, chain) && CtrlOk(kf, first, y, chain, c) && Waits(c, j) && Working(y, k, j)
    ensures Wanted(c).Some? && Wanted(c).value.gid in y.groups && NumOf(Wanted(c).value.op) == j.version + 1
    ensures InRange(kf, Wanted(c).value.op) && !Wanted(c).value.op.Client?
  {
    var at := if c.Freezing? then |c.states| else c.i;
    assert MoveFits(chain, j, c.moves[at]);
    assert Linked(chain, j.version) && Linked(chain, j.version + 1);
  }

  /** The state is as it was for controller `k`, except for what it is doing. */
  ghost predicate SameBut(y: Sys, y': Sys) {
    y'.current == y.current && y'.groups.Keys == y.groups.Keys
  }

  /** The request controller `k` waits for is out. */
  lemma AskForIt(kf: KeyMap, first: Config, run: seq<Sys>, events: seq<Event>, k: nat, j: Job)
    returns (run': seq<Sys>, events': seq<Event>, q: GroupReq)
    requires IsRun(kf, first, run, events)
    requires Waits(CtrlOf(ShardInit.Now(run, events), k), j) && Working(ShardInit.Now(run, events), k, j)
    ensures IsRun(kf, first, run', events') && SameBut(ShardInit.Now(run, events), ShardInit.Now(run', events'))
    ensures var y' := ShardInit.Now(run', events');
      && CtrlOf(y', k) == CtrlOf(ShardInit.Now(run, events), k) && Wanted(CtrlOf(y', k)) == Some(q)
      && q in y'.reqs && q.gid in y'.groups && NumOf(q.op) == j.version + 1 && InRange(kf, q.op) && !q.op.Client?
  {
    var y := ShardInit.Now(run, events);
    var c := CtrlOf(y, k);
    var _, chain := RunInv(kf, first, run, events, |events|, |events|);
    assert CtrlOk(kf, first, y, chain, c);
    WantsSomething(kf, first, y, chain, c, k, j);
    q := Wanted(c).value;
    run', events' := ShardInit.GoOn(kf, first, run, events, Ask(k));
  }

  /** Its execution succeeds. */
  lemma HaveItDone(kf: KeyMap, first: Config, run: seq<Sys>, events: seq<Event>, q: GroupReq)
    returns (run': seq<Sys>, events': seq<Event>, r: Result)
    requires IsRun(kf, first, run, events) && !q.op.Client? && InRange(kf, q.op)
    requires var y := ShardInit.Now(run, events);
      q in y.reqs && q.gid in y.groups && NumOf(q.op) == y.current.version + 1 > 1
    ensures IsRun(kf, first, run', events') && SameBut(ShardInit.Now(run, events), ShardInit.Now(run', events'))
    ensures ShardInit.Now(run', events').ctrls == ShardInit.Now(run, events).ctrls
    ensures GroupRep(q.gid, q.op, r) in ShardInit.Now(run', events').reps && IsOk(r) && (q.op.Freeze? ==> r.FreezeR?)
  {
    var y := ShardInit.Now(run, events);
    var _, chain := RunInv(kf, first, run, events, |events|, |events|);
    assert ReqOk(kf, y, chain, q) && WellFormed(y.groups[q.gid]);
    RequestsTakeEffect(kf, y, chain, q);
    r := DoOp(kf, y.groups[q.gid], q.op).1;
    run', events' := ShardInit.GoOn(kf, first, run, events, ExecGroup(q));
  }

  /** Asking, having the request executed and hearing the reply takes the controller one move further. */
  lemma OneMove(kf: KeyMap, first: Config, run: seq<Sys>, events: seq<Event>, k: nat, j: Job)
    returns (run': seq<Sys>, events': seq<Event>, r: Result)
    requires IsRun(kf, first, run, events)
    requires Waits(CtrlOf(ShardInit.Now(run, events), k), j) && Working(ShardInit.Now(run, events), k, j)
    ensures IsRun(kf, first, run', events') && SameBut(ShardInit.Now(run, events), ShardInit.Now(run', events'))
    ensures IsOk(r) && (CtrlOf(ShardInit.Now(run, events), k).Freezing? ==> r.FreezeR?)
    ensures CtrlOf(ShardInit.Now(run', events'), k) == After(CtrlOf(ShardInit.Now(run, events), k), r)
  {
    var q;
    run', events', q := AskForIt(kf, first, run, events, k, j);
    run', events', r := HaveItDone(kf, first, run', events', q);
    run', events' := ShardInit.GoOn(kf, first, run', events', Hear(k, GroupRep(q.gid, q.op, r)));
  }

  lemma StillWorking(y: Sys, y': Sys, k: nat, j: Job)
    requires Working(y, k, j) && SameBut(y, y')
    ensures Working(y', k, j)
  {
    forall s: nat | s < |j.prev.shards| ensures j.prev.shards[s] in j.prev.groups && j.prev.shards[s] in y'.groups {
      assert j.prev.shards[s] in y.groups.Keys;
    }
    forall s: nat | s < |j.target.shards| ensures j.target.shards[s] in j.target.groups
        && j.target.shards[s] in y'.groups {
      assert j.target.shards[s] in y.groups.Keys;
    }
  }

  /** How many moves the controller still has before it in its phase. */
  function MovesLeft(c: Ctrl): nat {
    match c
    case Freezing(_, ms, states) => if |states| < |ms| then |ms| - |states| else 0
    case Installing(_, ms, _, i) => if i < |ms| then |ms| - i else 0
    case Deleting(_, ms, i) => if i < |ms| then |ms| - i else 0
    case _ => 0
  }

  predicate SamePhase(c: Ctrl, d: Ctrl) {
    || (c.Freezing? && d.Freezing? && d.job == c.job && d.moves == c.moves)
    || (c.Installing? && d.Installing? && d.job == c.job && d.moves == c.moves && d.states == c.states)
    || (c.Deleting? && d.Deleting? && d.job == c.job && d.moves == c.moves)
  }

  /** A whole phase. */
  lemma {:induction false} WholePhase(kf: KeyMap, first: Config, run: seq<Sys>, events: seq<Event>, k: nat, j: Job)
    returns (run': seq<Sys>, events': seq<Event>)
    requires IsRun(kf, first, run, events) && Working(ShardInit.Now(run, events), k, j)
    requires var c := CtrlOf(ShardInit.Now(run, events), k); (c.Freezing? || c.Installing? || c.Deleting?) && c.job == j
    ensures IsRun(kf, first, run', events') && SameBut(ShardInit.Now(run, events), ShardInit.Now(run', events'))
    ensures var c, d := CtrlOf(ShardInit.Now(run, events), k), CtrlOf(ShardInit.Now(run', events'), k);
      SamePhase(c, d) && MovesLeft(d) == 0
    decreases MovesLeft(CtrlOf(ShardInit.Now(run, events), k))
  {
    run', events' := run, events;
    if MovesLeft(CtrlOf(ShardInit.Now(run, events), k)) > 0 {
      var r;
      run', events', r := OneMove(kf, first, run, events, k, j);
      StillWorking(ShardInit.Now(run, events), ShardInit.Now(run', events'), k, j);
      run', events' := WholePhase(kf, first, run', events', k, j);
    }
  }

  /** The phases one after the other, and the configuration is published. */
  lemma PhasesToTheEnd(kf: KeyMap, first: Config, run: seq<Sys>, events: seq<Event>, k: nat, j: Job)
    returns (run': seq<Sys>, events': seq<Event>)
    requires IsRun(kf, first, run, events) && Working(ShardInit.Now(run, events), k, j)
    requires CtrlOf(ShardInit.Now(run, events), k) == StartChange(j)
    ensures IsRun(kf, first, run', events')
    ensures ShardInit.Now(run', events').current == Register(Some(j.target), j.version + 1)
  {
    run', events' := PhaseDone(kf, first, run, events, k, j);
    run', events' := PhaseDone(kf, first, run', events', k, j);
    run', events' := PhaseDone(kf, first, run', events', k, j);
    var y := ShardInit.Now(run', events');
    run', events' := Publish(kf, first, run', events', k, j);
  }

  ghost predicate NextKind(c: Ctrl, d: Ctrl) {
    || (c.Freezing? && d.Installing? && d.job == c.job)
    || (c.Installing? && d.Deleting? && d.job == c.job)
    || (c.Deleting? && d.Publishing? && d.job == c.job)
  }

  /** A whole phase and the step into the next. */
  lemma PhaseDone(kf: KeyMap, first: Config, run: seq<Sys>, events: seq<Event>, k: nat, j: Job)
    returns (run': seq<Sys>, events': seq<Event>)
    requires IsRun(kf, first, run, events) && Working(ShardInit.Now(run, events), k, j)
    requires var c := CtrlOf(ShardInit.Now(run, events), k); (c.Freezing? || c.Installing? || c.Deleting?) && c.job == j
    ensures IsRun(kf, first, run', events') && Working(ShardInit.Now(run', events'), k, j)
    ensures var d := CtrlOf(ShardInit.Now(run', events'), k);
      NextKind(CtrlOf(ShardInit.Now(run, events), k), d)
      && (d.Publishing? ==> Cas(Current, j.target, j.version, d.ticket) in ShardInit.Now(run', events').puts)
  {
    run', events' := WholePhase(kf, first, run, events, k, j);
    var mid := ShardInit.Now(run', events');
    StillWorking(ShardInit.Now(run, events), mid, k, j);
    var _, chain := RunInv(kf, first, run', events', |events'|, |events'|);
    assert CtrlOk(kf, first, mid, chain, CtrlOf(mid, k));
    run', events' := ShardInit.GoOn(kf, first, run', events', Proceed(k));
    StillWorking(mid, ShardInit.Now(run', events'), k, j);
  }

  lemma Publish(kf: KeyMap, first: Config, run: seq<Sys>, events: seq<Event>, k: nat, j: Job)
    returns (run': seq<Sys>, events': seq<Event>)
    requires IsRun(kf, first, run, events) && Working(ShardInit.Now(run, events), k, j)
    requires var d := CtrlOf(ShardInit.Now(run, events), k);
      d.Publishing? && Cas(Current, j.target, j.version, d.ticket) in ShardInit.Now(run, events).puts
    ensures IsRun(kf, first, run', events')
    ensures ShardInit.Now(run', events').current == Register(Some(j.target), j.version + 1)
  {
    var d := CtrlOf(ShardInit.Now(run, events), k);
    run', events' := ShardInit.GoOn(kf, first, run, events, ExecPut(Cas(Current, j.target, j.version, d.ticket)));
  }

  /**
   From every reachable state in which a change is recorded and its groups are there, whatever other controllers have
   left half done, one idle controller that recovers undisturbed completes it: the next configuration becomes current.
   */
  lemma RecoveryCompletes(kf: KeyMap, first: Config, run: seq<Sys>, events: seq<Event>, k: nat, c: Config, n: Config)
    returns (run': seq<Sys>, events': seq<Event>)
    requires IsRun(kf, first, run, events) && CtrlOf(run[|events|], k) == Idle
    requires run[|events|].current.value == Some(c) && run[|events|].next.value == Some(n) && n.num == c.num + 1
    requires Staffed(run[|events|], c) && Staffed(run[|events|], n)
    ensures IsRun(kf, first, run', events') && run'[|events'|].current.value == Some(n)
  {
    NextAtMostOneAhead(kf, first, run, events, |events|, c, n);
    var y := ShardInit.Now(run, events);
    var j := Job(c, n, y.current.version);
    run', events' := ShardInit.GoOn(kf, first, run, events, Recover(k));
    run', events' := ShardInit.GoOn(kf, first, run', events', SeeNext(k));
    StillWorking(y, ShardInit.Now(run', events'), k, j);
    run', events' := PhasesToTheEnd(kf, first, run', events', k, j);
  }

  /**
   From every reachable state without a change in progress, an idle controller asked for a configuration with the next
   number, whose groups are there, makes it current when undisturbed, whether it learns of its write from the answer or
   has to look.
   */
  lemma ChangeCompletes(kf: KeyMap, first: Config, run: seq<Sys>, events: seq<Event>, k: nat, c: Config, goal: Config,
                        told: bool)
    returns (run': seq<Sys>, events': seq<Event>)
    requires IsRun(kf, first, run, events) && CtrlOf(run[|events|], k) == Idle
    requires run[|events|].current.value == run[|events|].next.value == Some(c)
    requires goal.num == c.num + 1 && |goal.shards| == NSHARDS && Staffed(run[|events|], c)
        && Staffed(run[|events|], goal)
    ensures IsRun(kf, first, run', events') && run'[|events'|].current.value == Some(goal)
  {
    NextAtMostOneAhead(kf, first, run, events, |events|, c, c);
    var y := ShardInit.Now(run, events);
    var j, t := Job(c, goal, y.current.version), |y.puts|;
    run', events' := GoalRecorded(kf, first, run, events, k, c, goal);
    if told {
      run', events' := ShardInit.GoOn(kf, first, run', events', NextGranted(k));
    } else {
      run', events' := ShardInit.GoOn(kf, first, run', events', NextUnsure(k));
      run', events' := ShardInit.GoOn(kf, first, run', events', SeeConfirm(k));
    }
    StillWorking(y, ShardInit.Now(run', events'), k, j);
    run', events' := PhasesToTheEnd(kf, first, run', events', k, j);
  }

  lemma GoalRecorded(kf: KeyMap, first: Config, run: seq<Sys>, events: seq<Event>, k: nat, c: Config, goal: Config)
    returns (run': seq<Sys>, events': seq<Event>)
    requires IsRun(kf, first, run, events) && CtrlOf(run[|events|], k) == Idle
    requires run[|events|].current.value == run[|events|].next.value == Some(c) && goal.num == c.num + 1
        && |goal.shards| == NSHARDS
    ensures IsRun(kf, first, run', events') && SameBut(run[|events|], run'[|events'|])
    ensures var y', v := run'[|events'|], run[|events|].next.version;
      && y'.next.value == Some(goal) && CtrlOf(y', k).PutNext? && CtrlOf(y', k).job == Job(c, goal, y'.current.version)
      && Cas(Next, goal, CtrlOf(y', k).nextVersion, CtrlOf(y', k).ticket) in y'.granted
  {
    run', events' := ShardInit.GoOn(kf, first, run, events, Change(k, goal));
    run', events' := ShardInit.GoOn(kf, first, run', events', SeeNext(k));
    var d := CtrlOf(ShardInit.Now(run', events'), k);
    run', events' := ShardInit.GoOn(kf, first, run', events', ExecPut(Cas(Next, goal, d.nextVersion, d.ticket)));
  }
}
