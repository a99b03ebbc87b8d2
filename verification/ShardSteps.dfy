/** Every event of the sharded service keeps its invariant. */
module ShardSteps {
  import opened Common
  import opened VersionedStore
  import opened ShardGroup
  import opened ShardMigration
  import opened ShardSafety

  // ---------------------------------------------------------------- controllers moving on

  /** The groups and the current key did not change. */
  lemma SameWorld(kf: KeyMap, y: Sys, y': Sys, chain: seq<Config>)
    requires y'.groups == y.groups && y'.current == y.current
    ensures Advances(kf, y, chain, y', chain)
    ensures ShardsOk(y, chain) ==> ShardsOk(y', chain)
  {
    forall n: nat, s: nat ensures MoveAdvances(kf, y, chain, y', chain, n, s) {}
    if ShardsOk(y, chain) {
      forall s: nat | s < NSHARDS ensures ShardOk(y', chain, s) {
        assert ShardOk(y, chain, s);
        forall g: nat | g != Own(chain, Num(y), s) && g != Own(chain, |chain|, s) ensures Bystander(y', s, g, Num(y')) {
          assert Bystander(y, s, g, Num(y));
        }
      }
      forall n: nat, s: nat ensures PastOk(y', chain, n, s) { assert PastOk(y, chain, n, s); }
    }
  }

  lemma SetCtrlInv(kf: KeyMap, first: Config, y: Sys, chain: seq<Config>, k: nat, c: Ctrl)
    requires Inv(kf, first, y, chain) && CtrlOk(kf, first, y, chain, c)
    ensures Inv(kf, first, SetCtrl(y, k, c), chain)
  {
    var y' := SetCtrl(y, k, c);
    PutsOfOk(kf, first, y, chain, c);
    SameWorld(kf, y, y', chain);
    ClaimsStay(kf, first, y, chain, y', chain);
    CtrlStays(kf, first, y, chain, y', chain, c);
    forall j: nat ensures CtrlOk(kf, first, y', chain, CtrlOf(y', j)) {
      assert CtrlOk(kf, first, y', chain, CtrlOf(y, j));
    }
    forall p | p in y'.puts ensures PutOk(first, y', chain, p) {
      if p in PutsOf(c) { PutStays(kf, first, y, chain, y', chain, p); }
    }
  }

  lemma DecideNextOk(kf: KeyMap, first: Config, y: Sys, chain: seq<Config>, c: Ctrl, ticket: nat)
    requires IsChain(first, chain) && StoreOk(y, chain) && CtrlOk(kf, first, y, chain, c) && c.ReadNext?
    ensures CtrlOk(kf, first, y, chain, DecideNext(c, y.next, ticket))
  {
    assert Linked(chain, c.version) && Linked(chain, |chain|);
    var d := DecideNext(c, y.next, ticket);
    match d
    case Freezing(j, _, _) =>
      assert d == StartChange(j) && j.target == chain[|chain| - 1] && j.version + 1 == |chain|;
      StartFreezing(kf, first, y, chain, j);
    case _ =>
  }

  lemma StartFreezing(kf: KeyMap, first: Config, y: Sys, chain: seq<Config>, j: Job)
    requires IsChain(first, chain) && KnowsPrev(y, chain, j.prev, j.version) && j.version < |chain|
        && chain[j.version] == j.target
    ensures CtrlOk(kf, first, y, chain, StartChange(j))
  {
    MovesOfOk(first, y, chain, j);
  }

  lemma AfterOk(kf: KeyMap, first: Config, y: Sys, chain: seq<Config>, c: Ctrl, p: GroupRep)
    requires CtrlOk(kf, first, y, chain, c) && RepOk(kf, y, chain, p) && Wanted(c) == Some(GroupReq(p.gid, p.op))
    ensures CtrlOk(kf, first, y, chain, After(c, p.r))
  {
    match c
    case Freezing(_, _, _) => AfterFreeze(kf, first, y, chain, c, p);
    case Installing(_, _, _, _) => AfterInstall(kf, first, y, chain, c, p);
    case Deleting(_, _, _) => AfterDelete(kf, first, y, chain, c, p);
    case _ =>
  }

  lemma AfterFreeze(kf: KeyMap, first: Config, y: Sys, chain: seq<Config>, c: Ctrl, p: GroupRep)
    requires CtrlOk(kf, first, y, chain, c) && RepOk(kf, y, chain, p) && Wanted(c) == Some(GroupReq(p.gid, p.op))
        && c.Freezing?
    ensures CtrlOk(kf, first, y, chain, After(c, p.r))
  {
  }

  lemma AfterInstall(kf: KeyMap, first: Config, y: Sys, chain: seq<Config>, c: Ctrl, p: GroupRep)
    requires CtrlOk(kf, first, y, chain, c) && RepOk(kf, y, chain, p) && Wanted(c) == Some(GroupReq(p.gid, p.op))
        && c.Installing?
    ensures CtrlOk(kf, first, y, chain, After(c, p.r))
  {
  }

  lemma AfterDelete(kf: KeyMap, first: Config, y: Sys, chain: seq<Config>, c: Ctrl, p: GroupRep)
    requires CtrlOk(kf, first, y, chain, c) && RepOk(kf, y, chain, p) && Wanted(c) == Some(GroupReq(p.gid, p.op))
        && c.Deleting?
    ensures CtrlOk(kf, first, y, chain, After(c, p.r))
  {
  }

  lemma AllDeletedAllGone(y: Sys, chain: seq<Config>, j: Job, ms: seq<Move>)
    requires MovesOk(y, chain, j, ms) && GoneUpTo(y, chain, j.version + 1, ms, |ms|)
    ensures AllGone(y, chain, j.version + 1)
  {
    forall s: nat {:trigger GoneIfMoved(y, chain, j.version + 1, s)} ensures GoneIfMoved(y, chain, j.version + 1, s) {
      assert Covered(chain, j, ms, s);
    }
  }

  lemma NextPhaseOk(kf: KeyMap, first: Config, y: Sys, chain: seq<Config>, c: Ctrl, ticket: nat)
    requires CtrlOk(kf, first, y, chain, c)
    ensures CtrlOk(kf, first, y, chain, NextPhase(c, ticket))
  {
    if c.Deleting? && c.i == |c.moves| { AllDeletedAllGone(y, chain, c.job, c.moves); }
  }

  lemma PutsOfOk(kf: KeyMap, first: Config, y: Sys, chain: seq<Config>, c: Ctrl)
    requires IsChain(first, chain) && CtrlOk(kf, first, y, chain, c)
    ensures forall p :: p in PutsOf(c) ==> PutOk(first, y, chain, p)
  {
    match c
    case PutNext(j, v, _) => assert Linked(chain, j.version);
    case _ =>
  }

  /** The request a controller sends is one the groups may safely execute at any later time. */
  lemma WantedOk(kf: KeyMap, first: Config, y: Sys, chain: seq<Config>, c: Ctrl)
    requires CtrlOk(kf, first, y, chain, c) && Wanted(c).Some?
    ensures ReqOk(kf, y, chain, Wanted(c).value)
  {
  }

  lemma AskInv(kf: KeyMap, first: Config, y: Sys, chain: seq<Config>, k: nat)
    requires Inv(kf, first, y, chain) && Enabled(kf, y, Ask(k))
    ensures Inv(kf, first, Perform(kf, first, y, Ask(k)), chain)
  {
    var y' := Perform(kf, first, y, Ask(k));
    SameWorld(kf, y, y', chain);
    ClaimsStay(kf, first, y, chain, y', chain);
    assert CtrlOk(kf, first, y, chain, CtrlOf(y, k));
    WantedOk(kf, first, y, chain, CtrlOf(y, k));
    ReqStays(kf, y, chain, y', chain, Wanted(CtrlOf(y, k)).value);
    forall j: nat ensures CtrlOk(kf, first, y', chain, CtrlOf(y', j)) {
      assert CtrlOk(kf, first, y', chain, CtrlOf(y, j));
    }
  }

  /** A controller initialising, or reading the keys and choosing what to do. */
  lemma ReadingInv(kf: KeyMap, first: Config, y: Sys, chain: seq<Config>, e: Event)
    requires Inv(kf, first, y, chain) && Enabled(kf, y, e)
    requires e.InitConfig? || e.InitGoesOn? || e.InitPanics? || e.Recover? || e.Change? || e.SeeNext?
    ensures Inv(kf, first, Perform(kf, first, y, e), chain)
  {
    var c := CtrlOf(y, e.k);
    assert CtrlOk(kf, first, y, chain, c);
    match e
    case InitConfig(k) => SetCtrlInv(kf, first, y, chain, k, InitCurrent(first, |y.puts|));
    case InitGoesOn(k) => SetCtrlInv(kf, first, y, chain, k, match c case InitCurrent(cfg, _) =>
        InitNext(cfg, |y.puts|) case _ => Idle);
    case InitPanics(k) => SetCtrlInv(kf, first, y, chain, k, Panicked);
    case Recover(k) =>
      SetCtrlInv(kf, first, y, chain, k, if y.current.value.None? then Idle
          else ReadNext(None, y.current.value.value, y.current.version));
    case Change(k, goal) =>
      SetCtrlInv(kf, first, y, chain, k, if y.current.value.None? || goal.num != y.current.value.value.num + 1 then Idle
                                         else ReadNext(Some(goal), y.current.value.value, y.current.version));
    case SeeNext(k) =>
      DecideNextOk(kf, first, y, chain, c, |y.puts|);
      SetCtrlInv(kf, first, y, chain, k, DecideNext(c, y.next, |y.puts|));
  }

  /** A controller recording its goal, or going through the phases of a change. */
  lemma MovingInv(kf: KeyMap, first: Config, y: Sys, chain: seq<Config>, e: Event)
    requires Inv(kf, first, y, chain) && Enabled(kf, y, e)
    requires e.NextGranted? || e.NextUnsure? || e.SeeConfirm? || e.Hear? || e.Proceed? || e.Stop?
    ensures Inv(kf, first, Perform(kf, first, y, e), chain)
  {
    var c := CtrlOf(y, e.k);
    assert CtrlOk(kf, first, y, chain, c);
    match e
    case NextGranted(k) =>
      assert GrantOk(chain, Cas(Next, c.job.target, c.nextVersion, c.ticket));
      StartFreezing(kf, first, y, chain, c.job);
      SetCtrlInv(kf, first, y, chain, k, StartChange(c.job));
    case NextUnsure(k) => SetCtrlInv(kf, first, y, chain, k, ConfirmNext(c.job));
    case SeeConfirm(k) =>
      if y.next.value == Some(c.job.target) {
        assert Linked(chain, |chain|) && Linked(chain, c.job.version);
        StartFreezing(kf, first, y, chain, c.job);
        SetCtrlInv(kf, first, y, chain, k, StartChange(c.job));
      } else {
        SetCtrlInv(kf, first, y, chain, k, Idle);
      }
    case Hear(k, rep) => AfterOk(kf, first, y, chain, c, rep); SetCtrlInv(kf, first, y, chain, k, After(c, rep.r));
    case Proceed(k) =>
      NextPhaseOk(kf, first, y, chain, c, |y.puts|);
      SetCtrlInv(kf, first, y, chain, k, NextPhase(c, |y.puts|));
    case Stop(k) => SetCtrlInv(kf, first, y, chain, k, Idle);
  }
}
