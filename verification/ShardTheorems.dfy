/**
 What the sharded service guarantees over every run: who owns a shard, which configurations exist, and that clients see
 one map.
 */
module ShardTheorems {
  import opened Common
  import opened VersionedStore
  import opened ShardGroup
  import opened ShardMigration
  import opened ShardSafety
  import opened ShardSteps
  import opened ShardExec

  // ---------------------------------------------------------------- the invariant holds in every run

  lemma InitInv(kf: KeyMap, first: Config, y: Sys)
    requires Init(first, y)
    ensures Inv(kf, first, y, [first])
  {
    var chain := [first];
    forall n: nat ensures Linked(chain, n) {}
    forall s: nat | s < NSHARDS ensures ShardOk(y, chain, s) {
      assert Own(chain, 1, s) == GID1;
      forall g: nat | g != GID1 ensures Bystander(y, s, g, 1) {}
    }
    forall n: nat, s: nat ensures PastOk(y, chain, n, s) {}
    forall k: nat ensures CtrlOk(kf, first, y, chain, CtrlOf(y, k)) {}
  }

  ghost function ShardOf(op: Op): nat {
    match op
    case Client(_) => 0
    case Freeze(s, _) => s
    case Install(s, _, _) => s
    case Delete(s, _) => s
  }

  /** A request to a group, however late, does nothing or takes its shard one phase further. */
  lemma RequestHops(kf: KeyMap, y: Sys, y': Sys, chain: seq<Config>, q: GroupReq)
    requires StoreOk(y, chain) && ShardsOk(y, chain) && ReqOk(kf, y, chain, q)
    requires q.gid in y.groups && WellFormed(y.groups[q.gid]) && InRange(kf, q.op) && y' == RunGroup(kf, y, q)
    ensures !DecodesNothing(y.groups[q.gid], q.op)
    ensures y'.groups == y.groups || Hop(kf, y, y', chain, q.gid, ShardOf(q.op))
    ensures RepOk(kf, y', chain, GroupRep(q.gid, q.op, DoOp(kf, y.groups[q.gid], q.op).1))
  {
    match q.op
    case Client(_) =>
    case Freeze(s, n) => FreezeStep(kf, y, y', chain, q.gid, s, n);
    case Install(s, d, n) => InstallStep(kf, y, y', chain, q.gid, s, d, n);
    case Delete(s, n) => DeleteStep(kf, y, y', chain, q.gid, s, n);
  }

  lemma GroupInv(kf: KeyMap, first: Config, y: Sys, chain: seq<Config>, q: GroupReq)
    requires Inv(kf, first, y, chain) && Enabled(kf, y, ExecGroup(q))
    ensures Inv(kf, first, RunGroup(kf, y, q), chain)
  {
    var y' := RunGroup(kf, y, q);
    assert ReqOk(kf, y, chain, q);
    RequestHops(kf, y, y', chain, q);
    if y'.groups == y.groups {
      SameWorld(kf, y, y', chain);
    } else {
      HopWorld(kf, y, y', chain, q.gid, ShardOf(q.op));
    }
    ClaimsStay(kf, first, y, chain, y', chain);
    forall k: nat ensures CtrlOk(kf, first, y', chain, CtrlOf(y', k)) {
      assert CtrlOk(kf, first, y', chain, CtrlOf(y, k));
    }
  }

  /** A client request touches the data of a serving group only. */
  lemma ClientElsewhere(kf: KeyMap, y: Sys, y': Sys, gid: nat, q: Request)
    requires GroupsOk(y) && gid in y.groups && kf(q.key) < NSHARDS && y'.current == y.current
    requires y'.groups == y.groups[gid := DoClient(kf, y.groups[gid], q).0]
    ensures SameElsewhere(kf, y, y', gid, kf(q.key))
    ensures forall g: nat, x: nat :: St(y', g, x) == St(y, g, x) && Ln(y', g, x) == Ln(y, g, x)
    ensures St(y, gid, kf(q.key)) != Serving ==> y'.groups == y.groups
  {
    var g' := DoClient(kf, y.groups[gid], q).0;
    UpdateElsewhere(kf, y, y', gid, kf(q.key), g');
    if St(y, gid, kf(q.key)) != Serving { assert y'.groups == y.groups; }
  }

  lemma ClientWorld(kf: KeyMap, y: Sys, y': Sys, chain: seq<Config>, gid: nat, s: nat)
    requires ShardsOk(y, chain) && SameElsewhere(kf, y, y', gid, s) && St(y, gid, s) == Serving
    requires forall g: nat, x: nat :: St(y', g, x) == St(y, g, x) && Ln(y', g, x) == Ln(y, g, x)
    ensures ShardsOk(y', chain) && Advances(kf, y, chain, y', chain)
  {
    forall x: nat | x < NSHARDS ensures ShardOk(y', chain, x) {
      assert ShardOk(y, chain, x);
      forall g: nat | g != Own(chain, Num(y), x) && g != Own(chain, |chain|, x) ensures Bystander(y', x, g, Num(y')) {
        assert Bystander(y, x, g, Num(y));
      }
    }
    forall n: nat, x: nat ensures PastOk(y', chain, n, x) { assert PastOk(y, chain, n, x); }
    forall n: nat, x: nat ensures MoveAdvances(kf, y, chain, y', chain, n, x) {
      if n > 0 { assert Same(kf, y, y', Own(chain, n - 1, x), x) || (Own(chain, n - 1, x) == gid && x == s); }
    }
  }

  lemma ClientInv(kf: KeyMap, first: Config, y: Sys, chain: seq<Config>, gid: nat, q: Request)
    requires Inv(kf, first, y, chain) && Enabled(kf, y, ClientOp(gid, q))
    ensures Inv(kf, first, Perform(kf, first, y, ClientOp(gid, q)), chain)
  {
    var y' := Perform(kf, first, y, ClientOp(gid, q));
    ClientElsewhere(kf, y, y', gid, q);
    if St(y, gid, kf(q.key)) == Serving {
      ClientWorld(kf, y, y', chain, gid, kf(q.key));
    } else {
      SameWorld(kf, y, y', chain);
    }
    ClaimsStay(kf, first, y, chain, y', chain);
    forall k: nat ensures CtrlOk(kf, first, y', chain, CtrlOf(y', k)) {
      assert CtrlOk(kf, first, y', chain, CtrlOf(y, k));
    }
  }

  lemma StepInv(kf: KeyMap, first: Config, y: Sys, chain: seq<Config>, e: Event) returns (chain': seq<Config>)
    requires Inv(kf, first, y, chain) && Enabled(kf, y, e)
    ensures Inv(kf, first, Perform(kf, first, y, e), chain') && chain <= chain'
  {
    chain' := chain;
    match e
    case ExecPut(p) => chain' := PutInv(kf, first, y, chain, p);
    case ExecGroup(q) => GroupInv(kf, first, y, chain, q);
    case ClientOp(gid, q) => ClientInv(kf, first, y, chain, gid, q);
    case Ask(k) => AskInv(kf, first, y, chain, k);
    case InitConfig(_) => ReadingInv(kf, first, y, chain, e);
    case InitGoesOn(_) => ReadingInv(kf, first, y, chain, e);
    case InitPanics(_) => ReadingInv(kf, first, y, chain, e);
    case Recover(_) => ReadingInv(kf, first, y, chain, e);
    case Change(_, _) => ReadingInv(kf, first, y, chain, e);
    case SeeNext(_) => ReadingInv(kf, first, y, chain, e);
    case _ => MovingInv(kf, first, y, chain, e);
  }

  /** The chain of configurations recorded by each point of a run; it only grows. */
  lemma {:induction false} RunInv(kf: KeyMap, first: Config, run: seq<Sys>, events: seq<Event>, i: nat, j: nat)
    returns (early: seq<Config>, late: seq<Config>)
    requires IsRun(kf, first, run, events) && i <= j < |run|
    ensures Inv(kf, first, run[i], early) && Inv(kf, first, run[j], late) && early <= late
    decreases j
  {
    if j == 0 {
      InitInv(kf, first, run[0]);
      early, late := [first], [first];
    } else {
      var c;
      if i < j {
        early, c := RunInv(kf, first, run, events, i, j - 1);
      } else {
        early, c := RunInv(kf, first, run, events, j - 1, j - 1);
      }
      late := StepInv(kf, first, run[j - 1], c, events[j - 1]);
      if i == j { early := late; }
    }
  }

  // ---------------------------------------------------------------- ownership and configurations

  /** However many controllers run or stall, at most one group serves a shard. */
  lemma ExclusiveOwnership(kf: KeyMap, first: Config, run: seq<Sys>, events: seq<Event>, i: nat, s: nat, g: nat, h: nat)
    requires IsRun(kf, first, run, events) && i < |run| && s < NSHARDS
    ensures St(run[i], g, s) == Serving && St(run[i], h, s) == Serving ==> g == h
  {
    var _, chain := RunInv(kf, first, run, events, i, i);
    OneHolder(run[i], chain, s, g, h);
  }

  ghost predicate Unserved(y: Sys, s: nat, h: nat) {
    St(y, h, s) != Serving
  }

  /** A group holds a shard when it serves it, or keeps it frozen while nobody serves it. */
  ghost predicate Holds(y: Sys, s: nat, g: nat) {
    St(y, g, s) == Serving || (St(y, g, s) == Frozen && forall h: nat :: Unserved(y, s, h))
  }

  lemma SameHolder(y: Sys, y': Sys, s: nat, h: nat)
    requires forall g: nat :: St(y', g, s) == St(y, g, s)
    ensures Holds(y', s, h) <==> Holds(y, s, h)
  {
    assert forall g: nat :: Unserved(y', s, g) <==> Unserved(y, s, g);
  }

  lemma OneHolder(y: Sys, chain: seq<Config>, s: nat, g: nat, h: nat)
    requires ShardOk(y, chain, s)
    ensures Holds(y, s, g) && Holds(y, s, h) ==> g == h
  {
    var src, dst := Own(chain, Num(y), s), Own(chain, |chain|, s);
    if g != src && g != dst { assert Bystander(y, s, g, Num(y)); }
    if h != src && h != dst { assert Bystander(y, s, h, Num(y)); }
    assert Unserved(y, s, dst) || St(y, dst, s) == Serving;
  }

  lemma HolderIsAnEnd(y: Sys, chain: seq<Config>, s: nat, g: nat)
    requires ShardOk(y, chain, s) && Holds(y, s, g)
    ensures g == Own(chain, Num(y), s) || g == Own(chain, |chain|, s)
  {
    assert !Bystander(y, s, g, Num(y));
  }

  lemma SomeHolder(y: Sys, chain: seq<Config>, s: nat) returns (g: nat)
    requires ShardOk(y, chain, s)
    ensures Holds(y, s, g)
  {
    var src, dst := Own(chain, Num(y), s), Own(chain, |chain|, s);
    g := if St(y, dst, s) == Serving then dst else src;
    forall h: nat ensures g == dst || h == src || Unserved(y, s, h) {
      if h != src && h != dst { assert Bystander(y, s, h, Num(y)); }
    }
  }

  /** No shard is ever lost: exactly one group holds it at every moment. */
  lemma EveryShardHeldOnce(kf: KeyMap, first: Config, run: seq<Sys>, events: seq<Event>, i: nat, s: nat)
    returns (g: nat)
    requires IsRun(kf, first, run, events) && i < |run| && s < NSHARDS
    ensures g in run[i].groups && Holds(run[i], s, g)
    ensures forall h: nat :: Holds(run[i], s, h) ==> h == g
  {
    var _, chain := RunInv(kf, first, run, events, i, i);
    assert ShardOk(run[i], chain, s);
    g := SomeHolder(run[i], chain, s);
    forall h: nat | Holds(run[i], s, h) ensures h == g { OneHolder(run[i], chain, s, g, h); }
  }

  ghost predicate Stored(y: Sys, c: Config) {
    y.current.value == Some(c) || y.next.value == Some(c)
  }

  /** Each configuration number has one configuration, ever. */
  lemma OneConfigPerNumber(kf: KeyMap, first: Config, run: seq<Sys>, events: seq<Event>, i: nat, j: nat, c: Config,
                           d: Config)
    requires IsRun(kf, first, run, events) && i <= j < |run|
    requires Stored(run[i], c) && Stored(run[j], d) && c.num == d.num
    ensures c == d
  {
    var early, late := RunInv(kf, first, run, events, i, j);
    StoredInChain(first, run[i], early, c);
    StoredInChain(first, run[j], late, d);
  }

  lemma StoredInChain(first: Config, y: Sys, chain: seq<Config>, c: Config)
    requires IsChain(first, chain) && StoreOk(y, chain) && Stored(y, c)
    ensures 1 <= c.num <= |chain| && chain[c.num - 1] == c
  {
    assert Linked(chain, y.current.version) && Linked(chain, |chain|);
  }

  /** The next configuration is the current one or its successor; numbers equal the versions of the keys. */
  lemma NextAtMostOneAhead(kf: KeyMap, first: Config, run: seq<Sys>, events: seq<Event>, i: nat, c: Config, n: Config)
    requires IsRun(kf, first, run, events) && i < |run|
    requires run[i].current.value == Some(c) && run[i].next.value == Some(n)
    ensures c.num <= n.num <= c.num + 1 && c.num == run[i].current.version && n.num == run[i].next.version
    ensures c.num > 0 && (c.num == n.num ==> c == n)
  {
    var _, chain := RunInv(kf, first, run, events, i, i);
    assert Linked(chain, run[i].current.version) && Linked(chain, |chain|);
  }

  /** A key holds another configuration than the first exactly from its second version on. */
  lemma StillFirstIff(first: Config, y: Sys, chain: seq<Config>)
    requires IsChain(first, chain) && StoreOk(y, chain)
    ensures y.current.value.Some? && y.current.value != Some(first) <==> y.current.version >= 2
    ensures y.next.value.Some? && y.next.value != Some(first) <==> y.next.version >= 2
  {
    assert Linked(chain, y.current.version) && Linked(chain, |chain|);
  }

  /**
   When initialising panics: a controller that initialises a key finds another configuration there exactly when
   that key has been written at least twice, that is, once a later configuration has been recorded in it.
   */
  lemma InitPanicsIff(kf: KeyMap, first: Config, run: seq<Sys>, events: seq<Event>, i: nat, k: nat)
    requires IsRun(kf, first, run, events) && i < |run|
    ensures CtrlOf(run[i], k).InitCurrent? ==> (Enabled(kf, run[i], InitPanics(k)) <==> run[i].current.version >= 2)
    ensures CtrlOf(run[i], k).InitNext? ==> (Enabled(kf, run[i], InitPanics(k)) <==> run[i].next.version >= 2)
  {
    var _, chain := RunInv(kf, first, run, events, i, i);
    StillFirstIff(first, run[i], chain);
    assert CtrlOk(kf, first, run[i], chain, CtrlOf(run[i], k));
  }

  /**
   Whenever a pending delete would drop a shard's data, another group has already installed that shard
   for the same configuration number and serves it.
   */
  lemma DeletedOnlyAfterInstalled(kf: KeyMap, first: Config, run: seq<Sys>, events: seq<Event>, i: nat, q: GroupReq,
                                  s: nat, n: nat)
    returns (dst: nat)
    requires IsRun(kf, first, run, events) && i < |run| && q in run[i].reqs && q.op == Delete(s, n)
    requires St(run[i], q.gid, s) == Frozen && Ln(run[i], q.gid, s) == n
    ensures dst != q.gid && St(run[i], dst, s) == Serving && Ln(run[i], dst, s) == n
  {
    var y := run[i];
    var _, chain := RunInv(kf, first, run, events, i, i);
    assert ReqOk(kf, y, chain, q);
    Stale(y, chain, n, s);
    FrozenIsNewest(y, chain, q.gid, s);
    dst := Own(chain, n, s);
  }

  /** The empty state a repeated freeze may return never reaches a decoder. */
  lemma NothingIsNeverDecoded(kf: KeyMap, first: Config, run: seq<Sys>, events: seq<Event>, i: nat, q: GroupReq)
    requires IsRun(kf, first, run, events) && i < |run| && q in run[i].reqs && q.gid in run[i].groups
    ensures InRange(kf, q.op) && !DecodesNothing(run[i].groups[q.gid], q.op)
  {
    var _, chain := RunInv(kf, first, run, events, i, i);
    assert ReqOk(kf, run[i], chain, q) && WellFormed(run[i].groups[q.gid]);
    RequestHops(kf, run[i], RunGroup(kf, run[i], q), chain, q);
  }

  // ---------------------------------------------------------------- one map

  ghost predicate TruthAt(kf: KeyMap, y: Sys, t: Store, k: string, g: nat) {
    Holds(y, kf(k), g) ==> Lookup(Data(y, g), k) == Lookup(t, k)
  }

  /** `t` is what the service as a whole stores: for each key, what the holder of its shard stores. */
  ghost predicate IsTruth(kf: KeyMap, y: Sys, t: Store) {
    forall k: string, g: nat :: TruthAt(kf, y, t, k, g)
  }

  ghost predicate KeysInRange(kf: KeyMap) {
    forall k: string :: kf(k) < NSHARDS
  }

  /** The state determines the map. */
  lemma TheMapIsDetermined(kf: KeyMap, first: Config, run: seq<Sys>, events: seq<Event>, i: nat, t: Store, u: Store)
    requires IsRun(kf, first, run, events) && i < |run| && KeysInRange(kf)
    requires IsTruth(kf, run[i], t) && IsTruth(kf, run[i], u)
    ensures t == u
  {
    forall k: string ensures Lookup(t, k) == Lookup(u, k) {
      var g := EveryShardHeldOnce(kf, first, run, events, i, kf(k));
      assert TruthAt(kf, run[i], t, k, g) && TruthAt(kf, run[i], u, k, g);
    }
    forall k ensures k in t <==> k in u { assert Lookup(t, k) == Lookup(u, k); }
    forall k | k in t ensures t[k] == u[k] { assert Lookup(t, k) == Lookup(u, k); }
  }

  lemma SlicesAgree(kf: KeyMap, a: Store, b: Store, k: string)
    requires Slice(kf, a, kf(k)) == Slice(kf, b, kf(k))
    ensures Lookup(a, k) == Lookup(b, k)
  {
    assert k in Slice(kf, a, kf(k)) <==> k in a;
    assert k in Slice(kf, b, kf(k)) <==> k in b;
  }

  lemma HopHolder(kf: KeyMap, y: Sys, y': Sys, chain: seq<Config>, gid: nat, s: nat, h: nat) returns (g: nat)
    requires Hop(kf, y, y', chain, gid, s) && ShardOk(y, chain, s) && ShardOk(y', chain, s) && Holds(y', s, h)
    ensures Holds(y, s, g) && Slice(kf, Data(y, g), s) == Slice(kf, Data(y', h), s)
  {
    g := SomeHolder(y, chain, s);
    var src, dst := Own(chain, Num(y), s), Own(chain, |chain|, s);
    var h' := SomeHolder(y', chain, s);
    OneHolder(y', chain, s, h, h');
    assert Unserved(y, s, dst) || St(y, dst, s) == Serving;
    assert Unserved(y', s, dst) || St(y', dst, s) == Serving;
    HolderIsAnEnd(y', chain, s, h);
    HolderIsAnEnd(y, chain, s, g);
    if gid != dst { assert Same(kf, y, y', dst, s); }
    if gid != src { assert Same(kf, y, y', src, s); }
  }

  /** Freezing, installing and deleting never change the map. */
  lemma HopTruth(kf: KeyMap, y: Sys, y': Sys, chain: seq<Config>, gid: nat, s: nat, t: Store)
    requires Hop(kf, y, y', chain, gid, s) && ShardOk(y, chain, s) && ShardOk(y', chain, s) && IsTruth(kf, y, t)
    ensures IsTruth(kf, y', t)
  {
    forall k: string, h: nat | Holds(y', kf(k), h) ensures TruthAt(kf, y', t, k, h) {
      if kf(k) == s {
        var g := HopHolder(kf, y, y', chain, gid, s, h);
        assert TruthAt(kf, y, t, k, g);
        SlicesAgree(kf, Data(y, g), Data(y', h), k);
      } else {
        assert Same(kf, y, y', h, kf(k));
        forall g: nat ensures St(y', g, kf(k)) == St(y, g, kf(k)) { assert Same(kf, y, y', g, kf(k)); }
        SameHolder(y, y', kf(k), h);
        assert TruthAt(kf, y, t, k, h);
        SlicesAgree(kf, Data(y, h), Data(y', h), k);
      }
    }
  }

  /**
   What an event means for the one map: a client request is refused exactly when the group does not serve its shard,
   and is executed on the map otherwise; nothing else shows.
   */
  ghost predicate Effect(kf: KeyMap, y: Sys, e: Event, t: Store, t': Store)
    requires Enabled(kf, y, e)
  {
    if e.ClientOp? then
      var r := DoClient(kf, y.groups[e.gid], e.q).1;
      && (WrongGroup(r) <==> St(y, e.gid, kf(e.q.key)) != Serving)
      && if WrongGroup(r) then t' == t else Execute(t, e.q) == (t', r)
    else t' == t
  }

  lemma ExecuteAgrees(a: Store, t: Store, q: Request)
    requires Lookup(a, q.key) == Lookup(t, q.key)
    ensures Execute(a, q).1 == Execute(t, q).1 && !WrongGroup(Execute(t, q).1)
    ensures Lookup(Execute(a, q).0, q.key) == Lookup(Execute(t, q).0, q.key)
    ensures forall k :: k != q.key ==>
        Lookup(Execute(a, q).0, k) == Lookup(a, k) && Lookup(Execute(t, q).0, k) == Lookup(t, k)
  {
  }

  lemma ClientTruth(kf: KeyMap, y: Sys, y': Sys, chain: seq<Config>, gid: nat, q: Request, t: Store) returns (t': Store)
    requires ShardsOk(y, chain) && IsTruth(kf, y, t) && gid in y.groups && WellFormed(y.groups[gid])
        && kf(q.key) < NSHARDS
    requires y'.current == y.current && y'.groups == y.groups[gid := DoClient(kf, y.groups[gid], q).0]
    ensures IsTruth(kf, y', t') && Effect(kf, y, ClientOp(gid, q), t, t')
  {
    var s := kf(q.key);
    ClientElsewhere(kf, y, y', gid, q);
    if St(y, gid, s) != Serving {
      t' := t;
      forall k: string, h: nat ensures TruthAt(kf, y', t, k, h) {
        SameHolder(y, y', kf(k), h);
        assert TruthAt(kf, y, t, k, h);
      }
    } else {
      t' := Execute(t, q).0;
      assert Holds(y, s, gid) && ShardOk(y, chain, s);
      assert TruthAt(kf, y, t, q.key, gid);
      ExecuteAgrees(Data(y, gid), t, q);
      forall k: string, h: nat ensures TruthAt(kf, y', t', k, h) {
        SameHolder(y, y', kf(k), h);
        assert TruthAt(kf, y, t, k, h);
        if kf(k) == s { OneHolder(y, chain, s, h, gid); }
      }
    }
  }

  lemma SameGroupsTruth(kf: KeyMap, y: Sys, y': Sys, t: Store)
    requires IsTruth(kf, y, t) && y'.groups == y.groups
    ensures IsTruth(kf, y', t)
  {
    forall k: string, h: nat ensures TruthAt(kf, y', t, k, h) {
      SameHolder(y, y', kf(k), h);
      assert TruthAt(kf, y, t, k, h);
    }
  }

  lemma GroupTruth(kf: KeyMap, first: Config, y: Sys, chain: seq<Config>, q: GroupReq, t: Store)
    requires Inv(kf, first, y, chain) && Enabled(kf, y, ExecGroup(q)) && IsTruth(kf, y, t)
    ensures IsTruth(kf, RunGroup(kf, y, q), t)
  {
    var y', s := RunGroup(kf, y, q), ShardOf(q.op);
    assert ReqOk(kf, y, chain, q);
    RequestHops(kf, y, y', chain, q);
    if y'.groups == y.groups {
      SameGroupsTruth(kf, y, y', t);
    } else {
      assert s < NSHARDS && ShardOk(y, chain, s);
      HopShardOk(kf, y, y', chain, q.gid, s);
      HopTruth(kf, y, y', chain, q.gid, s, t);
    }
  }

  lemma StepTruth(kf: KeyMap, first: Config, y: Sys, chain: seq<Config>, e: Event, t: Store) returns (t': Store)
    requires Inv(kf, first, y, chain) && Enabled(kf, y, e) && IsTruth(kf, y, t)
    ensures IsTruth(kf, Perform(kf, first, y, e), t') && Effect(kf, y, e, t, t')
  {
    t' := t;
    match e
    case ExecGroup(q) => GroupTruth(kf, first, y, chain, q, t);
    case ClientOp(gid, q) => t' := ClientTruth(kf, y, Perform(kf, first, y, e), chain, gid, q, t);
    case _ => SameGroupsTruth(kf, y, Perform(kf, first, y, e), t);
  }

  /**
   The sharded service is one versioned map.  Along every run there is a map, empty at first and determined
   by each state, that only accepted client requests change: each is answered and takes effect exactly as the
   map alone would do it.  Freezes, installs, deletes, their repeats and every controller step leave it alone.
   */
  lemma RefinesOneMap(kf: KeyMap, first: Config, run: seq<Sys>, events: seq<Event>)
    returns (truths: seq<Store>)
    requires IsRun(kf, first, run, events)
    ensures |truths| == |run| && truths[0] == map[]
    ensures forall i :: 0 <= i < |run| ==> IsTruth(kf, run[i], truths[i])
    ensures forall i :: 0 <= i < |events| ==> Effect(kf, run[i], events[i], truths[i], truths[i + 1])
  {
    truths := TruthsUpTo(kf, first, run, events, |events|);
  }

  lemma {:induction false} TruthsUpTo(kf: KeyMap, first: Config, run: seq<Sys>, events: seq<Event>, n: nat)
    returns (truths: seq<Store>)
    requires IsRun(kf, first, run, events) && n <= |events|
    ensures |truths| == n + 1 && truths[0] == map[]
    ensures forall i :: 0 <= i <= n ==> IsTruth(kf, run[i], truths[i])
    ensures forall i :: 0 <= i < n ==> Effect(kf, run[i], events[i], truths[i], truths[i + 1])
    decreases n
  {
    if n == 0 {
      truths := [map[]];
      forall k: string, g: nat ensures TruthAt(kf, run[0], map[], k, g) {}
    } else {
      truths := TruthsUpTo(kf, first, run, events, n - 1);
      var _, chain := RunInv(kf, first, run, events, n - 1, n - 1);
      var t := StepTruth(kf, first, run[n - 1], chain, events[n - 1], truths[n - 1]);
      truths := truths + [t];
    }
  }
}
