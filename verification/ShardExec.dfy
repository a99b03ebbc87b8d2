/**
 The configuration store and the shard groups executing requests, late or repeated ones included, keep the invariant.
 */
module ShardExec {
  import opened Common
  import opened VersionedStore
  import opened ShardGroup
  import opened ShardMigration
  import opened ShardSafety
  import opened ShardSteps

  // ---------------------------------------------------------------- writes to the two configuration keys

  /** Recording a new configuration as the next one starts a change in which nothing has happened yet. */
  lemma ChainGrowsShards(y: Sys, y': Sys, chain: seq<Config>, cfg: Config)
    requires y'.groups == y.groups && y'.current == y.current && |chain| == Num(y) && ShardsOk(y, chain)
    ensures ShardsOk(y', chain + [cfg])
  {
    var chain' := chain + [cfg];
    forall s: nat | s < NSHARDS ensures ShardOk(y', chain', s) {
      assert ShardOk(y, chain, s);
      assert Own(chain', Num(y), s) == Own(chain, Num(y), s);
      forall g: nat | g != Own(chain', Num(y'), s) ensures Bystander(y', s, g, Num(y')) {
        assert Bystander(y, s, g, Num(y));
      }
      if Own(chain', |chain'|, s) != Own(chain', Num(y'), s) {
        assert Bystander(y', s, Own(chain', |chain'|, s), Num(y'));
      }
    }
    forall n: nat, s: nat ensures PastOk(y', chain', n, s) {
      assert PastOk(y, chain, n, s);
      if n <= Num(y') && Moved(chain', n, s) {
        assert Own(chain', n, s) == Own(chain, n, s) && Own(chain', n - 1, s) == Own(chain, n - 1, s);
      }
    }
  }

  lemma ChainGrowsMoves(kf: KeyMap, y: Sys, y': Sys, chain: seq<Config>, cfg: Config)
    requires y'.groups == y.groups && y'.current == y.current
    ensures Advances(kf, y, chain, y', chain + [cfg])
  {
    var chain' := chain + [cfg];
    forall n: nat, s: nat ensures MoveAdvances(kf, y, chain, y', chain', n, s) {
      if Moved(chain, n, s) {
        assert Own(chain', n, s) == Own(chain, n, s) && Own(chain', n - 1, s) == Own(chain, n - 1, s);
      }
    }
  }

  /** Publishing a configuration ends a change whose every move is complete. */
  lemma PublishShards(y: Sys, y': Sys, chain: seq<Config>)
    requires y'.groups == y.groups && Num(y') == Num(y) + 1 == |chain|
    requires ShardsOk(y, chain) && AllGone(y, chain, |chain|)
    ensures ShardsOk(y', chain)
  {
    var c := Num(y);
    forall s: nat | s < NSHARDS ensures ShardOk(y', chain, s) {
      assert ShardOk(y, chain, s) && GoneIfMoved(y, chain, c + 1, s);
      forall g: nat | g != Own(chain, |chain|, s) ensures Bystander(y', s, g, Num(y')) {
        if g != Own(chain, c, s) { assert Bystander(y, s, g, c); }
      }
    }
    forall n: nat, s: nat ensures PastOk(y', chain, n, s) {
      assert PastOk(y, chain, n, s) && GoneIfMoved(y, chain, c + 1, s);
    }
  }

  lemma PublishMoves(kf: KeyMap, y: Sys, y': Sys, chain: seq<Config>)
    requires y'.groups == y.groups && y.current.version <= y'.current.version
    ensures Advances(kf, y, chain, y', chain)
  {
    forall n: nat, s: nat ensures MoveAdvances(kf, y, chain, y', chain, n, s) {}
  }

  /** Everything else follows once the shards are fine and nothing established was undone. */
  lemma GrantedClaims(kf: KeyMap, first: Config, y: Sys, chain: seq<Config>, y': Sys, chain': seq<Config>, p: Cas)
    requires IsChain(first, chain) && ClaimsOk(kf, first, y, chain) && Advances(kf, y, chain, y', chain')
        && GrantOk(chain', p)
    requires y'.reqs == y.reqs && y'.reps == y.reps && y'.puts == y.puts && y'.ctrls == y.ctrls
        && y'.granted == y.granted + [p]
    ensures ClaimsOk(kf, first, y', chain')
  {
    ClaimsStay(kf, first, y, chain, y', chain');
    forall k: nat ensures CtrlOk(kf, first, y', chain', CtrlOf(y', k)) {
      assert CtrlOk(kf, first, y', chain', CtrlOf(y, k));
    }
  }

  /**
   A write to either configuration key, however late, keeps the invariant.  The chain of configurations
   only ever grows, and grows only when the write to the next key succeeds.
   */
  lemma PutInv(kf: KeyMap, first: Config, y: Sys, chain: seq<Config>, p: Cas) returns (chain': seq<Config>)
    requires Inv(kf, first, y, chain) && p in y.puts
    ensures Inv(kf, first, RunPut(y, p), chain') && chain <= chain'
  {
    chain' := chain;
    assert PutOk(first, y, chain, p);
    if p.version == (if p.which == Current then y.current else y.next).version {
      match p.which {
        case Current => CurrentInv(kf, first, y, chain, p);
        case Next => chain' := NextInv(kf, first, y, chain, p);
      }
    }
  }

  lemma CurrentInv(kf: KeyMap, first: Config, y: Sys, chain: seq<Config>, p: Cas)
    requires Inv(kf, first, y, chain) && PutOk(first, y, chain, p) && p.which == Current
        && p.version == y.current.version
    ensures Inv(kf, first, RunPut(y, p), chain)
  {
    var y' := RunPut(y, p);
    PublishMoves(kf, y, y', chain);
    if p.version == 0 {
      StartShards(y, y', chain);
    } else {
      PublishShards(y, y', chain);
    }
    GrantedClaims(kf, first, y, chain, y', chain, p);
  }

  lemma StartShards(y: Sys, y': Sys, chain: seq<Config>)
    requires y'.groups == y.groups && Num(y') == Num(y) && ShardsOk(y, chain)
    ensures ShardsOk(y', chain)
  {
    forall s: nat | s < NSHARDS ensures ShardOk(y', chain, s) {
      assert ShardOk(y, chain, s);
      forall g: nat | g != Own(chain, Num(y), s) && g != Own(chain, |chain|, s) ensures Bystander(y', s, g, Num(y')) {
        assert Bystander(y, s, g, Num(y));
      }
    }
    forall n: nat, s: nat ensures PastOk(y', chain, n, s) { assert PastOk(y, chain, n, s); }
  }

  lemma ChainGrows(first: Config, chain: seq<Config>, cfg: Config)
    requires IsChain(first, chain) && cfg.num == |chain| + 1 && |cfg.shards| == NSHARDS
    ensures IsChain(first, chain + [cfg])
  {
    forall n: nat ensures Linked(chain + [cfg], n) { assert Linked(chain, n); }
  }

  lemma NextInv(kf: KeyMap, first: Config, y: Sys, chain: seq<Config>, p: Cas) returns (chain': seq<Config>)
    requires Inv(kf, first, y, chain) && PutOk(first, y, chain, p) && p.which == Next && p.version == y.next.version
    ensures Inv(kf, first, RunPut(y, p), chain') && chain <= chain'
  {
    var y' := RunPut(y, p);
    if p.version == 0 {
      chain' := chain;
      SameWorld(kf, y, y', chain);
    } else {
      chain' := chain + [p.value];
      ChainGrows(first, chain, p.value);
      ChainGrowsShards(y, y', chain, p.value);
      ChainGrowsMoves(kf, y, y', chain, p.value);
    }
    GrantedClaims(kf, first, y, chain, y', chain', p);
  }

  // ---------------------------------------------------------------- what one group's step leaves alone

  ghost predicate Same(kf: KeyMap, y: Sys, y': Sys, g: nat, x: nat) {
    St(y', g, x) == St(y, g, x) && Ln(y', g, x) == Ln(y, g, x) && Slice(kf, Data(y', g), x) == Slice(kf, Data(y, g), x)
  }

  /** Only shard `s` of group `gid` is touched. */
  ghost predicate SameElsewhere(kf: KeyMap, y: Sys, y': Sys, gid: nat, s: nat) {
    && y'.current == y.current && GroupsOk(y')
    && forall g: nat, x: nat :: g != gid || x != s ==> Same(kf, y, y', g, x)
  }

  lemma OtherShard(kf: KeyMap, y: Sys, y': Sys, chain: seq<Config>, gid: nat, s: nat, x: nat)
    requires SameElsewhere(kf, y, y', gid, s) && x != s
    ensures ShardOk(y, chain, x) ==> ShardOk(y', chain, x)
    ensures forall n: nat :: MoveAdvances(kf, y, chain, y', chain, n, x)
    ensures forall n: nat :: PastOk(y, chain, n, x) ==> PastOk(y', chain, n, x)
  {
    assert forall g: nat :: Same(kf, y, y', g, x);
    if ShardOk(y, chain, x) {
      var src, dst := Own(chain, Num(y), x), Own(chain, |chain|, x);
      assert Same(kf, y, y', src, x) && Same(kf, y, y', dst, x);
      forall g: nat | g != src && g != dst ensures Bystander(y', x, g, Num(y')) {
        assert Same(kf, y, y', g, x) && Bystander(y, x, g, Num(y));
      }
    }
    forall n: nat ensures MoveAdvances(kf, y, chain, y', chain, n, x) {
      assert Same(kf, y, y', Own(chain, n, x), x);
      if n > 0 { assert Same(kf, y, y', Own(chain, n - 1, x), x); }
    }
    forall n: nat ensures PastOk(y, chain, n, x) ==> PastOk(y', chain, n, x) {
      assert Same(kf, y, y', Own(chain, n, x), x);
      if n > 0 { assert Same(kf, y, y', Own(chain, n - 1, x), x); }
    }
  }

  // ---------------------------------------------------------------- the life of a moving shard

  /** One effective request takes the shard from one phase to the next, with its contents. */
  ghost predicate PhaseStep(kf: KeyMap, y: Sys, y': Sys, gid: nat, s: nat, src: nat, dst: nat, c: nat) {
    || (gid == src && InPhase(y, s, src, dst, c, Untouched) && InPhase(y', s, src, dst, c, FrozenAtSource)
        && Slice(kf, Data(y', src), s) == Slice(kf, Data(y, src), s))
    || (gid == dst && InPhase(y, s, src, dst, c, FrozenAtSource) && InPhase(y', s, src, dst, c, AtBoth)
        && Slice(kf, Data(y', dst), s) == Slice(kf, Data(y, src), s))
    || (gid == src && InPhase(y, s, src, dst, c, AtBoth) && InPhase(y', s, src, dst, c, HandedOver)
        && Slice(kf, Data(y', dst), s) == Slice(kf, Data(y, dst), s))
  }

  /** The touched shard is the one being moved, and takes one step. */
  ghost predicate Hop(kf: KeyMap, y: Sys, y': Sys, chain: seq<Config>, gid: nat, s: nat) {
    var src, dst := Own(chain, Num(y), s), Own(chain, |chain|, s);
    && SameElsewhere(kf, y, y', gid, s) && |chain| == Num(y) + 1 && src != dst
    && PhaseStep(kf, y, y', gid, s, src, dst, Num(y))
  }

  lemma HopShardOk(kf: KeyMap, y: Sys, y': Sys, chain: seq<Config>, gid: nat, s: nat)
    requires Hop(kf, y, y', chain, gid, s) && ShardOk(y, chain, s)
    ensures ShardOk(y', chain, s)
  {
    var src, dst := Own(chain, Num(y), s), Own(chain, |chain|, s);
    forall g: nat | g != src && g != dst ensures Bystander(y', s, g, Num(y')) {
      assert Same(kf, y, y', g, s) && Bystander(y, s, g, Num(y));
    }
  }

  lemma HopPast(kf: KeyMap, y: Sys, y': Sys, chain: seq<Config>, gid: nat, s: nat, n: nat)
    requires Hop(kf, y, y', chain, gid, s) && PastOk(y, chain, n, s)
    ensures PastOk(y', chain, n, s)
  {
    assert Same(kf, y, y', Own(chain, n, s), s) || Own(chain, n, s) == gid;
    if n > 0 { assert Same(kf, y, y', Own(chain, n - 1, s), s) || Own(chain, n - 1, s) == gid; }
  }

  lemma HopMoves(kf: KeyMap, y: Sys, y': Sys, chain: seq<Config>, gid: nat, s: nat, n: nat)
    requires Hop(kf, y, y', chain, gid, s)
    ensures MoveAdvances(kf, y, chain, y', chain, n, s)
  {
    if n == |chain| {
      assert n - 1 == Num(y);
    }
  }

  lemma HopWorld(kf: KeyMap, y: Sys, y': Sys, chain: seq<Config>, gid: nat, s: nat)
    requires ShardsOk(y, chain) && Hop(kf, y, y', chain, gid, s)
    ensures ShardsOk(y', chain) && Advances(kf, y, chain, y', chain)
  {
    forall x: nat | x < NSHARDS ensures ShardOk(y', chain, x) {
      assert ShardOk(y, chain, x);
      if x == s { HopShardOk(kf, y, y', chain, gid, s); } else { OtherShard(kf, y, y', chain, gid, s, x); }
    }
    forall n: nat, x: nat ensures PastOk(y', chain, n, x) {
      assert PastOk(y, chain, n, x);
      if x == s { HopPast(kf, y, y', chain, gid, s, n); } else { OtherShard(kf, y, y', chain, gid, s, x); }
    }
    forall n: nat, x: nat ensures MoveAdvances(kf, y, chain, y', chain, n, x) {
      if x == s { HopMoves(kf, y, y', chain, gid, s, n); } else { OtherShard(kf, y, y', chain, gid, s, x); }
    }
  }

  // ---------------------------------------------------------------- requests executed by a group

  /** What a group's step must leave alone for the lemmas above to apply. */
  lemma UpdateElsewhere(kf: KeyMap, y: Sys, y': Sys, gid: nat, s: nat, g': Group)
    requires GroupsOk(y) && gid in y.groups && WellFormed(g') && y'.current == y.current
        && y'.groups == y.groups[gid := g']
    requires forall x: nat :: x < NSHARDS && x != s ==>
        g'.status[x] == y.groups[gid].status[x] && g'.lastNum[x] == y.groups[gid].lastNum[x]
    requires forall k :: kf(k) != s ==> Lookup(g'.data, k) == Lookup(y.groups[gid].data, k)
    ensures SameElsewhere(kf, y, y', gid, s)
  {
    forall g: nat, x: nat | g != gid || x != s ensures Same(kf, y, y', g, x) {
      if g == gid {
        var a, b := Slice(kf, Data(y', g), x), Slice(kf, Data(y, g), x);
        forall k ensures k in a <==> k in b {
          assert kf(k) == x ==> Lookup(g'.data, k) == Lookup(y.groups[gid].data, k);
        }
        forall k | k in a ensures a[k] == b[k] {
          assert kf(k) == x ==> Lookup(g'.data, k) == Lookup(y.groups[gid].data, k);
        }
        assert a == b;
      }
    }
  }

  /** A request for a finished change finds both ends already past it. */
  lemma Stale(y: Sys, chain: seq<Config>, n: nat, s: nat)
    requires StoreOk(y, chain) && ShardsOk(y, chain) && Moved(chain, n, s)
    ensures n <= Num(y) ==> Ln(y, Own(chain, n - 1, s), s) >= n && Ln(y, Own(chain, n, s), s) >= n
    ensures n > Num(y) ==> n == |chain| == Num(y) + 1 && PhaseOk(y, s, Own(chain, n - 1, s), Own(chain, n, s), n - 1)
    ensures ShardOk(y, chain, s)
  {
    assert PastOk(y, chain, n, s) && ShardOk(y, chain, s);
  }

  /** A frozen shard has seen a number beyond the current one. */
  lemma FrozenIsNewest(y: Sys, chain: seq<Config>, g: nat, s: nat)
    requires ShardOk(y, chain, s) && St(y, g, s) == Frozen
    ensures Ln(y, g, s) > Num(y)
  {
    assert !Bystander(y, s, g, Num(y));
  }

  lemma FreezeStep(kf: KeyMap, y: Sys, y': Sys, chain: seq<Config>, gid: nat, s: nat, n: nat)
    requires StoreOk(y, chain) && ShardsOk(y, chain) && ReqOk(kf, y, chain, GroupReq(gid, Freeze(s, n)))
        && gid in y.groups
    requires y'.current == y.current && y'.groups == y.groups[gid := DoFreeze(kf, y.groups[gid], s, n).0]
    ensures y'.groups == y.groups || Hop(kf, y, y', chain, gid, s)
    ensures RepOk(kf, y', chain, GroupRep(gid, Freeze(s, n), DoFreeze(kf, y.groups[gid], s, n).1))
  {
    Stale(y, chain, n, s);
    var (g', r) := DoFreeze(kf, y.groups[gid], s, n);
    if g' == y.groups[gid] {
      assert y'.groups == y.groups;
    } else {
      UpdateElsewhere(kf, y, y', gid, s, g');
      assert Same(kf, y, y', Own(chain, n, s), s);
    }
  }

  lemma DeleteStep(kf: KeyMap, y: Sys, y': Sys, chain: seq<Config>, gid: nat, s: nat, n: nat)
    requires StoreOk(y, chain) && ShardsOk(y, chain) && ReqOk(kf, y, chain, GroupReq(gid, Delete(s, n)))
        && gid in y.groups
    requires y'.current == y.current && y'.groups == y.groups[gid := DoDelete(kf, y.groups[gid], s, n).0]
    ensures y'.groups == y.groups || Hop(kf, y, y', chain, gid, s)
    ensures RepOk(kf, y', chain, GroupRep(gid, Delete(s, n), DoDelete(kf, y.groups[gid], s, n).1))
  {
    Stale(y, chain, n, s);
    var (g', r) := DoDelete(kf, y.groups[gid], s, n);
    if g' == y.groups[gid] {
      assert y'.groups == y.groups;
    } else {
      FrozenIsNewest(y, chain, gid, s);
      UpdateElsewhere(kf, y, y', gid, s, g');
      assert Same(kf, y, y', Own(chain, n, s), s);
    }
  }

  lemma InstalledSlice(kf: KeyMap, st: Store, s: nat, d: Store)
    requires Slice(kf, d, s) == d
    ensures Slice(kf, Without(kf, st, s) + d, s) == d
    ensures forall k :: kf(k) != s ==> Lookup(Without(kf, st, s) + d, k) == Lookup(st, k)
  {
    var all := Without(kf, st, s) + d;
    forall k ensures k in Slice(kf, all, s) <==> k in d { assert k in d <==> k in Slice(kf, d, s); }
    forall k | kf(k) != s ensures Lookup(all, k) == Lookup(st, k) { assert k !in Slice(kf, d, s); }
  }

  lemma SliceTwice(kf: KeyMap, st: Store, s: nat)
    ensures Slice(kf, Slice(kf, st, s), s) == Slice(kf, st, s)
  {
  }

  /** An install that takes effect carries the frozen source's copy of the shard. */
  lemma InstallHops(kf: KeyMap, y: Sys, y': Sys, chain: seq<Config>, gid: nat, s: nat, d: Option<Store>, n: nat)
    requires StoreOk(y, chain) && ShardsOk(y, chain) && ReqOk(kf, y, chain, GroupReq(gid, Install(s, d, n)))
        && gid in y.groups
    requires y'.current == y.current && y'.groups == y.groups[gid := DoInstall(kf, y.groups[gid], s, d, n).0]
    requires n > Ln(y, gid, s) && St(y, gid, s) == Absent
    ensures d.Some? && Hop(kf, y, y', chain, gid, s) && Installed(y', chain, n, s)
  {
    Stale(y, chain, n, s);
    var src := Own(chain, n - 1, s);
    SliceTwice(kf, Data(y, src), s);
    InstalledSlice(kf, y.groups[gid].data, s, d.value);
    UpdateElsewhere(kf, y, y', gid, s, DoInstall(kf, y.groups[gid], s, d, n).0);
    assert Same(kf, y, y', src, s);
  }

  lemma InstallStep(kf: KeyMap, y: Sys, y': Sys, chain: seq<Config>, gid: nat, s: nat, d: Option<Store>, n: nat)
    requires StoreOk(y, chain) && ShardsOk(y, chain) && ReqOk(kf, y, chain, GroupReq(gid, Install(s, d, n)))
        && gid in y.groups
    requires y'.current == y.current && y'.groups == y.groups[gid := DoInstall(kf, y.groups[gid], s, d, n).0]
    ensures !DecodesNothing(y.groups[gid], Install(s, d, n))
    ensures y'.groups == y.groups || Hop(kf, y, y', chain, gid, s)
    ensures RepOk(kf, y', chain, GroupRep(gid, Install(s, d, n), DoInstall(kf, y.groups[gid], s, d, n).1))
  {
    if n > Ln(y, gid, s) && St(y, gid, s) == Absent {
      InstallHops(kf, y, y', chain, gid, s, d, n);
    } else {
      assert y'.groups == y.groups;
      Stale(y, chain, n, s);
    }
  }
}
