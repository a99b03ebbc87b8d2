/** Configurations and their rebalancing: fewest moves, even loads, every shard on a member group. */
module Rebalancing {
  import opened Assignments
  import Common
  import opened ShardGroup

  // ---------------------------------------------------------------- one reassignment

  lemma LoadUpdate(x: Assignment, s: nat, g: int, h: int)
    requires s < |x| && x[s] != g
    ensures Load(x[s := g], h) == if h == g then Load(x, h) + 1 else if h == x[s] then Load(x, h) - 1 else Load(x, h)
  {
    LoadBalance(x, x[s := g], h);
    OneWayUpdate(x, x, s, g, h);
    assert Arrived(x, x, h) == {} && Departed(x, x, h) == {};
  }

  lemma ChangedUpdate(a: Assignment, x: Assignment, s: nat, g: int)
    requires |a| == |x| && s < |x| && x[s] == a[s] && g != a[s]
    ensures s !in Changed(a, x) && Changed(a, x[s := g]) == Changed(a, x) + {s}
  {
  }

  lemma OneWayUpdate(a: Assignment, x: Assignment, s: nat, g: int, h: int)
    requires |a| == |x| && s < |x| && x[s] == a[s] && g != a[s]
    ensures Arrived(a, x[s := g], h) == if h == g then Arrived(a, x, h) + {s} else Arrived(a, x, h)
    ensures Departed(a, x[s := g], h) == if h == a[s] then Departed(a, x, h) + {s} else Departed(a, x, h)
  {
  }

  // ---------------------------------------------------------------- what both phases keep

  /** Groups that gained are at most one above the smallest load. */
  ghost predicate GainersLow(a: Assignment, b: Assignment, groups: set<int>) {
    forall g, h :: g in groups && h in groups && Load(b, g) > Load(a, g) ==> Load(b, g) <= Load(b, h) + 1
  }

  /** Groups that lost are at most one below the largest load. */
  ghost predicate LosersHigh(a: Assignment, b: Assignment, groups: set<int>) {
    forall g, h :: g in groups && h in groups && Load(b, g) < Load(a, g) ==> Load(b, h) <= Load(b, g) + 1
  }

  ghost predicate Progress(a: Assignment, b: Assignment, groups: set<int>) {
    && |a| == |b| && AllOneWay(a, b, groups) && GainersLow(a, b, groups) && LosersHigh(a, b, groups)
    && (Even(b, groups) ==> Frugal(a, b, groups))
  }

  ghost predicate Keeps(a: Assignment, b: Assignment, groups: set<int>) {
    |a| == |b| && forall s: nat :: s < |a| && a[s] in groups ==> b[s] == a[s]
  }

  /** Giving a shard without a member group to a least loaded group. */
  lemma AdoptOrphan(a: Assignment, b: Assignment, groups: set<int>, s: nat, lg: int)
    requires Keeps(a, b, groups) && GainersLow(a, b, groups) && s < |a| && a[s] !in groups && b[s] == a[s]
    requires lg in groups && AtFloor(b, groups, lg)
    ensures Keeps(a, b[s := lg], groups) && GainersLow(a, b[s := lg], groups)
  {
    forall h ensures Load(b[s := lg], h) == if h == lg then Load(b, h) + 1 else if h == b[s] then Load(b, h) - 1
        else Load(b, h) {
      LoadUpdate(b, s, lg, h);
    }
  }

  /** After the first phase nobody has lost anything. */
  lemma OrphansAdopted(a: Assignment, b: Assignment, groups: set<int>)
    requires Keeps(a, b, groups) && GainersLow(a, b, groups)
    ensures Progress(a, b, groups)
  {
    forall g | g in groups ensures Departed(a, b, g) == {} && Load(b, g) >= Load(a, g) {
      assert Departed(a, b, g) == {};
      LoadBalance(a, b, g);
    }
  }

  /** A group that did not gain holds only shards it started with; one that did not lose holds all of those. */
  lemma NotGainedNotLost(a: Assignment, b: Assignment, g: int)
    requires |a| == |b| && OneWay(a, b, g)
    ensures Load(b, g) <= Load(a, g) ==> Arrived(a, b, g) == {}
    ensures Load(b, g) >= Load(a, g) ==> Departed(a, b, g) == {}
  {
    LoadBalance(a, b, g);
  }

  /** A shard taken from a most loaded group has never been moved before. */
  lemma FirstMove(a: Assignment, b: Assignment, groups: set<int>, s: nat, lg: int)
    requires Progress(a, b, groups) && s < |b| && b[s] in groups && lg in groups && Load(b, b[s]) >= Load(b, lg) + 2
    ensures a[s] == b[s] && Load(b, b[s]) <= Load(a, b[s])
  {
    assert OneWay(a, b, b[s]);
    NotGainedNotLost(a, b, b[s]);
    assert s !in Arrived(a, b, b[s]);
  }

  lemma MoveOneWay(a: Assignment, b: Assignment, groups: set<int>, s: nat, lg: int)
    requires Progress(a, b, groups) && s < |b| && b[s] in groups && lg in groups && Load(b, b[s]) >= Load(b, lg) + 2
    ensures AllOneWay(a, b[s := lg], groups)
  {
    FirstMove(a, b, groups, s, lg);
    var b' := b[s := lg];
    forall g | g in groups ensures OneWay(a, b', g) {
      assert OneWay(a, b, g);
      OneWayUpdate(a, b, s, lg, g);
      NotGainedNotLost(a, b, g);
    }
  }

  ghost predicate Moved(b: Assignment, b': Assignment, mg: int, lg: int) {
    && Load(b', mg) == Load(b, mg) - 1 && Load(b', lg) == Load(b, lg) + 1
    && forall h :: h != mg && h != lg ==> Load(b', h) == Load(b, h)
  }

  lemma MoveLoads(a: Assignment, b: Assignment, b': Assignment, groups: set<int>, mg: int, lg: int)
    requires Moved(b, b', mg, lg) && mg in groups && lg in groups && AtCeiling(b, groups, mg) && AtFloor(b, groups, lg)
    requires Load(b, mg) >= Load(b, lg) + 2 && GainersLow(a, b, groups) && LosersHigh(a, b, groups)
    ensures GainersLow(a, b', groups) && LosersHigh(a, b', groups)
    ensures Even(b', groups) ==> Frugal(a, b', groups)
  {
  }

  /** Moving one shard from a most to a least loaded group that has at least two fewer. */
  lemma MoveOne(a: Assignment, b: Assignment, groups: set<int>, s: nat, lg: int)
    requires Progress(a, b, groups) && s < |b| && b[s] in groups && lg in groups
    requires AtCeiling(b, groups, b[s]) && AtFloor(b, groups, lg) && Load(b, b[s]) >= Load(b, lg) + 2
    ensures Progress(a, b[s := lg], groups)
    ensures s !in Changed(a, b) && Changed(a, b[s := lg]) == Changed(a, b) + {s}
  {
    FirstMove(a, b, groups, s, lg);
    MoveOneWay(a, b, groups, s, lg);
    ChangedUpdate(a, b, s, lg);
    forall h ensures Load(b[s := lg], h) == if h == lg then Load(b, h) + 1 else if h == b[s] then Load(b, h) - 1
        else Load(b, h) {
      LoadUpdate(b, s, lg, h);
    }
    MoveLoads(a, b, b[s := lg], groups, b[s], lg);
  }

  // ---------------------------------------------------------------- configurations

  datatype Outcome = Done | Refused | Fatal

  lemma LoadPrefix(x: Assignment, i: nat, g: int)
    requires i < |x|
    ensures Load(x[..i + 1], g) == Load(x[..i], g) + if x[i] == g then 1 else 0
  {
    if x[i] == g {
      assert Owned(x[..i + 1], g) == Owned(x[..i], g) + {i};
    } else {
      assert Owned(x[..i + 1], g) == Owned(x[..i], g);
    }
  }

  function At(counts: map<int, nat>, g: int): nat {
    if g in counts then counts[g] else 0
  }

  predicate Ascending(gs: seq<int>) {
    forall i, j :: 0 <= i < j < |gs| ==> gs[i] < gs[j]
  }

  lemma SomeMember(groups: set<int>)
    ensures groups == {} || exists g :: g in groups
  {
    if forall g :: g !in groups { assert groups == {}; }
  }

  /** The group ids in order. */
  method SortedKeys(groups: set<int>) returns (gs: seq<int>)
    ensures Ascending(gs) && forall g :: g in gs <==> g in groups
  {
    gs := [];
    var rest := groups;
    while rest != {}
      invariant rest <= groups && Ascending(gs)
      invariant forall g :: g in gs <==> g in groups && g !in rest
      decreases rest
    {
      SomeMember(rest);
      var g :| g in rest;
      gs := InsertKey(gs, g);
      rest := rest - {g};
    }
  }

  method InsertKey(gs: seq<int>, g: int) returns (r: seq<int>)
    requires Ascending(gs) && g !in gs
    ensures Ascending(r) && forall x :: x in r <==> x in gs || x == g
  {
    var i := 0;
    while i < |gs| && gs[i] < g
      invariant 0 <= i <= |gs| && forall k :: 0 <= k < i ==> gs[k] < g
    {
      i := i + 1;
    }
    InsertedAt(gs, i, g);
    r := gs[..i] + [g] + gs[i..];
  }

  lemma InsertedAt(gs: seq<int>, i: nat, g: int)
    requires Ascending(gs) && i <= |gs| && (forall k :: 0 <= k < i ==> gs[k] < g) && (i < |gs| ==> g < gs[i])
    ensures Ascending(gs[..i] + [g] + gs[i..])
    ensures forall x :: x in gs[..i] + [g] + gs[i..] <==> x in gs || x == g
  {
  }

  class ShardConfig {
    var num: nat
    const shards: array<int>
    var groups: map<int, seq<string>>

    ghost predicate Valid()
      reads this
    {
      shards.Length == NSHARDS
    }

    constructor ()
      ensures Valid() && num == 0 && groups == map[] && fresh(shards) && forall s :: 0 <= s < NSHARDS ==> shards[s] == 0
    {
      num := 0;
      groups := map[];
      shards := new int[NSHARDS](_ => 0);
    }

    /** How many shards each group has. */
    method CountShards() returns (counts: map<int, nat>)
      requires Valid()
      ensures forall g :: At(counts, g) == Load(shards[..], g)
    {
      counts := map[];
      for i := 0 to NSHARDS
        invariant forall g :: At(counts, g) == Load(shards[..][..i], g)
      {
        forall g ensures Load(shards[..][..i + 1], g) == Load(shards[..][..i], g) + if shards[i] == g then 1 else 0 {
          LoadPrefix(shards[..], i, g);
        }
        ghost var before := counts;
        counts := counts[shards[i] := At(counts, shards[i]) + 1];
        assert forall g :: At(counts, g) == At(before, g) + if shards[i] == g then 1 else 0;
      }
      assert shards[..][..NSHARDS] == shards[..];
    }

    /** The most and the least loaded member groups; ties go to the smallest id. */
    method Analyze() returns (mg: int, mn: int, lg: int, ln: int)
      requires Valid()
      ensures groups.Keys == {} ==> mg == -1 && mn == -1 && lg == -1 && ln == 257
      ensures groups.Keys != {} ==> Most(shards[..], groups.Keys, mg) && mn == Load(shards[..], mg)
      ensures groups.Keys != {} ==> Least(shards[..], groups.Keys, lg) && ln == Load(shards[..], lg)
    {
      var counts := CountShards();
      var gs := SortedKeys(groups.Keys);
      LoadsBounded(shards[..]);
      mg, mn, lg, ln := -1, -1, -1, 257;
      for i := 0 to |gs|
        invariant i == 0 ==> mg == -1 && mn == -1 && lg == -1 && ln == 257
        invariant i > 0 ==>
            mg in gs && mn == At(counts, mg) && lg in gs && ln == At(counts, lg) && mg <= gs[i - 1] && lg <= gs[i - 1]
        invariant forall k :: 0 <= k < i ==> At(counts, gs[k]) <= mn && (At(counts, gs[k]) == mn ==> mg <= gs[k])
        invariant forall k :: 0 <= k < i ==> ln <= At(counts, gs[k]) && (At(counts, gs[k]) == ln ==> lg <= gs[k])
      {
        var g := gs[i];
        assert i > 0 ==> gs[i - 1] < g;
        if At(counts, g) < ln {
          ln, lg := At(counts, g), g;
        }
        if At(counts, g) > mn {
          mn, mg := At(counts, g), g;
        }
      }
      if |gs| > 0 {
        assert gs[0] in groups.Keys;
        forall g | g in groups.Keys ensures ln <= Load(shards[..], g) <= mn && (Load(shards[..], g) == mn ==> mg <= g)
            && (Load(shards[..], g) == ln ==> lg <= g) {
          assert g in gs;
        }
      } else {
        assert forall g :: g in groups.Keys ==> g in gs;
      }
    }

    /** The first shard of a group that has one. */
    method FirstShardOf(g: int) returns (s: nat)
      requires Valid() && Load(shards[..], g) > 0
      ensures s < NSHARDS && shards[s] == g && forall k :: 0 <= k < s ==> shards[k] != g
    {
      s := 0;
      SomeShard(shards[..], g);
      while shards[s] != g
        invariant s < NSHARDS && forall k :: 0 <= k < s ==> shards[k] != g
        invariant exists k :: s <= k < NSHARDS && shards[k] == g
        decreases NSHARDS - s
      {
        s := s + 1;
      }
    }

    /** Phase one: shards without a member group go, one by one, to a least loaded group. */
    method AdoptOrphans() returns (ghost writes: nat)
      requires Valid() && groups.Keys != {}
      modifies shards
      ensures OnMembers(shards[..], groups.Keys) && Progress(old(shards[..]), shards[..], groups.Keys)
      ensures writes == |Changed(old(shards[..]), shards[..])|
    {
      ghost var a := shards[..];
      writes := 0;
      assert Changed(a, a) == {};
      for s := 0 to NSHARDS
        invariant forall k :: 0 <= k < s ==> shards[k] in groups.Keys
        invariant forall k :: s <= k < NSHARDS ==> shards[k] == a[k]
        invariant Keeps(a, shards[..], groups.Keys) && GainersLow(a, shards[..], groups.Keys)
        invariant writes == |Changed(a, shards[..])|
      {
        if shards[s] !in groups {
          var _, _, lg, _ := Analyze();
          ghost var b := shards[..];
          AdoptOrphan(a, b, groups.Keys, s, lg);
          ChangedUpdate(a, b, s, lg);
          shards[s] := lg;
          writes := writes + 1;
          assert shards[..] == b[s := lg];
        }
      }
      OrphansAdopted(a, shards[..], groups.Keys);
    }

    /** Move the first shard of a most loaded group to a least loaded one. */
    method MoveShard(ghost a: Assignment, mg: int, lg: int)
      requires Valid() && OnMembers(shards[..], groups.Keys) && Progress(a, shards[..], groups.Keys)
      requires Most(shards[..], groups.Keys, mg) && Least(shards[..], groups.Keys, lg)
      requires Load(shards[..], mg) >= Load(shards[..], lg) + 2
      modifies shards
      ensures OnMembers(shards[..], groups.Keys) && Progress(a, shards[..], groups.Keys)
      ensures |Changed(a, shards[..])| == |Changed(a, old(shards[..]))| + 1
    {
      var s := FirstShardOf(mg);
      ghost var b := shards[..];
      MoveOne(a, b, groups.Keys, s, lg);
      shards[s] := lg;
      assert shards[..] == b[s := lg];
    }

    /** Phase two: one shard at a time from a most to a least loaded group, while their loads differ by two or more. */
    method LevelLoads(ghost a: Assignment, ghost before: nat) returns (ghost writes: nat)
      requires Valid() && groups.Keys != {} && OnMembers(shards[..], groups.Keys)
      requires Progress(a, shards[..], groups.Keys) && before == |Changed(a, shards[..])|
      modifies shards
      ensures OnMembers(shards[..], groups.Keys) && Progress(a, shards[..], groups.Keys)
          && Even(shards[..], groups.Keys)
      ensures writes == |Changed(a, shards[..])|
    {
      writes := before;
      ChangedBounded(a, shards[..]);
      while true
        invariant OnMembers(shards[..], groups.Keys) && Progress(a, shards[..], groups.Keys)
        invariant writes == |Changed(a, shards[..])| <= NSHARDS
        decreases NSHARDS - writes
      {
        var mg, mn, lg, ln := Analyze();
        if mn < ln + 2 {
          break;
        }
        MoveShard(a, mg, lg);
        writes := writes + 1;
        ChangedBounded(a, shards[..]);
      }
    }

    /**
     With no groups every shard becomes unassigned.  Otherwise every shard ends on a member group, loads
     differ by at most one, no group both gains and loses, each shard that changes owner is written once, and
     no other even assignment to the member groups changes fewer shards.
     */
    method Rebalance() returns (ghost writes: nat)
      requires Valid()
      modifies shards
      ensures groups.Keys == {} ==> forall s :: 0 <= s < NSHARDS ==> shards[s] == 0
      ensures groups.Keys != {} ==> OnMembers(shards[..], groups.Keys) && Even(shards[..], groups.Keys)
      ensures groups.Keys != {} ==>
          AllOneWay(old(shards[..]), shards[..], groups.Keys) && writes == |Changed(old(shards[..]), shards[..])|
      ensures groups.Keys != {} ==> Fewest(old(shards[..]), shards[..], groups.Keys)
    {
      writes := 0;
      if |groups.Keys| < 1 {
        for s := 0 to NSHARDS
          invariant forall k :: 0 <= k < s ==> shards[k] == 0
        {
          shards[s] := 0;
        }
        return;
      }
      ghost var a := shards[..];
      writes := AdoptOrphans();
      writes := LevelLoads(a, writes);
      FewestOfAll(a, shards[..], groups.Keys);
    }

    /** Remove groups one by one; stops, with the earlier ones already gone, at the first that is not a member. */
    method Leave(gids: seq<int>) returns (o: Outcome)
      modifies this`groups, this`num
      ensures o == LeaveOutcome(old(groups).Keys, gids)
      ensures groups == old(groups) - Leavers(old(groups).Keys, gids)
      ensures num == if o == Done then old(num) + 1 else old(num)
    {
      var changed := false;
      ghost var n := FirstMissing(groups.Keys, gids);
      var before := groups;
      for i := 0 to |gids|
        invariant i <= n && changed == (i > 0) && num == old(num)
        invariant groups == before - (set k | 0 <= k < i :: gids[k])
      {
        FirstMissingIs(before.Keys, gids);
        if gids[i] !in groups {
          return Refused;
        }
        assert groups - {gids[i]} == before - (set k | 0 <= k < i + 1 :: gids[k]);
        groups := groups - {gids[i]};
        changed := true;
      }
      if !changed {
        return Fatal;
      }
      num := num + 1;
      return Done;
    }

    /** Whether a member group already has one of the servers. */
    method SharesServer(servers: seq<string>) returns (b: bool)
      ensures b == Clashes(groups, servers)
    {
      var rest := groups.Keys;
      while rest != {}
        invariant rest <= groups.Keys
        invariant forall x :: x in groups.Keys && x !in rest ==> !Share(groups[x], servers)
        decreases rest
      {
        SomeMember(rest);
        var x :| x in rest;
        for i := 0 to |groups[x]|
          invariant forall k :: 0 <= k < i ==> groups[x][k] !in servers
        {
          for j := 0 to |servers|
            invariant forall k :: 0 <= k < j ==> groups[x][i] != servers[k]
          {
            if groups[x][i] == servers[j] {
              assert groups[x][i] in groups[x] && groups[x][i] in servers;
              return true;
            }
          }
        }
        rest := rest - {x};
      }
      return false;
    }

    /**
     Add groups in the order the map yields them, which is any; stops, with some possibly added, at one that is a
     member already.
     */
    method Join(servers: map<int, seq<string>>) returns (o: Outcome, ghost order: seq<int>)
      modifies this`groups, this`num
      ensures Lists(order, servers.Keys) && (groups, o) == JoinIn(old(groups), servers, order)
      ensures o == Refused ==> servers.Keys * old(groups).Keys != {}
      ensures o == Done ==> JoinDone(old(groups), servers) && groups == old(groups) + servers
      ensures o == Fatal ==> !JoinDone(old(groups), servers)
      ensures old(groups).Keys <= groups.Keys <= old(groups).Keys + servers.Keys
      ensures forall g :: g in old(groups) ==> groups[g] == old(groups)[g]
      ensures num == if o == Done then old(num) + 1 else old(num)
    {
      var rest := servers.Keys;
      var changed := false;
      order := [];
      while rest != {}
        invariant rest <= servers.Keys && changed == (rest != servers.Keys) && num == old(num)
        invariant Added(old(groups), servers, rest, groups)
        invariant Lists(order, servers.Keys - rest) && AddInOrder(old(groups), servers, order) == (groups, Done)
        decreases rest
      {
        SomeMember(rest);
        var gid :| gid in rest;
        if gid in groups {
          assert gid in servers.Keys * old(groups).Keys;
          order := StopAt(old(groups), servers, order, groups, gid);
          return Refused, order;
        }
        var clash := SharesServer(servers[gid]);
        if clash {
          ClashRulesOut(old(groups), servers, rest, groups, gid);
          order := StopAt(old(groups), servers, order, groups, gid);
          return Fatal, order;
        }
        AddOne(old(groups), servers, rest, groups, gid);
        GoOn(old(groups), servers, order, groups, gid);
        groups := groups[gid := servers[gid]];
        changed := true;
        rest := rest - {gid};
        order := order + [gid];
      }
      assert servers.Keys - rest == servers.Keys;
      if !changed {
        return Fatal, order;
      }
      AddedAll(old(groups), servers, groups);
      num := num + 1;
      return Done, order;
    }

    method JoinBalance(servers: map<int, seq<string>>) returns (o: Outcome, ghost order: seq<int>)
      requires Valid()
      modifies this`groups, this`num, shards
      ensures Lists(order, servers.Keys) && (groups, o) == JoinIn(old(groups), servers, order)
      ensures o == Refused ==> servers.Keys * old(groups).Keys != {}
      ensures o == Fatal ==> !JoinDone(old(groups), servers)
      ensures o != Done ==> shards[..] == old(shards[..]) && num == old(num)
      ensures o == Done ==> JoinDone(old(groups), servers) && groups == old(groups) + servers && num == old(num) + 1
      ensures o == Done ==>
          OnMembers(shards[..], groups.Keys) && Even(shards[..], groups.Keys)
          && Fewest(old(shards[..]), shards[..], groups.Keys)
    {
      o, order := Join(servers);
      if o == Done {
        assert servers.Keys <= groups.Keys && servers.Keys != {};
        ghost var writes := Rebalance();
      }
    }

    method LeaveBalance(gids: seq<int>) returns (o: Outcome)
      requires Valid()
      modifies this`groups, this`num, shards
      ensures o == LeaveOutcome(old(groups).Keys, gids) && groups == old(groups) - Leavers(old(groups).Keys, gids)
      ensures o != Done ==> shards[..] == old(shards[..]) && num == old(num)
      ensures o == Done ==> num == old(num) + 1
      ensures o == Done && groups.Keys != {} ==>
          OnMembers(shards[..], groups.Keys) && Even(shards[..], groups.Keys)
          && Fewest(old(shards[..]), shards[..], groups.Keys)
      ensures o == Done && groups.Keys == {} ==> forall s :: 0 <= s < NSHARDS ==> shards[s] == 0
    {
      o := Leave(gids);
      if o == Done {
        ghost var writes := Rebalance();
      }
    }
  }

  // ---------------------------------------------------------------- leaving

  /** The position of the first group id that is no member when its turn comes, or the length. */
  function FirstMissing(groups: set<int>, gids: seq<int>): (n: nat)
    ensures n <= |gids|
    decreases |gids|
  {
    if |gids| == 0 || gids[0] !in groups then 0 else 1 + FirstMissing(groups - {gids[0]}, gids[1..])
  }

  function Leavers(groups: set<int>, gids: seq<int>): set<int> {
    set k | 0 <= k < FirstMissing(groups, gids) :: gids[k]
  }

  function LeaveOutcome(groups: set<int>, gids: seq<int>): Outcome {
    if |gids| == 0 then Fatal else if FirstMissing(groups, gids) == |gids| then Done else Refused
  }

  lemma {:induction false} FirstMissingIs(groups: set<int>, gids: seq<int>)
    ensures forall i :: 0 <= i < FirstMissing(groups, gids) ==> gids[i] in groups && gids[i] !in gids[..i]
    ensures var n := FirstMissing(groups, gids); n < |gids| ==> gids[n] !in groups || gids[n] in gids[..n]
    decreases |gids|
  {
    if |gids| > 0 && gids[0] in groups {
      var rest, tail := groups - {gids[0]}, gids[1..];
      FirstMissingIs(rest, tail);
      var n := FirstMissing(groups, gids);
      forall i | 0 < i < n ensures gids[i] in groups && gids[i] !in gids[..i] {
        assert tail[i - 1] in rest && tail[i - 1] !in tail[..i - 1];
        assert gids[..i] == [gids[0]] + tail[..i - 1];
      }
      if n < |gids| { assert gids[..n] == [gids[0]] + tail[..n - 1]; }
    }
  }

  /** Leaving succeeds exactly for a nonempty list of different member groups. */
  lemma LeaveDoneIff(groups: set<int>, gids: seq<int>)
    ensures LeaveOutcome(groups, gids) == Done <==> |gids| > 0 && Distinct(gids) && forall i :: 0 <= i < |gids| ==>
        gids[i] in groups
  {
    FirstMissingIs(groups, gids);
    var n := FirstMissing(groups, gids);
    if n == |gids| {
      forall i, j | 0 <= i < j < |gids| ensures gids[i] != gids[j] {
        assert gids[j] !in gids[..j] && gids[i] in gids[..j];
      }
    } else if gids[n] in gids[..n] {
      var i :| 0 <= i < n && gids[..n][i] == gids[n];
      assert gids[i] == gids[n];
    }
  }

  /**
   A refused leave has removed the groups before the one it stopped at.  The configuration stays well placed
   exactly when none of those has a shard.
   */
  lemma RefusedLeaveKeepsPlacementIff(x: Assignment, groups: set<int>, gids: seq<int>)
    requires OnMembers(x, groups) && Even(x, groups)
    ensures var left := groups - Leavers(groups, gids);
      OnMembers(x, left) && Even(x, left) <==> forall g :: g in Leavers(groups, gids) ==> Load(x, g) == 0
  {
    var gone := Leavers(groups, gids);
    forall g ensures Load(x, g) == 0 || exists k :: 0 <= k < |x| && x[k] == g { SomeShard(x, g); }
    if forall g :: g in gone ==> Load(x, g) == 0 {
      forall s: nat | s < |x| ensures x[s] !in gone { assert s in Owned(x, x[s]); }
    }
  }

  /** A refused leave can strand shards: group 1 is gone and still owns every shard. */
  lemma RefusedLeaveMayStrand(x: Assignment)
    requires |x| == NSHARDS && forall s :: 0 <= s < NSHARDS ==> x[s] == 1
    ensures OnMembers(x, {1}) && Even(x, {1}) && LeaveOutcome({1}, [1, 9]) == Refused
        && !OnMembers(x, {1} - Leavers({1}, [1, 9]))
  {
    assert [1, 9][1..] == [9];
    assert FirstMissing({1} - {1}, [9]) == 0;
    assert FirstMissing({1}, [1, 9]) == 1;
    assert 1 in Leavers({1}, [1, 9]) by { assert [1, 9][0] == 1; }
    assert x[0] == 1;
  }

  // ---------------------------------------------------------------- joining

  ghost predicate Share(a: seq<string>, b: seq<string>) {
    exists s :: s in a && s in b
  }

  ghost predicate Clashes(groups: map<int, seq<string>>, servers: seq<string>) {
    exists x :: x in groups && Share(groups[x], servers)
  }

  /** Joining succeeds exactly for at least one new group when no server is in two groups. */
  ghost predicate JoinDone(groups: map<int, seq<string>>, servers: map<int, seq<string>>) {
    && servers.Keys != {} && servers.Keys !! groups.Keys
    && (forall g :: g in servers ==> !Clashes(groups, servers[g]))
    && (forall g, h :: g in servers && h in servers && g != h ==> !Share(servers[g], servers[h]))
  }

  /** What has been added when `rest` is still to come. */
  ghost predicate Added(groups: map<int, seq<string>>, servers: map<int, seq<string>>, rest: set<int>,
                        now: map<int, seq<string>>) {
    && now.Keys == groups.Keys + (servers.Keys - rest) && (servers.Keys - rest) !! groups.Keys
    && (forall g :: g in groups ==> now[g] == groups[g])
    && (forall g :: g in servers.Keys - rest ==> now[g] == servers[g] && !Clashes(groups, servers[g]))
    && (forall g, h :: g in servers.Keys - rest && h in servers.Keys - rest && g != h ==>
        !Share(servers[g], servers[h]))
  }

  lemma ClashRulesOut(groups: map<int, seq<string>>, servers: map<int, seq<string>>, rest: set<int>,
                      now: map<int, seq<string>>, gid: int)
    requires Added(groups, servers, rest, now) && gid in rest && gid in servers && Clashes(now, servers[gid])
    ensures !JoinDone(groups, servers)
  {
  }

  lemma AddOne(groups: map<int, seq<string>>, servers: map<int, seq<string>>, rest: set<int>,
               now: map<int, seq<string>>, gid: int)
    requires Added(groups, servers, rest, now) && rest <= servers.Keys && gid in rest && gid !in now
        && !Clashes(now, servers[gid])
    ensures Added(groups, servers, rest - {gid}, now[gid := servers[gid]])
  {
  }

  lemma AddedAll(groups: map<int, seq<string>>, servers: map<int, seq<string>>, now: map<int, seq<string>>)
    requires Added(groups, servers, {}, now)
    ensures now == groups + servers && (servers.Keys != {} ==> JoinDone(groups, servers))
  {
    assert servers.Keys - {} == servers.Keys;
    var sum := groups + servers;
    assert now.Keys == sum.Keys;
    forall g | g in now ensures now[g] == sum[g] {}
  }

  /** Adding groups in a given order, until one is a member already or shares a server. */
  ghost function AddInOrder(groups: map<int, seq<string>>, servers: map<int, seq<string>>,
                            order: seq<int>): (map<int, seq<string>>, Outcome)
    requires forall g :: g in order ==> g in servers
  {
    if |order| == 0 then (groups, Done)
    else
      var (now, o) := AddInOrder(groups, servers, order[..|order| - 1]);
      var g := order[|order| - 1];
      if o != Done then (now, o)
      else if g in now then (now, Refused)
      else if Clashes(now, servers[g]) then (now, Fatal)
      else (now[g := servers[g]], Done)
  }

  /** What a join in this order leaves, and its outcome; joining nothing is fatal. */
  ghost function JoinIn(groups: map<int, seq<string>>, servers: map<int, seq<string>>,
                        order: seq<int>): (map<int, seq<string>>, Outcome)
    requires forall g :: g in order ==> g in servers
  {
    if |order| == 0 then (groups, Fatal) else AddInOrder(groups, servers, order)
  }

  lemma GoOn(groups: map<int, seq<string>>, servers: map<int, seq<string>>, order: seq<int>,
             now: map<int, seq<string>>, gid: int)
    requires (forall g :: g in order ==> g in servers) && AddInOrder(groups, servers, order) == (now, Done)
    requires gid in servers && gid !in now && !Clashes(now, servers[gid])
    ensures AddInOrder(groups, servers, order + [gid]) == (now[gid := servers[gid]], Done)
  {
    assert (order + [gid])[..|order|] == order;
  }

  /** Once it has stopped, the rest of the order makes no difference. */
  lemma {:induction false} Stopped(groups: map<int, seq<string>>, servers: map<int, seq<string>>, order: seq<int>,
                                   more: seq<int>)
    requires (forall g :: g in order ==> g in servers) && (forall g :: g in more ==> g in servers)
    requires AddInOrder(groups, servers, order).1 != Done
    ensures AddInOrder(groups, servers, order + more) == AddInOrder(groups, servers, order)
    decreases |more|
  {
    if |more| == 0 {
      assert order + more == order;
    } else {
      var fewer := more[..|more| - 1];
      Stopped(groups, servers, order, fewer);
      assert (order + more)[..|order + more| - 1] == order + fewer;
    }
  }

  /** A full order that stops at `gid` after the groups added so far. */
  lemma StopAt(groups: map<int, seq<string>>, servers: map<int, seq<string>>, order: seq<int>,
               now: map<int, seq<string>>, gid: int)
    returns (full: seq<int>)
    requires Distinct(order) && (forall g :: g in order ==> g in servers)
        && AddInOrder(groups, servers, order) == (now, Done)
    requires gid in servers && gid !in order && (gid in now || Clashes(now, servers[gid]))
    ensures Lists(full, servers.Keys) && |full| > 0
    ensures AddInOrder(groups, servers, full) == (now, if gid in now then Refused else Fatal)
  {
    var done := order + [gid];
    assert done[..|order|] == order;
    var tail := Listing(set g | g in servers && g !in done);
    full := done + tail;
    Stopped(groups, servers, done, tail);
    forall i, j | 0 <= i < j < |full| ensures full[i] != full[j] {
      if i < |done| <= j { assert full[j] in tail && full[i] in done; }
    }
  }

  /** Members stay; what is added is new and shares no server with them; a refusal means some group was a member. */
  lemma {:induction false} WhatJoinAdds(groups: map<int, seq<string>>, servers: map<int, seq<string>>, order: seq<int>)
    requires Distinct(order) && forall g :: g in order ==> g in servers
    ensures var (now, o) := AddInOrder(groups, servers, order);
      && (forall g :: g in groups ==> g in now && now[g] == groups[g])
      && (forall g :: g in now && g !in groups ==> g in order && !Clashes(groups, servers[g]))
      && (o == Refused ==> servers.Keys * groups.Keys != {})
    decreases |order|
  {
    if |order| > 0 {
      var front, g := order[..|order| - 1], order[|order| - 1];
      WhatJoinAdds(groups, servers, front);
      var (now, o) := AddInOrder(groups, servers, front);
      if g in groups { assert g in servers.Keys * groups.Keys; }
      if !Clashes(now, servers[g]) { SharesLess(groups, now, servers[g]); }
    }
  }

  lemma SharesLess(groups: map<int, seq<string>>, now: map<int, seq<string>>, servers: seq<string>)
    requires (forall g :: g in groups ==> g in now && now[g] == groups[g]) && !Clashes(now, servers)
    ensures !Clashes(groups, servers)
  {
    forall x | x in groups ensures !Share(groups[x], servers) { assert x in now && !Share(now[x], servers); }
  }

  lemma NewMember(groups: set<int>, now: set<int>) returns (n: int)
    requires groups < now
    ensures n in now && n !in groups
  {
    assert now == groups + (now - groups);
    SomeMember(now - groups);
    n :| n in now - groups;
  }

  lemma AddedOwnNothing(x: Assignment, groups: set<int>, now: set<int>)
    requires OnMembers(x, groups) && groups < now
    ensures OnMembers(x, now)
    ensures Even(x, now) <==> forall g :: g in groups ==> Load(x, g) <= 1
  {
    forall g | g in now - groups ensures Load(x, g) == 0 { SomeShard(x, g); }
    var n := NewMember(groups, now);
    if Even(x, now) {
      forall g | g in groups ensures Load(x, g) <= 1 { assert Load(x, g) <= Load(x, n) + 1; }
    }
  }

  /** If a join in this order is refused, what it leaves is still well placed. */
  ghost predicate RefusalHarmless(x: Assignment, groups: map<int, seq<string>>, servers: map<int, seq<string>>,
                                  order: seq<int>)
    requires forall g :: g in order ==> g in servers
  {
    var (now, o) := JoinIn(groups, servers, order);
    o == Refused ==> OnMembers(x, now.Keys) && Even(x, now.Keys)
  }

  /** Some group to be joined is new and shares no server with a member. */
  ghost predicate CanAdd(groups: map<int, seq<string>>, servers: map<int, seq<string>>) {
    exists g :: g in servers && g !in groups && !Clashes(groups, servers[g])
  }

  /**
   When no refused join can do harm, whatever order the map yields its groups in: exactly when no group to be
   joined is a member already (no refusal), or none can be added, or no member has two shards.
   */
  lemma RefusedJoinKeepsPlacementIff(x: Assignment, groups: map<int, seq<string>>, servers: map<int, seq<string>>)
    requires OnMembers(x, groups.Keys) && Even(x, groups.Keys)
    ensures (forall order: seq<int> :: Lists(order, servers.Keys) ==> RefusalHarmless(x, groups, servers, order))
       <==> servers.Keys * groups.Keys == {} || !CanAdd(groups, servers) || forall g :: g in groups ==> Load(x, g) <= 1
  {
    if servers.Keys * groups.Keys == {} || !CanAdd(groups, servers) || (forall g :: g in groups ==> Load(x, g) <= 1) {
      forall order: seq<int> | Lists(order, servers.Keys) ensures RefusalHarmless(x, groups, servers, order) {
        HarmlessOrder(x, groups, servers, order);
      }
    } else {
      var order := HarmfulOrder(x, groups, servers);
    }
  }

  lemma HarmlessOrder(x: Assignment, groups: map<int, seq<string>>, servers: map<int, seq<string>>, order: seq<int>)
    requires OnMembers(x, groups.Keys) && Even(x, groups.Keys) && Lists(order, servers.Keys)
    requires servers.Keys * groups.Keys == {} || !CanAdd(groups, servers) || forall g :: g in groups ==> Load(x, g) <= 1
    ensures RefusalHarmless(x, groups, servers, order)
  {
    WhatJoinAdds(groups, servers, order);
    var (now, o) := AddInOrder(groups, servers, order);
    if o == Refused {
      forall g | g in groups.Keys ensures g in now.Keys {}
      if groups.Keys < now.Keys {
        var n := NewMember(groups.Keys, now.Keys);
        AddedOwnNothing(x, groups.Keys, now.Keys);
      } else {
        assert now.Keys == groups.Keys;
      }
    }
  }

  lemma HarmfulOrder(x: Assignment, groups: map<int, seq<string>>, servers: map<int, seq<string>>)
    returns (order: seq<int>)
    requires OnMembers(x, groups.Keys) && servers.Keys * groups.Keys != {} && CanAdd(groups, servers)
    requires exists g :: g in groups && Load(x, g) > 1
    ensures Lists(order, servers.Keys) && !RefusalHarmless(x, groups, servers, order)
  {
    SomeMember(servers.Keys * groups.Keys);
    var e :| e in servers.Keys * groups.Keys;
    var g :| g in servers && g !in groups && !Clashes(groups, servers[g]);
    GoOn(groups, servers, [], groups, g);
    assert [] + [g] == [g];
    var now := groups[g := servers[g]];
    order := StopAt(groups, servers, [g], now, e);
    AddedOwnNothing(x, groups.Keys, now.Keys);
  }

  lemma AllAtOne(x: Assignment)
    requires |x| == NSHARDS && forall s :: 0 <= s < NSHARDS ==> x[s] == 1
    ensures Load(x, 1) == NSHARDS && Load(x, 2) == 0
  {
    assert Owned(x, 1) == Common.Servers(NSHARDS) && Owned(x, 2) == {};
    Common.ServersSize(NSHARDS);
  }

  lemma JoinsTwoThenStops(groups: map<int, seq<string>>, servers: map<int, seq<string>>)
    requires groups == map[1 := ["a"]] && servers == map[1 := ["c"], 2 := ["b"]]
    ensures Lists([2, 1], servers.Keys) && JoinIn(groups, servers, [2, 1]) == (groups[2 := ["b"]], Refused)
  {
    assert !Share(["a"], ["b"]);
    GoOn(groups, servers, [], groups, 2);
    assert [] + [2] == [2];
    assert [2, 1][..1] == [2];
  }

  /** A refused join that leaves loads 12 and 0: group 2 is added before the join is refused for group 1. */
  lemma RefusedJoinMayUnbalance(x: Assignment, groups: map<int, seq<string>>, servers: map<int, seq<string>>)
    requires |x| == NSHARDS && forall s :: 0 <= s < NSHARDS ==> x[s] == 1
    requires groups == map[1 := ["a"]] && servers == map[1 := ["c"], 2 := ["b"]]
    ensures OnMembers(x, groups.Keys) && Even(x, groups.Keys) && Lists([2, 1], servers.Keys)
    ensures JoinIn(groups, servers, [2, 1]) == (groups[2 := ["b"]], Refused) && !Even(x, groups[2 := ["b"]].Keys)
  {
    AllAtOne(x);
    JoinsTwoThenStops(groups, servers);
    var now := groups[2 := ["b"]].Keys;
    assert 1 in now && 2 in now && Load(x, 1) > Load(x, 2) + 1;
  }

  ghost predicate NotFewer(a: Assignment, b: Assignment, x: Assignment) {
    |Changed(a, b)| <= |Changed(a, x)|
  }

  /** No even assignment to the member groups changes fewer shards than `b` does. */
  ghost predicate Fewest(a: Assignment, b: Assignment, groups: set<int>) {
    forall x: Assignment :: |x| == |a| && OnMembers(x, groups) && Even(x, groups) ==> NotFewer(a, b, x)
  }

  lemma FewestOfAll(a: Assignment, b: Assignment, groups: set<int>)
    requires Progress(a, b, groups) && OnMembers(b, groups) && Even(b, groups)
    ensures Fewest(a, b, groups)
  {
    forall x: Assignment | |x| == |a| && OnMembers(x, groups) && Even(x, groups) ensures NotFewer(a, b, x) {
      FewestMoves(a, b, x, groups);
    }
  }

  lemma ChangedBounded(a: Assignment, x: Assignment)
    ensures |Changed(a, x)| <= |x|
  {
    Common.SubsetSize(Changed(a, x), Common.Servers(|x|));
    Common.ServersSize(|x|);
  }

  lemma SomeShard(x: Assignment, g: int)
    ensures Load(x, g) == 0 || exists k :: 0 <= k < |x| && x[k] == g
  {
  }

  /** The first most loaded group, and the first least loaded one. */
  ghost predicate Most(x: Assignment, groups: set<int>, g: int) {
    g in groups && AtCeiling(x, groups, g) && forall h :: h in groups && Load(x, h) == Load(x, g) ==> g <= h
  }

  ghost predicate Least(x: Assignment, groups: set<int>, g: int) {
    g in groups && AtFloor(x, groups, g) && forall h :: h in groups && Load(x, h) == Load(x, g) ==> g <= h
  }

  lemma LoadsBounded(x: Assignment)
    ensures forall g :: Load(x, g) <= |x|
  {
    forall g ensures Load(x, g) <= |x| {
      Common.SubsetSize(Owned(x, g), Common.Servers(|x|));
      Common.ServersSize(|x|);
    }
  }
}
