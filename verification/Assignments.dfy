/** Assignments of shards to groups: what balance is, and how many shards a balanced assignment must move. */
module Assignments {
  import Common

  type Assignment = seq<int>

  ghost function Owned(x: Assignment, g: int): set<nat> {
    set s: nat | s < |x| && x[s] == g
  }

  ghost function Load(x: Assignment, g: int): nat {
    |Owned(x, g)|
  }

  ghost function Changed(a: Assignment, x: Assignment): set<nat> {
    set s: nat | s < |a| && s < |x| && a[s] != x[s]
  }

  /** The shards group `g` has gained. */
  ghost function Arrived(a: Assignment, x: Assignment, g: int): set<nat> {
    set s: nat | s < |a| && s < |x| && a[s] != x[s] && x[s] == g
  }

  /** The shards group `g` has lost. */
  ghost function Departed(a: Assignment, x: Assignment, g: int): set<nat> {
    set s: nat | s < |a| && s < |x| && a[s] != x[s] && a[s] == g
  }

  ghost predicate OnMembers(x: Assignment, groups: set<int>) {
    forall s: nat :: s < |x| ==> x[s] in groups
  }

  /** Group loads differ by at most one. */
  ghost predicate Even(x: Assignment, groups: set<int>) {
    forall g, h :: g in groups && h in groups ==> Load(x, g) <= Load(x, h) + 1
  }

  ghost predicate OneWay(a: Assignment, x: Assignment, g: int) {
    Arrived(a, x, g) == {} || Departed(a, x, g) == {}
  }

  /** No group both gains and loses shards. */
  ghost predicate AllOneWay(a: Assignment, x: Assignment, groups: set<int>) {
    forall g :: g in groups ==> OneWay(a, x, g)
  }

  // ---------------------------------------------------------------- sums over groups

  ghost predicate Distinct(gs: seq<int>) {
    forall i, j :: 0 <= i < j < |gs| ==> gs[i] != gs[j]
  }

  ghost predicate Lists(gs: seq<int>, groups: set<int>) {
    Distinct(gs) && forall g :: g in groups <==> g in gs
  }

  lemma {:induction false} Listing(groups: set<int>) returns (gs: seq<int>)
    ensures Lists(gs, groups)
  {
    if g :| g in groups {
      gs := Listing(groups - {g});
      gs := gs + [g];
    } else {
      gs := [];
    }
  }

  ghost function Sum(gs: seq<int>, f: int -> int): int {
    if |gs| == 0 then 0 else Sum(gs[..|gs| - 1], f) + f(gs[|gs| - 1])
  }

  lemma {:induction false} SumGrows(gs: seq<int>, f: int -> int, h: int -> int)
    requires forall g :: g in gs ==> f(g) <= h(g)
    ensures Sum(gs, f) <= Sum(gs, h)
    ensures (exists g :: g in gs && f(g) < h(g)) ==> Sum(gs, f) < Sum(gs, h)
  {
    if |gs| > 0 {
      var g := gs[|gs| - 1];
      assert g in gs && f(g) <= h(g);
      SumGrows(gs[..|gs| - 1], f, h);
    }
  }

  lemma {:induction false} SumDifference(gs: seq<int>, f: int -> int, h: int -> int, d: int -> int, e: int -> int)
    requires forall g :: g in gs ==> f(g) - h(g) == d(g) - e(g)
    ensures Sum(gs, f) - Sum(gs, h) == Sum(gs, d) - Sum(gs, e)
  {
    if |gs| > 0 {
      var g := gs[|gs| - 1];
      assert g in gs && f(g) - h(g) == d(g) - e(g);
      SumDifference(gs[..|gs| - 1], f, h, d, e);
    }
  }

  /** The shards of `all` that `x` puts at group `g`. */
  ghost function Part(x: Assignment, all: set<nat>, g: int): set<nat> {
    set s | s in all && s < |x| && x[s] == g
  }

  ghost function PartSizes(x: Assignment, all: set<nat>): int -> int {
    g => |Part(x, all, g)|
  }

  ghost function Within(x: Assignment, all: set<nat>, gs: seq<int>): set<nat> {
    set s | s in all && s < |x| && x[s] in gs
  }

  /** Counting group by group counts each shard once. */
  lemma {:induction false} SumOfParts(x: Assignment, all: set<nat>, gs: seq<int>)
    requires Distinct(gs)
    ensures Sum(gs, PartSizes(x, all)) == |Within(x, all, gs)|
  {
    if |gs| == 0 {
      assert Within(x, all, gs) == {};
    } else {
      var rest, g := gs[..|gs| - 1], gs[|gs| - 1];
      SumOfParts(x, all, rest);
      assert Within(x, all, gs) == Within(x, all, rest) + Part(x, all, g);
      assert Within(x, all, rest) !! Part(x, all, g);
    }
  }

  ghost function Loads(x: Assignment): int -> int {
    g => Load(x, g)
  }

  ghost function Arrivals(a: Assignment, x: Assignment): int -> int {
    g => |Arrived(a, x, g)|
  }

  lemma {:induction false} SumCongruent(gs: seq<int>, f: int -> int, h: int -> int)
    requires forall g :: g in gs ==> f(g) == h(g)
    ensures Sum(gs, f) == Sum(gs, h)
  {
    if |gs| > 0 {
      var g := gs[|gs| - 1];
      assert g in gs && f(g) == h(g);
      SumCongruent(gs[..|gs| - 1], f, h);
    }
  }

  lemma TotalLoad(x: Assignment, groups: set<int>, gs: seq<int>)
    requires Lists(gs, groups) && OnMembers(x, groups)
    ensures Sum(gs, Loads(x)) == |x|
  {
    var all := Common.Servers(|x|);
    Common.ServersSize(|x|);
    forall g ensures Part(x, all, g) == Owned(x, g) {}
    SumCongruent(gs, Loads(x), PartSizes(x, all));
    SumOfParts(x, all, gs);
    assert Within(x, all, gs) == all;
  }

  lemma TotalArrivals(a: Assignment, x: Assignment, groups: set<int>, gs: seq<int>)
    requires Lists(gs, groups) && OnMembers(x, groups)
    ensures Sum(gs, Arrivals(a, x)) == |Changed(a, x)|
  {
    var all := Changed(a, x);
    forall g ensures Part(x, all, g) == Arrived(a, x, g) {}
    SumCongruent(gs, Arrivals(a, x), PartSizes(x, all));
    SumOfParts(x, all, gs);
    assert Within(x, all, gs) == all;
  }

  // ---------------------------------------------------------------- how few moves are enough

  /** A group's load changes by what arrives less what departs. */
  lemma LoadBalance(a: Assignment, x: Assignment, g: int)
    requires |a| == |x|
    ensures Load(x, g) - Load(a, g) == |Arrived(a, x, g)| - |Departed(a, x, g)|
  {
    var kept := set s: nat | s < |a| && a[s] == g && x[s] == g;
    assert Owned(x, g) == kept + Arrived(a, x, g) && kept !! Arrived(a, x, g);
    assert Owned(a, g) == kept + Departed(a, x, g) && kept !! Departed(a, x, g);
  }

  ghost function Gains(a: Assignment, x: Assignment): int -> int {
    g => if Load(x, g) > Load(a, g) then Load(x, g) - Load(a, g) else 0
  }

  ghost function Losses(a: Assignment, x: Assignment): int -> int {
    g => if Load(x, g) < Load(a, g) then Load(a, g) - Load(x, g) else 0
  }

  /** Every assignment moves at least as many shards as its groups' loads grow. */
  lemma MovesAtLeastGains(a: Assignment, x: Assignment, groups: set<int>, gs: seq<int>)
    requires |a| == |x| && Lists(gs, groups) && OnMembers(x, groups)
    ensures Sum(gs, Gains(a, x)) <= |Changed(a, x)|
    ensures AllOneWay(a, x, groups) ==> Sum(gs, Gains(a, x)) == |Changed(a, x)|
  {
    TotalArrivals(a, x, groups, gs);
    forall g | g in gs
      ensures Gains(a, x)(g) <= Arrivals(a, x)(g)
      ensures OneWay(a, x, g) ==> Gains(a, x)(g) == Arrivals(a, x)(g)
    {
      LoadBalance(a, x, g);
    }
    SumGrows(gs, Gains(a, x), Arrivals(a, x));
    if AllOneWay(a, x, groups) {
      assert forall g :: g in gs ==> OneWay(a, x, g);
      SumCongruent(gs, Gains(a, x), Arrivals(a, x));
    }
  }

  ghost predicate AtFloor(x: Assignment, groups: set<int>, g: int) {
    forall h :: h in groups ==> Load(x, g) <= Load(x, h)
  }

  ghost predicate AtCeiling(x: Assignment, groups: set<int>, g: int) {
    forall h :: h in groups ==> Load(x, h) <= Load(x, g)
  }

  /** Either nobody was raised above the smallest load, or nobody was lowered below the largest. */
  ghost predicate Frugal(a: Assignment, x: Assignment, groups: set<int>) {
    || (forall g :: g in groups && Load(x, g) > Load(a, g) ==> AtFloor(x, groups, g))
    || (forall g :: g in groups && Load(x, g) < Load(a, g) ==> AtCeiling(x, groups, g))
  }

  /** Two even assignments of the same shards have the same smallest load. */
  lemma SameFloor(b: Assignment, x: Assignment, groups: set<int>, gs: seq<int>, g: int, h: int)
    requires |b| == |x| && Lists(gs, groups) && OnMembers(b, groups) && OnMembers(x, groups) && Even(x, groups)
    requires g in groups && h in groups && AtFloor(b, groups, g)
    ensures Load(b, g) <= Load(x, h)
  {
    TotalLoad(b, groups, gs);
    TotalLoad(x, groups, gs);
    if Load(x, h) < Load(b, g) {
      assert Loads(x)(h) < Loads(b)(h);
      SumGrows(gs, Loads(x), Loads(b));
    }
  }

  lemma SameCeiling(b: Assignment, x: Assignment, groups: set<int>, gs: seq<int>, g: int, h: int)
    requires |b| == |x| && Lists(gs, groups) && OnMembers(b, groups) && OnMembers(x, groups) && Even(x, groups)
    requires g in groups && h in groups && AtCeiling(b, groups, g)
    ensures Load(x, h) <= Load(b, g)
  {
    TotalLoad(b, groups, gs);
    TotalLoad(x, groups, gs);
    if Load(x, h) > Load(b, g) {
      assert Loads(b)(h) < Loads(x)(h);
      SumGrows(gs, Loads(b), Loads(x));
    }
  }

  /** Gains and losses differ by the shards that had no member group. */
  lemma GainsLessLosses(a: Assignment, x: Assignment, groups: set<int>, gs: seq<int>)
    requires Lists(gs, groups) && OnMembers(x, groups)
    ensures Sum(gs, Gains(a, x)) - Sum(gs, Losses(a, x)) == |x| - Sum(gs, Loads(a))
  {
    SumDifference(gs, Gains(a, x), Losses(a, x), Loads(x), Loads(a));
    TotalLoad(x, groups, gs);
  }

  lemma FewestGains(a: Assignment, b: Assignment, x: Assignment, groups: set<int>, gs: seq<int>)
    requires |a| == |b| == |x| && Lists(gs, groups) && OnMembers(b, groups) && OnMembers(x, groups)
    requires Even(x, groups) && Frugal(a, b, groups)
    ensures Sum(gs, Gains(a, b)) <= Sum(gs, Gains(a, x))
  {
    if forall g :: g in groups && Load(b, g) > Load(a, g) ==> AtFloor(b, groups, g) {
      forall g | g in gs ensures Gains(a, b)(g) <= Gains(a, x)(g) {
        if Load(b, g) > Load(a, g) { SameFloor(b, x, groups, gs, g, g); }
      }
      SumGrows(gs, Gains(a, b), Gains(a, x));
    } else {
      forall g | g in gs ensures Losses(a, b)(g) <= Losses(a, x)(g) {
        if Load(b, g) < Load(a, g) { SameCeiling(b, x, groups, gs, g, g); }
      }
      SumGrows(gs, Losses(a, b), Losses(a, x));
      GainsLessLosses(a, b, groups, gs);
      GainsLessLosses(a, x, groups, gs);
    }
  }

  /** No even assignment to the member groups moves fewer shards than a frugal one-way one. */
  lemma FewestMoves(a: Assignment, b: Assignment, x: Assignment, groups: set<int>)
    requires |a| == |b| == |x| && OnMembers(b, groups) && OnMembers(x, groups) && Even(x, groups)
    requires AllOneWay(a, b, groups) && Frugal(a, b, groups)
    ensures |Changed(a, b)| <= |Changed(a, x)|
  {
    var gs := Listing(groups);
    FewestGains(a, b, x, groups, gs);
    MovesAtLeastGains(a, b, groups, gs);
    MovesAtLeastGains(a, x, groups, gs);
  }
}
