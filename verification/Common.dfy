/** Small shared vocabulary: an optional value, and strict majorities of servers `0..n-1`. */
module Common {

  datatype Option<+T> = None | Some(value: T)

  ghost function Servers(n: nat): (s: set<nat>)
    ensures forall i :: i in s <==> 0 <= i < n
  {
    if n == 0 then {} else Servers(n - 1) + {n - 1}
  }

  ghost predicate Majority(q: set<nat>, n: nat) {
    q <= Servers(n) && 2 * |q| > n
  }

  lemma {:induction false} ServersSize(n: nat)
    ensures |Servers(n)| == n
  {
    if n > 0 {
      ServersSize(n - 1);
    }
  }

  lemma SubsetSize<T>(a: set<T>, b: set<T>)
    requires a <= b
    ensures |a| <= |b|
  {
    assert b == a + (b - a);
  }

  lemma MajorityGrows(a: set<nat>, b: set<nat>, n: nat)
    requires Majority(a, n) && a <= b <= Servers(n)
    ensures Majority(b, n)
  {
    SubsetSize(a, b);
  }

  /** Any two majorities of the same cluster share a server. */
  lemma MajoritiesMeet(a: set<nat>, b: set<nat>, n: nat) returns (j: nat)
    requires Majority(a, n) && Majority(b, n)
    ensures j in a && j in b && j < n
  {
    if a * b == {} {
      assert |a + b| == |a| + |b|;
      SubsetSize(a + b, Servers(n));
      ServersSize(n);
      assert false;
    }
    j :| j in a * b;
  }
}
