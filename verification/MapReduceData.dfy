/**
 What MapReduce computes: bucketing by hash, grouping by key, and why the buckets together give what one pass gives.
 */
module MapReduceData {

  datatype KeyValue = KeyValue(key: string, value: string)

  datatype Line = Line(key: string, output: string)

  type ReduceFn = (string, seq<string>) -> string

  type HashFn = string -> nat

  // ---------------------------------------------------------------- key order

  /** Lexicographic order of keys. */
  predicate Leq(a: string, b: string) {
    |a| == 0 || (|b| > 0 && if a[0] != b[0] then a[0] < b[0] else Leq(a[1..], b[1..]))
  }

  lemma {:induction false} LeqBothWays(a: string, b: string)
    requires Leq(a, b) && Leq(b, a)
    ensures a == b
    decreases |a|
  {
    if |a| > 0 {
      LeqBothWays(a[1..], b[1..]);
      assert a == [a[0]] + a[1..] && b == [b[0]] + b[1..];
    }
  }

  predicate SortedByKey(s: seq<KeyValue>) {
    forall i, j :: 0 <= i < j < |s| ==> Leq(s[i].key, s[j].key)
  }

  // ---------------------------------------------------------------- grouping

  ghost function Keys(s: seq<KeyValue>): set<string> {
    set kv | kv in s :: kv.key
  }

  function Values(s: seq<KeyValue>): seq<string> {
    if |s| == 0 then [] else Values(s[..|s| - 1]) + [s[|s| - 1].value]
  }

  /** The values of one key, in order. */
  function ValuesOf(s: seq<KeyValue>, k: string): seq<string> {
    if |s| == 0 then []
    else ValuesOf(s[..|s| - 1], k) + if s[|s| - 1].key == k then [s[|s| - 1].value] else []
  }

  /** How many of the leading pairs share the first key. */
  function RunLength(s: seq<KeyValue>): (j: nat)
    requires |s| > 0
    ensures 0 < j <= |s|
    ensures forall i :: 0 <= i < j ==> s[i].key == s[0].key
    ensures j < |s| ==> s[j].key != s[0].key
  {
    RunFrom(s, 1)
  }

  function RunFrom(s: seq<KeyValue>, i: nat): (j: nat)
    requires 0 < i <= |s| && forall k :: 0 <= k < i ==> s[k].key == s[0].key
    ensures i <= j <= |s|
    ensures forall k :: 0 <= k < j ==> s[k].key == s[0].key
    ensures j < |s| ==> s[j].key != s[0].key
    decreases |s| - i
  {
    if i < |s| && s[i].key == s[0].key then RunFrom(s, i + 1) else i
  }

  /** One line per run of equal keys. */
  function Groups(f: ReduceFn, s: seq<KeyValue>): seq<Line> {
    if |s| == 0 then []
    else
      var j := RunLength(s);
      [Line(s[0].key, f(s[0].key, Values(s[..j])))] + Groups(f, s[j..])
  }

  /** The grouping loop, shared in form by the sequential program and by a reduce task. */
  method GroupAndReduce(f: ReduceFn, s: seq<KeyValue>) returns (lines: seq<Line>)
    ensures lines == Groups(f, s)
  {
    lines := [];
    var i := 0;
    assert s[0..] == s;
    while i < |s|
      invariant 0 <= i <= |s|
      invariant lines + Groups(f, s[i..]) == Groups(f, s)
    {
      var j := RunEnd(s, i);
      var values := Collect(s, i, j);
      var line := Line(s[i].key, f(s[i].key, values));
      OneGroup(f, s, i, j);
      assert lines + ([line] + Groups(f, s[j..])) == (lines + [line]) + Groups(f, s[j..]);
      lines := lines + [line];
      i := j;
    }
  }

  method RunEnd(s: seq<KeyValue>, i: nat) returns (j: nat)
    requires i < |s|
    ensures i < j <= |s| && (forall k :: i <= k < j ==> s[k].key == s[i].key) && (j < |s| ==> s[j].key != s[i].key)
  {
    j := i + 1;
    while j < |s| && s[j].key == s[i].key
      invariant i < j <= |s|
      invariant forall k :: i <= k < j ==> s[k].key == s[i].key
    {
      j := j + 1;
    }
  }

  method Collect(s: seq<KeyValue>, i: nat, j: nat) returns (values: seq<string>)
    requires i <= j <= |s|
    ensures values == Values(s[i..j])
  {
    values := [];
    for k := i to j
      invariant values == Values(s[i..k])
    {
      assert s[i..k + 1][..k - i] == s[i..k];
      values := values + [s[k].value];
    }
  }

  lemma RunLengthIs(s: seq<KeyValue>, j: nat)
    requires 0 < j <= |s| && (forall k :: 0 <= k < j ==> s[k].key == s[0].key) && (j < |s| ==> s[j].key != s[0].key)
    ensures RunLength(s) == j
  {
  }

  lemma OneGroup(f: ReduceFn, s: seq<KeyValue>, i: nat, j: nat)
    requires i < j <= |s| && (forall k :: i <= k < j ==> s[k].key == s[i].key) && (j < |s| ==> s[j].key != s[i].key)
    ensures Groups(f, s[i..]) == [Line(s[i].key, f(s[i].key, Values(s[i..j])))] + Groups(f, s[j..])
  {
    var t := s[i..];
    RunLengthIs(t, j - i);
    assert t[..j - i] == s[i..j] && t[j - i..] == s[j..];
  }

  // ---------------------------------------------------------------- what the lines say

  /** One line per key, with the reduction of all the key's values. */
  ghost function LineSet(f: ReduceFn, s: seq<KeyValue>): set<Line> {
    set k | k in Keys(s) :: Line(k, f(k, ValuesOf(s, k)))
  }

  lemma {:induction false} ValuesOfConcat(s: seq<KeyValue>, t: seq<KeyValue>, k: string)
    ensures ValuesOf(s + t, k) == ValuesOf(s, k) + ValuesOf(t, k)
    decreases |t|
  {
    if |t| == 0 {
      assert s + t == s;
    } else {
      var t' := t[..|t| - 1];
      ValuesOfConcat(s, t', k);
      assert (s + t)[..|s + t| - 1] == s + t';
    }
  }

  lemma {:induction false} ValuesOfRun(s: seq<KeyValue>, k: string)
    requires forall i :: 0 <= i < |s| ==> s[i].key == k
    ensures ValuesOf(s, k) == Values(s)
  {
    if |s| > 0 { ValuesOfRun(s[..|s| - 1], k); }
  }

  lemma {:induction false} ValuesOfAbsent(s: seq<KeyValue>, k: string)
    requires forall i :: 0 <= i < |s| ==> s[i].key != k
    ensures ValuesOf(s, k) == []
  {
    if |s| > 0 { ValuesOfAbsent(s[..|s| - 1], k); }
  }

  /** In sorted order a key never comes back after its run. */
  lemma RunIsAll(s: seq<KeyValue>)
    requires SortedByKey(s) && |s| > 0
    ensures forall i :: RunLength(s) <= i < |s| ==> s[i].key != s[0].key
  {
    var j := RunLength(s);
    forall i | j <= i < |s| ensures s[i].key != s[0].key {
      if s[i].key == s[0].key && j < i { LeqBothWays(s[0].key, s[j].key); }
    }
  }

  /** The first run has all the values of the first key; the rest has those of the other keys. */
  lemma SplitValues(s: seq<KeyValue>, k: string)
    requires SortedByKey(s) && |s| > 0
    ensures k == s[0].key ==> ValuesOf(s, k) == Values(s[..RunLength(s)])
    ensures k != s[0].key ==> ValuesOf(s, k) == ValuesOf(s[RunLength(s)..], k)
  {
    var a, b := s[..RunLength(s)], s[RunLength(s)..];
    assert s == a + b;
    ValuesOfConcat(a, b, k);
    RunIsAll(s);
    if k == s[0].key {
      ValuesOfRun(a, k);
      ValuesOfAbsent(b, k);
    } else {
      ValuesOfAbsent(a, k);
    }
  }

  lemma SplitKeys(s: seq<KeyValue>)
    requires SortedByKey(s) && |s| > 0
    ensures Keys(s) == {s[0].key} + Keys(s[RunLength(s)..]) && s[0].key !in Keys(s[RunLength(s)..])
  {
    var j := RunLength(s);
    var a, b := s[..j], s[j..];
    RunIsAll(s);
    assert s[0] in s;
    forall kv ensures kv in s <==> kv in a || kv in b { assert s == a + b; }
    forall kv | kv in a ensures kv.key == s[0].key {}
    forall kv | kv in b ensures kv.key != s[0].key {}
  }

  /** Splitting off the first run splits off exactly the first key's line. */
  lemma SplitLines(f: ReduceFn, s: seq<KeyValue>)
    requires SortedByKey(s) && |s| > 0
    ensures var l := Line(s[0].key, f(s[0].key, Values(s[..RunLength(s)])));
      LineSet(f, s) == {l} + LineSet(f, s[RunLength(s)..]) && l !in LineSet(f, s[RunLength(s)..])
  {
    SplitKeys(s);
    var b := s[RunLength(s)..];
    forall k ensures Line(k, f(k, ValuesOf(s, k))) == if k == s[0].key then Line(k, f(k, Values(s[..RunLength(s)])))
        else Line(k, f(k, ValuesOf(b, k))) {
      SplitValues(s, k);
    }
  }

  /** On sorted input the grouping loop writes exactly one line per key. */
  lemma {:induction false} GroupsAreLines(f: ReduceFn, s: seq<KeyValue>)
    requires SortedByKey(s)
    ensures multiset(Groups(f, s)) == multiset(LineSet(f, s))
    decreases |s|
  {
    if |s| == 0 {
      assert LineSet(f, s) == {};
    } else {
      var j := RunLength(s);
      GroupsAreLines(f, s[j..]);
      SplitLines(f, s);
    }
  }

  // ---------------------------------------------------------------- order does not matter

  ghost predicate OrderBlind(f: ReduceFn) {
    forall k, a, b :: multiset(a) == multiset(b) ==> f(k, a) == f(k, b)
  }

  lemma RemoveOne(s: seq<KeyValue>, kv: KeyValue, a: seq<KeyValue>, b: seq<KeyValue>)
    requires multiset(s + [kv]) == multiset(a + [kv] + b)
    ensures multiset(s) == multiset(a + b)
  {
    assert multiset(s + [kv]) == multiset(s) + multiset{kv};
    assert multiset(a + [kv] + b) == multiset(a) + multiset{kv} + multiset(b);
    assert multiset(a + b) == multiset(a) + multiset(b);
    assert multiset(s) == multiset(s) + multiset{kv} - multiset{kv};
    assert multiset(a) + multiset(b) == multiset(a) + multiset{kv} + multiset(b) - multiset{kv};
  }

  lemma {:induction false} SameValues(s: seq<KeyValue>, t: seq<KeyValue>, k: string)
    requires multiset(s) == multiset(t)
    ensures multiset(ValuesOf(s, k)) == multiset(ValuesOf(t, k))
    decreases |s|
  {
    if |s| == 0 {
      assert |t| == |multiset(t)| == |multiset(s)| == 0;
    } else {
      var kv, s' := s[|s| - 1], s[..|s| - 1];
      assert s == s' + [kv];
      assert kv in multiset(t);
      var i :| 0 <= i < |t| && t[i] == kv;
      var a, b := t[..i], t[i + 1..];
      assert t == a + [kv] + b;
      RemoveOne(s', kv, a, b);
      SameValues(s', a + b, k);
      ValuesOfConcat(a, b, k);
      ValuesOfConcat(a + [kv], b, k);
      ValuesOfConcat(a, [kv], k);
    }
  }

  lemma SameLines(f: ReduceFn, s: seq<KeyValue>, t: seq<KeyValue>)
    requires OrderBlind(f) && multiset(s) == multiset(t)
    ensures LineSet(f, s) == LineSet(f, t)
  {
    forall kv ensures kv in s <==> kv in t { assert kv in multiset(s) <==> kv in multiset(t); }
    assert Keys(s) == Keys(t);
    forall k ensures f(k, ValuesOf(s, k)) == f(k, ValuesOf(t, k)) { SameValues(s, t, k); }
  }

  // ---------------------------------------------------------------- buckets

  /** The pairs that go to reduce bucket `r` of `n`. */
  function Bucket(h: HashFn, n: nat, s: seq<KeyValue>, r: nat): seq<KeyValue>
    requires n > 0
  {
    if |s| == 0 then []
    else Bucket(h, n, s[..|s| - 1], r) + if h(s[|s| - 1].key) % n == r then [s[|s| - 1]] else []
  }

  /** A map task's loop: one bucket per reduce task. */
  method FillBuckets(h: HashFn, n: nat, kva: seq<KeyValue>) returns (buckets: array<seq<KeyValue>>)
    requires n > 0
    ensures buckets.Length == n && forall r :: 0 <= r < n ==> buckets[r] == Bucket(h, n, kva, r)
  {
    buckets := new seq<KeyValue>[n](_ => []);
    for i := 0 to |kva|
      invariant forall r :: 0 <= r < n ==> buckets[r] == Bucket(h, n, kva[..i], r)
    {
      assert kva[..i + 1][..i] == kva[..i];
      var kv := kva[i];
      var reduceId := h(kv.key) % n;
      buckets[reduceId] := buckets[reduceId] + [kv];
    }
    assert kva[..|kva|] == kva;
  }

  lemma {:induction false} BucketConcat(h: HashFn, n: nat, s: seq<KeyValue>, t: seq<KeyValue>, r: nat)
    requires n > 0
    ensures Bucket(h, n, s + t, r) == Bucket(h, n, s, r) + Bucket(h, n, t, r)
    decreases |t|
  {
    if |t| == 0 {
      assert s + t == s;
    } else {
      var t' := t[..|t| - 1];
      BucketConcat(h, n, s, t', r);
      assert (s + t)[..|s + t| - 1] == s + t';
    }
  }

  /** A bucket has all the values of its keys, and no other keys. */
  lemma {:induction false} BucketValues(h: HashFn, n: nat, s: seq<KeyValue>, r: nat, k: string)
    requires n > 0
    ensures ValuesOf(Bucket(h, n, s, r), k) == if h(k) % n == r then ValuesOf(s, k) else []
  {
    if |s| > 0 {
      var s', kv := s[..|s| - 1], s[|s| - 1];
      BucketValues(h, n, s', r, k);
      var b := Bucket(h, n, s', r);
      assert (b + [kv])[..|b|] == b;
      if h(kv.key) % n == r { assert Bucket(h, n, s, r) == b + [kv]; } else { assert Bucket(h, n, s, r) == b; }
    }
  }

  lemma {:induction false} BucketKeys(h: HashFn, n: nat, s: seq<KeyValue>, r: nat)
    requires n > 0
    ensures forall kv :: kv in Bucket(h, n, s, r) <==> kv in s && h(kv.key) % n == r
  {
    if |s| > 0 {
      var s', kv := s[..|s| - 1], s[|s| - 1];
      BucketKeys(h, n, s', r);
      assert s == s' + [kv];
    }
  }

  ghost function LinesBelow(f: ReduceFn, h: HashFn, n: nat, s: seq<KeyValue>, m: nat): set<Line>
    requires n > 0
  {
    set l | l in LineSet(f, s) && h(l.key) % n < m
  }

  lemma BucketLines(f: ReduceFn, h: HashFn, n: nat, s: seq<KeyValue>, r: nat)
    requires n > 0
    ensures LinesBelow(f, h, n, s, r + 1) == LinesBelow(f, h, n, s, r) + LineSet(f, Bucket(h, n, s, r))
    ensures LinesBelow(f, h, n, s, r) !! LineSet(f, Bucket(h, n, s, r))
  {
    forall k
      ensures ValuesOf(Bucket(h, n, s, r), k) == if h(k) % n == r then ValuesOf(s, k) else []
    {
      BucketValues(h, n, s, r, k);
    }
    BucketKeys(h, n, s, r);
    forall k ensures k in Keys(Bucket(h, n, s, r)) <==> k in Keys(s) && h(k) % n == r {}
  }

  /** The output files of the reduce tasks, one after the other. */
  function Joined(outs: seq<seq<Line>>): seq<Line> {
    if |outs| == 0 then [] else Joined(outs[..|outs| - 1]) + outs[|outs| - 1]
  }

  /** A possible output of reduce task `r`: some key-sorted arrangement of its bucket, grouped. */
  ghost predicate IsOutput(f: ReduceFn, bucket: seq<KeyValue>, lines: seq<Line>) {
    exists s :: SortedByKey(s) && multiset(s) == multiset(bucket) && lines == Groups(f, s)
  }

  lemma OutputLines(f: ReduceFn, bucket: seq<KeyValue>, lines: seq<Line>)
    requires OrderBlind(f) && IsOutput(f, bucket, lines)
    ensures multiset(lines) == multiset(LineSet(f, bucket))
  {
    var s :| SortedByKey(s) && multiset(s) == multiset(bucket) && lines == Groups(f, s);
    GroupsAreLines(f, s);
    SameLines(f, s, bucket);
  }

  lemma {:induction false} JoinedLines(f: ReduceFn, h: HashFn, n: nat, all: seq<KeyValue>, outs: seq<seq<Line>>)
    requires OrderBlind(f) && n > 0
    requires forall r: nat :: r < |outs| ==> IsOutput(f, Bucket(h, n, all, r), outs[r])
    ensures multiset(Joined(outs)) == multiset(LinesBelow(f, h, n, all, |outs|))
    decreases |outs|
  {
    if |outs| == 0 {
      assert LinesBelow(f, h, n, all, 0) == {};
    } else {
      var r := |outs| - 1;
      JoinedLines(f, h, n, all, outs[..r]);
      OutputLines(f, Bucket(h, n, all, r), outs[r]);
      BucketLines(f, h, n, all, r);
    }
  }

  /**
   The reduce tasks' outputs together are, as a multiset of lines, what the sequential program writes,
   whatever order the sorts leave equal keys in.
   */
  lemma DistributedEqualsSequential(f: ReduceFn, h: HashFn, n: nat, all: seq<KeyValue>, outs: seq<seq<Line>>,
                                    sequential: seq<Line>)
    requires OrderBlind(f) && n > 0 && |outs| == n && IsOutput(f, all, sequential)
    requires forall r: nat :: r < n ==> IsOutput(f, Bucket(h, n, all, r), outs[r])
    ensures multiset(Joined(outs)) == multiset(sequential)
  {
    JoinedLines(f, h, n, all, outs);
    OutputLines(f, all, sequential);
    assert LinesBelow(f, h, n, all, n) == LineSet(f, all);
  }
}
