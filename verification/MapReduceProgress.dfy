/** Every job can be finished: from every reachable state whose map reports were sound, some workers complete it. */
module MapReduceProgress {
  import Common
  import opened MapReduceData
  import opened MapReduceCoordinator
  import opened MapReduceRuns

  // ---------------------------------------------------------------- sorting is possible

  lemma {:induction false} LeqTotal(a: string, b: string)
    ensures Leq(a, b) || Leq(b, a)
    decreases |a|
  {
    if |a| > 0 && |b| > 0 && a[0] == b[0] {
      LeqTotal(a[1..], b[1..]);
    }
  }

  lemma {:induction false} LeqTransitive(a: string, b: string, c: string)
    requires Leq(a, b) && Leq(b, c)
    ensures Leq(a, c)
    decreases |a|
  {
    if |a| > 0 && a[0] == b[0] && b[0] == c[0] {
      LeqTransitive(a[1..], b[1..], c[1..]);
    }
  }

  /** Put one more pair into a sorted list. */
  lemma {:induction false} InsertSorted(s: seq<KeyValue>, kv: KeyValue) returns (t: seq<KeyValue>)
    requires SortedByKey(s)
    ensures SortedByKey(t) && multiset(t) == multiset(s) + multiset{kv}
    decreases |s|
  {
    if |s| == 0 {
      t := [kv];
    } else {
      var front, last := s[..|s| - 1], s[|s| - 1];
      assert s == front + [last];
      if Leq(last.key, kv.key) {
        t := s + [kv];
        forall i | 0 <= i < |s| ensures Leq(s[i].key, kv.key) {
          if i < |s| - 1 { LeqTransitive(s[i].key, last.key, kv.key); }
        }
      } else {
        LeqTotal(last.key, kv.key);
        var u := InsertSorted(front, kv);
        t := u + [last];
        forall i | 0 <= i < |u| ensures Leq(u[i].key, last.key) {
          assert u[i] in multiset(front) + multiset{kv};
          if u[i] != kv { assert u[i] in front; }
        }
      }
    }
  }

  lemma {:induction false} CanBeSorted(s: seq<KeyValue>) returns (t: seq<KeyValue>)
    ensures SortedByKey(t) && multiset(t) == multiset(s)
    decreases |s|
  {
    if |s| == 0 {
      t := [];
    } else {
      var front, last := s[..|s| - 1], s[|s| - 1];
      assert s == front + [last];
      var u := CanBeSorted(front);
      t := InsertSorted(u, last);
    }
  }

  // ---------------------------------------------------------------- one task after the other

  function Now(run: seq<State>, events: seq<Event>): State
    requires |run| == |events| + 1
  {
    run[|events|]
  }

  /** No report so far hit a finished map task. */
  ghost predicate SoundMaps(run: seq<State>, events: seq<Event>)
    requires |run| == |events| + 1
  {
    Hits(run, events, |events|, Mapper) == 0
  }

  lemma {:induction false} HitsOfPrefix(run: seq<State>, events: seq<Event>, run': seq<State>, events': seq<Event>,
                                        k: nat, role: Role)
    requires |run| == |events| + 1 && |run'| == |events'| + 1 && run <= run' && events <= events' && k <= |events|
    ensures Hits(run', events', k, role) == Hits(run, events, k, role)
  {
    if k > 0 {
      HitsOfPrefix(run, events, run', events', k - 1, role);
    }
  }

  /** One more event. */
  lemma GoOn(j: Job, run: seq<State>, events: seq<Event>, e: Event) returns (run': seq<State>, events': seq<Event>)
    requires IsRun(j, run, events) && SoundMaps(run, events) && Enabled(j, Now(run, events), e)
    requires !Hit(Now(run, events), e, Mapper)
    ensures IsRun(j, run', events') && SoundMaps(run', events') && Now(run', events') == Perform(j, Now(run, events), e)
  {
    run', events' := run + [Perform(j, Now(run, events), e)], events + [e];
    HitsOfPrefix(run, events, run', events', |events|, Mapper);
  }

  /** A worker is given a task of the current phase, everything in progress being taken to have expired. */
  lemma GetTask(j: Job, run: seq<State>, events: seq<Event>)
    returns (run': seq<State>, events': seq<Event>, t: nat, id: nat)
    requires IsRun(j, run, events) && SoundMaps(run, events) && !Now(run, events).coord.reduceDone
    ensures IsRun(j, run', events') && SoundMaps(run', events')
    ensures var c, y := Now(run, events).coord, Now(run', events');
      && id < |c.tasks| && c.tasks[id].state != Success && t == c.index + 1
      && y.coord == c.(index := t, tasks := c.tasks[id := Task(Processing, t, RoleNow(c))]) && t in y.works
      && y.works[t] == (if c.mapDone then Reducing(id, 0, []) else Mapping(id, 0))
      && (c.mapDone <==> id >= |j.maps|) && c.tasks[id].role == RoleNow(c)
  {
    var c := Now(run, events).coord;
    RunInv(j, run, events, |events|);
    HandsOutFirstAvailable(c, Common.Servers(|c.tasks|));
    var k := SomeOpen(j, c, Hits(run, events, |events|, Mapper), Hits(run, events, |events|, Reducer));
    assert Available(c, RoleNow(c), Common.Servers(|c.tasks|), k);
    var g := Alloc(c, Common.Servers(|c.tasks|)).1;
    t, id := g.token, g.id;
    assert TaskOk(j, c, id);
    run', events' := GoOn(j, run, events, Ask(Common.Servers(|c.tasks|)));
  }

  lemma SomeOpen(j: Job, c: Coord, hm: nat, hr: nat) returns (k: nat)
    requires JobOk(j) && CoordOk(j, c, hm, hr) && !c.reduceDone
    ensures k < |c.tasks| && c.tasks[k].role == RoleNow(c) && c.tasks[k].state != Success
  {
    assert |Open(c, RoleNow(c))| > 0;
    k :| k in Open(c, RoleNow(c));
  }

  /** A map run writes all its buckets and finishes. */
  lemma {:induction false} MapRuns(j: Job, run: seq<State>, events: seq<Event>, t: nat, id: nat, w: nat)
    returns (run': seq<State>, events': seq<Event>)
    requires IsRun(j, run, events) && SoundMaps(run, events) && w <= j.n && id < |j.maps|
    requires t in Now(run, events).works && Now(run, events).works[t] == Mapping(id, w)
    ensures IsRun(j, run', events') && SoundMaps(run', events') && Now(run', events').coord == Now(run, events).coord
    ensures t in Now(run', events').works && Now(run', events').works[t] == Finished(id)
    decreases j.n - w
  {
    if w == j.n {
      run', events' := GoOn(j, run, events, MapFinishes(t));
    } else {
      run', events' := GoOn(j, run, events, WriteBucket(t));
      run', events' := MapRuns(j, run', events', t, id, w + 1);
    }
  }

  /** With all maps done, a reduce run reads all its files, sorts, writes and finishes. */
  lemma {:induction false} ReduceRuns(j: Job, run: seq<State>, events: seq<Event>, t: nat, k: nat)
    returns (run': seq<State>, events': seq<Event>)
    requires IsRun(j, run, events) && SoundMaps(run, events) && k <= |j.maps|
    requires t in Now(run, events).works && Now(run, events).works[t].Reducing? && Now(run, events).works[t].read == k
    ensures IsRun(j, run', events') && SoundMaps(run', events') && Now(run', events').coord == Now(run, events).coord
    ensures t in Now(run', events').works && Now(run', events').works[t] == Finished(Now(run, events).works[t].id)
    decreases |j.maps| - k
  {
    if k == |j.maps| {
      var s := CanBeSorted(Now(run, events).works[t].got);
      run', events' := GoOn(j, run, events, WriteOutput(t, s));
    } else {
      FileThere(j, run, events, t, k);
      run', events' := GoOn(j, run, events, ReadBucket(t));
      run', events' := ReduceRuns(j, run', events', t, k + 1);
    }
  }

  lemma FileThere(j: Job, run: seq<State>, events: seq<Event>, t: nat, k: nat)
    requires IsRun(j, run, events) && SoundMaps(run, events) && k < |j.maps|
    requires t in Now(run, events).works && Now(run, events).works[t].Reducing?
    ensures (k, Now(run, events).works[t].id % j.n) in Now(run, events).files
  {
    ReduceOnlyAfterAllMaps(j, run, events, |events|, t);
    HitsIff(run, events, |events|, Mapper);
    assert ReadyFor(j, Now(run, events), k, Now(run, events).works[t].id % j.n);
  }

  /** Given out, run and reported, a task of the phase is done and counted. */
  lemma OneTask(j: Job, run: seq<State>, events: seq<Event>) returns (run': seq<State>, events': seq<Event>)
    requires IsRun(j, run, events) && SoundMaps(run, events) && !Now(run, events).coord.reduceDone
    ensures IsRun(j, run', events') && SoundMaps(run', events')
    ensures var c, d := Now(run, events).coord, Now(run', events').coord;
      && (!c.mapDone ==> d.leftMap == c.leftMap - 1 && d.leftReduce == c.leftReduce)
      && (c.mapDone ==> d.mapDone && d.leftReduce == c.leftReduce - 1 && (d.reduceDone <==> d.leftReduce == 0))
      && (!c.mapDone ==> (d.mapDone <==> d.leftMap == 0))
  {
    var t, id;
    run', events', t, id := GetTask(j, run, events);
    if Now(run, events).coord.mapDone {
      run', events' := ReduceRuns(j, run', events', t, 0);
    } else {
      run', events' := MapRuns(j, run', events', t, id, 0);
    }
    run', events' := GoOn(j, run', events', Report(t));
  }

  /** The whole job. */
  lemma {:induction false} JobCanFinish(j: Job, run: seq<State>, events: seq<Event>)
    returns (run': seq<State>, events': seq<Event>)
    requires IsRun(j, run, events) && SoundMaps(run, events)
    ensures IsRun(j, run', events') && Now(run', events').coord.reduceDone
    decreases !Now(run, events).coord.reduceDone, !Now(run, events).coord.mapDone,
      if Now(run, events).coord.mapDone then Now(run, events).coord.leftReduce else Now(run, events).coord.leftMap
  {
    run', events' := run, events;
    RunInv(j, run, events, |events|);
    if !Now(run, events).coord.reduceDone {
      run', events' := OneTask(j, run, events);
      RunInv(j, run', events', |events'|);
      run', events' := JobCanFinish(j, run', events');
    }
  }
}
