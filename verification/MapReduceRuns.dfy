/**
 A whole MapReduce job: workers that may be slow, be given up on, or die, against one coordinator.  Each run of
 a task has its own token; its completion may be reported any number of times.
 */
module MapReduceRuns {
  import Common
  import opened MapReduceData
  import opened MapReduceCoordinator

  /** The job: what each input file maps to, the number of reduce tasks, the hash and the reduction. */
  datatype Job = Job(maps: seq<seq<KeyValue>>, n: nat, h: HashFn, f: ReduceFn)

  /** One run of a task, identified by its token. */
  datatype Work =
    | Mapping(id: nat, wrote: nat)
    | Reducing(id: nat, read: nat, got: seq<KeyValue>)
    | Finished(id: nat)
    | Reported(id: nat)

  datatype State = State(
    coord: Coord,
    works: map<nat, Work>,
    files: map<(nat, nat), seq<KeyValue>>,
    outs: map<nat, seq<Line>>)

  datatype Event =
    | Ask(expired: set<nat>)
    | WriteBucket(t: nat)
    | MapFinishes(t: nat)
    | ReadBucket(t: nat)
    | WriteOutput(t: nat, sorted: seq<KeyValue>)
    | Report(t: nat)

  ghost predicate Enabled(j: Job, y: State, e: Event)
    requires j.n > 0
  {
    match e
    case Ask(_) => true
    case WriteBucket(t) => t in y.works && y.works[t].Mapping? && y.works[t].wrote < j.n && y.works[t].id < |j.maps|
    case MapFinishes(t) => t in y.works && y.works[t].Mapping? && y.works[t].wrote == j.n
    case ReadBucket(t) =>
      t in y.works && y.works[t].Reducing? && y.works[t].read < |j.maps|
          && (y.works[t].read, y.works[t].id % j.n) in y.files
    case WriteOutput(t, s) =>
      && t in y.works && y.works[t].Reducing? && y.works[t].read == |j.maps|
      && SortedByKey(s) && multiset(s) == multiset(y.works[t].got)
    case Report(t) => t in y.works && (y.works[t].Finished? || y.works[t].Reported?) && y.works[t].id < |y.coord.tasks|
  }

  ghost predicate JobOk(j: Job) {
    j.n > 0 && |j.maps| > 0
  }

  ghost function Perform(j: Job, y: State, e: Event): State
    requires JobOk(j) && Enabled(j, y, e)
  {
    match e
    case Ask(expired) =>
      var (c, g) := Alloc(y.coord, expired);
      if g.Run? then y.(coord := c,
          works := y.works[g.token := if g.role == Mapper then Mapping(g.id, 0) else Reducing(g.id, 0, [])])
      else y.(coord := c)
    case WriteBucket(t) =>
      var Mapping(id, r) := y.works[t];
      y.(works := y.works[t := Mapping(id, r + 1)], files := y.files[(id, r) := Bucket(j.h, j.n, j.maps[id], r)])
    case MapFinishes(t) => y.(works := y.works[t := Finished(y.works[t].id)])
    case ReadBucket(t) =>
      var Reducing(id, k, got) := y.works[t];
      y.(works := y.works[t := Reducing(id, k + 1, got + y.files[(k, id % j.n)])])
    case WriteOutput(t, s) =>
      var id := y.works[t].id;
      y.(works := y.works[t := Finished(id)], outs := y.outs[id % j.n := Groups(j.f, s)])
    case Report(t) => y.(works := y.works[t := Reported(y.works[t].id)], coord := Complete(y.coord, y.works[t].id, t))
  }

  ghost predicate IsRun(j: Job, run: seq<State>, events: seq<Event>) {
    && JobOk(j) && |run| == |events| + 1
    && run[0] == State(Started(|j.maps|, j.n), map[], map[], map[])
    && forall k :: 0 <= k < |events| ==> Enabled(j, run[k], events[k]) && run[k + 1] == Perform(j, run[k], events[k])
  }

  // ---------------------------------------------------------------- reduce task ids and buckets

  lemma AtLeastOne(n: int, d: int)
    requires n > 0 && d > 0
    ensures n * d >= n
  {
  }

  lemma RemainderIs(x: nat, q: nat, r: nat, n: nat)
    requires r < n && x == n * q + r
    ensures x % n == r
  {
    var q' := x / n;
    assert x == n * q' + x % n;
    assert n * (q - q') == n * q - n * q' && n * (q' - q) == n * q' - n * q;
    if q > q' {
      AtLeastOne(n, q - q');
    } else if q < q' {
      AtLeastOne(n, q' - q);
    }
  }

  lemma OneRound(a: nat, n: nat)
    requires n > 0
    ensures (a + n) % n == a % n
  {
    assert n * (a / n + 1) == n * (a / n) + n;
    RemainderIs(a + n, a / n + 1, a % n, n);
  }

  /** Reduce tasks and buckets correspond one to one: exactly one of the ids `m .. m + n - 1` serves bucket `r`. */
  lemma {:induction false} TaskOfBucket(m: nat, n: nat, r: nat) returns (id: nat)
    requires r < n
    ensures m <= id < m + n && id % n == r
    ensures forall x: nat :: m <= x < m + n && x % n == r ==> x == id
    decreases m
  {
    if m == 0 {
      id := r;
      forall x: nat | x < n ensures x % n == x { RemainderIs(x, 0, x, n); }
    } else {
      id := TaskOfBucket(m - 1, n, r);
      OneRound(m - 1, n);
      if id == m - 1 {
        id := m - 1 + n;
      }
    }
  }

  // ---------------------------------------------------------------- the invariant

  /** The event is a counted report that finds its task, of this role, already done. */
  ghost predicate Hit(y: State, e: Event, role: Role) {
    && e.Report? && e.t in y.works && (y.works[e.t].Finished? || y.works[e.t].Reported?)
    && var id := y.works[e.t].id;
      id < |y.coord.tasks| && Counts(y.coord, id, e.t) && y.coord.tasks[id].state == Success
          && y.coord.tasks[id].role == role
  }

  /** How many of the first `k` events of a run were such reports. */
  ghost function Hits(run: seq<State>, events: seq<Event>, k: nat, role: Role): nat
    requires k <= |events| && |run| == |events| + 1
  {
    if k == 0 then 0 else Hits(run, events, k - 1, role) + if Hit(run[k - 1], events[k - 1], role) then 1 else 0
  }

  ghost predicate TaskOk(j: Job, c: Coord, i: nat) {
    i < |c.tasks| ==> c.tasks[i].role == (if i < |j.maps| then Mapper else Reducer) && c.tasks[i].expected <= c.index
  }

  /** The counters are too small by the reports that hit finished tasks: `hm` map tasks, `hr` reduce tasks. */
  ghost predicate CoordOk(j: Job, c: Coord, hm: nat, hr: nat) {
    && |c.tasks| == |j.maps| + j.n && (forall i: nat :: TaskOk(j, c, i))
    && (if c.mapDone then |Open(c, Mapper)| == hm else c.leftMap + hm == |Open(c, Mapper)| && c.leftMap > 0)
    && c.leftReduce + hr == |Open(c, Reducer)|
    && (c.reduceDone ==> c.mapDone && c.leftReduce <= 0) && (!c.reduceDone ==> c.leftReduce > 0)
  }

  /** A run not yet reported is done by a token its task does not expect, or its task is in progress. */
  ghost predicate Current(c: Coord, id: nat, t: nat) {
    id < |c.tasks| && (c.tasks[id].expected == t ==> c.tasks[id].state == Processing)
  }

  ghost predicate WorkOk(j: Job, y: State, t: nat)
    requires j.n > 0
  {
    t in y.works ==>
      && 1 <= t <= y.coord.index
      && match y.works[t]
         case Mapping(id, w) => Current(y.coord, id, t) && id < |j.maps| && w <= j.n && forall r: nat :: r < w ==>
             (id, r) in y.files
         case Reducing(id, k, got) =>
           && Current(y.coord, id, t) && id >= |j.maps| && y.coord.mapDone && k <= |j.maps|
           && got == Bucket(j.h, j.n, Flat(j.maps[..k]), id % j.n)
         case Finished(id) => Current(y.coord, id, t) && Output(j, y, id) && (id >= |j.maps| ==> y.coord.mapDone)
         case Reported(id) => id < |y.coord.tasks| && Output(j, y, id) && (id >= |j.maps| ==> y.coord.mapDone)
  }

  /** The files task `id` is to produce are there. */
  ghost predicate Output(j: Job, y: State, id: nat)
    requires j.n > 0
  {
    if id < |j.maps| then forall r: nat :: r < j.n ==> (id, r) in y.files else id % j.n in y.outs
  }

  function Flat(maps: seq<seq<KeyValue>>): seq<KeyValue> {
    if |maps| == 0 then [] else Flat(maps[..|maps| - 1]) + maps[|maps| - 1]
  }

  ghost predicate DoneOk(j: Job, y: State, i: nat)
    requires j.n > 0
  {
    i < |y.coord.tasks| && y.coord.tasks[i].state == Success ==> Output(j, y, i)
  }

  ghost predicate FileOk(j: Job, y: State, id: nat, r: nat)
    requires j.n > 0
  {
    (id, r) in y.files ==> id < |j.maps| && y.files[(id, r)] == Bucket(j.h, j.n, j.maps[id], r)
  }

  ghost predicate OutOk(j: Job, y: State, r: nat)
    requires j.n > 0
  {
    r in y.outs ==> IsOutput(j.f, Bucket(j.h, j.n, Flat(j.maps), r), y.outs[r])
  }

  ghost predicate Inv(j: Job, y: State, hm: nat, hr: nat) {
    && JobOk(j) && CoordOk(j, y.coord, hm, hr)
    && (forall t: nat :: WorkOk(j, y, t))
    && (forall i: nat :: DoneOk(j, y, i))
    && (forall id: nat, r: nat :: FileOk(j, y, id, r))
    && (forall r: nat :: OutOk(j, y, r))
  }

  // ---------------------------------------------------------------- workers

  /** Files and outputs only accumulate, and the coordinator is not involved. */
  ghost predicate Accumulates(y: State, y': State) {
    && y'.coord == y.coord
    && (forall id: nat, r: nat :: (id, r) in y.files ==> (id, r) in y'.files)
    && (forall r: nat :: r in y.outs ==> r in y'.outs)
  }

  lemma OthersStay(j: Job, y: State, y': State, hm: nat, hr: nat, t: nat)
    requires Inv(j, y, hm, hr) && Accumulates(y, y') && t in y'.works && y'.works == y.works[t := y'.works[t]]
        && WorkOk(j, y', t)
    ensures forall x: nat :: WorkOk(j, y', x)
    ensures forall i: nat :: DoneOk(j, y', i)
  {
    forall x: nat ensures WorkOk(j, y', x) { assert WorkOk(j, y, x); }
    forall i: nat ensures DoneOk(j, y', i) { assert DoneOk(j, y, i); }
  }

  lemma WriteBucketInv(j: Job, y: State, hm: nat, hr: nat, t: nat)
    requires Inv(j, y, hm, hr) && Enabled(j, y, WriteBucket(t))
    ensures Inv(j, Perform(j, y, WriteBucket(t)), hm, hr)
  {
    var y' := Perform(j, y, WriteBucket(t));
    assert WorkOk(j, y, t);
    OthersStay(j, y, y', hm, hr, t);
    forall id: nat, r: nat ensures FileOk(j, y', id, r) { assert FileOk(j, y, id, r); }
    forall r: nat ensures OutOk(j, y', r) { assert OutOk(j, y, r); }
  }

  lemma MapFinishesInv(j: Job, y: State, hm: nat, hr: nat, t: nat)
    requires Inv(j, y, hm, hr) && Enabled(j, y, MapFinishes(t))
    ensures Inv(j, Perform(j, y, MapFinishes(t)), hm, hr)
  {
    var y' := Perform(j, y, MapFinishes(t));
    assert WorkOk(j, y, t);
    OthersStay(j, y, y', hm, hr, t);
    forall id: nat, r: nat ensures FileOk(j, y', id, r) { assert FileOk(j, y, id, r); }
    forall r: nat ensures OutOk(j, y', r) { assert OutOk(j, y, r); }
  }

  /** What a reduce task has read so far is its bucket of the first map outputs. */
  lemma ReadOneMore(j: Job, k: nat, r: nat)
    requires j.n > 0 && k < |j.maps|
    ensures Bucket(j.h, j.n, Flat(j.maps[..k]), r) + Bucket(j.h, j.n, j.maps[k], r) == Bucket(j.h, j.n,
        Flat(j.maps[..k + 1]), r)
  {
    assert j.maps[..k + 1][..k] == j.maps[..k];
    BucketConcat(j.h, j.n, Flat(j.maps[..k]), j.maps[k], r);
  }

  lemma ReadBucketInv(j: Job, y: State, hm: nat, hr: nat, t: nat)
    requires Inv(j, y, hm, hr) && Enabled(j, y, ReadBucket(t))
    ensures Inv(j, Perform(j, y, ReadBucket(t)), hm, hr)
  {
    var y' := Perform(j, y, ReadBucket(t));
    assert WorkOk(j, y, t);
    var Reducing(id, k, got) := y.works[t];
    assert FileOk(j, y, k, id % j.n);
    ReadOneMore(j, k, id % j.n);
    OthersStay(j, y, y', hm, hr, t);
    forall id: nat, r: nat ensures FileOk(j, y', id, r) { assert FileOk(j, y, id, r); }
    forall r: nat ensures OutOk(j, y', r) { assert OutOk(j, y, r); }
  }

  lemma WriteOutputInv(j: Job, y: State, hm: nat, hr: nat, t: nat, s: seq<KeyValue>)
    requires Inv(j, y, hm, hr) && Enabled(j, y, WriteOutput(t, s))
    ensures Inv(j, Perform(j, y, WriteOutput(t, s)), hm, hr)
  {
    var y' := Perform(j, y, WriteOutput(t, s));
    assert WorkOk(j, y, t);
    assert j.maps[..|j.maps|] == j.maps;
    OthersStay(j, y, y', hm, hr, t);
    forall id: nat, r: nat ensures FileOk(j, y', id, r) { assert FileOk(j, y, id, r); }
    forall r: nat ensures OutOk(j, y', r) { assert OutOk(j, y, r); }
  }

  // ---------------------------------------------------------------- the coordinator

  lemma AllocCoord(j: Job, c: Coord, hm: nat, hr: nat, expired: set<nat>)
    requires JobOk(j) && CoordOk(j, c, hm, hr)
    ensures CoordOk(j, Alloc(c, expired).0, hm, hr)
  {
    var (c', g) := Alloc(c, expired);
    if g.Run? {
      assert Open(c', Mapper) == Open(c, Mapper);
      assert Open(c', Reducer) == Open(c, Reducer);
      forall i: nat ensures TaskOk(j, c', i) { assert TaskOk(j, c, i); }
    }
  }

  lemma AskWork(j: Job, y: State, hm: nat, hr: nat, expired: set<nat>, t: nat)
    requires Inv(j, y, hm, hr)
    ensures WorkOk(j, Perform(j, y, Ask(expired)), t)
  {
    var g := Alloc(y.coord, expired).1;
    assert WorkOk(j, y, t);
    if g.Run? { assert TaskOk(j, y.coord, g.id); }
  }

  lemma AskInv(j: Job, y: State, hm: nat, hr: nat, expired: set<nat>)
    requires Inv(j, y, hm, hr)
    ensures Inv(j, Perform(j, y, Ask(expired)), hm, hr)
  {
    var y' := Perform(j, y, Ask(expired));
    AllocCoord(j, y.coord, hm, hr, expired);
    forall t: nat ensures WorkOk(j, y', t) { AskWork(j, y, hm, hr, expired, t); }
    forall i: nat ensures DoneOk(j, y', i) { assert DoneOk(j, y, i); }
    forall id: nat, r: nat ensures FileOk(j, y', id, r) { assert FileOk(j, y, id, r); }
    forall r: nat ensures OutOk(j, y', r) { assert OutOk(j, y, r); }
  }

  ghost function One(b: bool): nat {
    if b then 1 else 0
  }

  lemma CompleteCoord(j: Job, y: State, hm: nat, hr: nat, t: nat)
    requires JobOk(j) && CoordOk(j, y.coord, hm, hr) && Enabled(j, y, Report(t))
        && (y.works[t].id >= |j.maps| ==> y.coord.mapDone)
    ensures CoordOk(j, Complete(y.coord, y.works[t].id, t), hm + One(Hit(y, Report(t), Mapper)),
        hr + One(Hit(y, Report(t), Reducer)))
  {
    var c, id := y.coord, y.works[t].id;
    var c' := Complete(c, id, t);
    assert TaskOk(j, c, id);
    forall i: nat ensures TaskOk(j, c', i) { assert TaskOk(j, c, i); }
    if Counts(c, id, t) {
      OpenAfter(c, id, t, Mapper);
      OpenAfter(c, id, t, Reducer);
    }
  }

  lemma ReportInv(j: Job, y: State, hm: nat, hr: nat, t: nat)
    requires Inv(j, y, hm, hr) && Enabled(j, y, Report(t))
    ensures Inv(j, Perform(j, y, Report(t)), hm + One(Hit(y, Report(t), Mapper)), hr + One(Hit(y, Report(t), Reducer)))
  {
    var y', id := Perform(j, y, Report(t)), y.works[t].id;
    assert WorkOk(j, y, t);
    CompleteCoord(j, y, hm, hr, t);
    forall x: nat ensures WorkOk(j, y', x) { assert WorkOk(j, y, x); }
    forall i: nat ensures DoneOk(j, y', i) { assert DoneOk(j, y, i); }
    forall id: nat, r: nat ensures FileOk(j, y', id, r) { assert FileOk(j, y, id, r); }
    forall r: nat ensures OutOk(j, y', r) { assert OutOk(j, y, r); }
  }

  lemma StepInv(j: Job, y: State, hm: nat, hr: nat, e: Event)
    requires Inv(j, y, hm, hr) && Enabled(j, y, e)
    ensures Inv(j, Perform(j, y, e), hm + One(Hit(y, e, Mapper)), hr + One(Hit(y, e, Reducer)))
  {
    match e
    case Ask(expired) => AskInv(j, y, hm, hr, expired);
    case WriteBucket(t) => WriteBucketInv(j, y, hm, hr, t);
    case MapFinishes(t) => MapFinishesInv(j, y, hm, hr, t);
    case ReadBucket(t) => ReadBucketInv(j, y, hm, hr, t);
    case WriteOutput(t, s) => WriteOutputInv(j, y, hm, hr, t, s);
    case Report(t) => ReportInv(j, y, hm, hr, t);
  }

  lemma RangeSize(lo: nat, hi: nat, s: set<nat>)
    requires lo <= hi && forall i: nat :: i in s <==> lo <= i < hi
    ensures |s| == hi - lo
  {
    var all, low := Common.Servers(hi), Common.Servers(lo);
    Common.ServersSize(hi);
    Common.ServersSize(lo);
    assert all == low + s && low !! s;
  }

  lemma StartInv(j: Job)
    requires JobOk(j)
    ensures Inv(j, State(Started(|j.maps|, j.n), map[], map[], map[]), 0, 0)
  {
    var y := State(Started(|j.maps|, j.n), map[], map[], map[]);
    forall i: nat ensures TaskOk(j, y.coord, i) {}
    RangeSize(0, |j.maps|, Open(y.coord, Mapper));
    RangeSize(|j.maps|, |j.maps| + j.n, Open(y.coord, Reducer));
    forall i: nat ensures DoneOk(j, y, i) {}
  }

  lemma {:induction false} RunInv(j: Job, run: seq<State>, events: seq<Event>, k: nat)
    requires IsRun(j, run, events) && k < |run|
    ensures Inv(j, run[k], Hits(run, events, k, Mapper), Hits(run, events, k, Reducer))
    decreases k
  {
    if k == 0 {
      StartInv(j);
    } else {
      RunInv(j, run, events, k - 1);
      StepInv(j, run[k - 1], Hits(run, events, k - 1, Mapper), Hits(run, events, k - 1, Reducer), events[k - 1]);
    }
  }

  // ---------------------------------------------------------------- when reports can be trusted

  lemma {:induction false} HitsIff(run: seq<State>, events: seq<Event>, k: nat, role: Role)
    requires k <= |events| && |run| == |events| + 1
    ensures Hits(run, events, k, role) == 0 <==> forall i: nat :: i < k ==> !Hit(run[i], events[i], role)
  {
    if k > 0 {
      HitsIff(run, events, k - 1, role);
    }
  }

  /**
   Once the map phase is declared over, all map tasks are done if and only if no counted report hit a finished one.
   */
  lemma MapPhaseOverIff(j: Job, run: seq<State>, events: seq<Event>, k: nat)
    requires IsRun(j, run, events) && k < |run| && run[k].coord.mapDone
    ensures Open(run[k].coord, Mapper) == {} <==> forall i: nat :: i < k ==> !Hit(run[i], events[i], Mapper)
  {
    RunInv(j, run, events, k);
    HitsIff(run, events, k, Mapper);
  }

  /**
   At the moment the job is declared done, all reduce tasks are done if and only if no counted report hit a finished
   one.
   */
  lemma JobDoneIff(j: Job, run: seq<State>, events: seq<Event>, k: nat)
    requires IsRun(j, run, events) && k < |events| && !run[k].coord.reduceDone && run[k + 1].coord.reduceDone
    ensures Open(run[k + 1].coord, Reducer) == {} <==> forall i: nat :: i <= k ==> !Hit(run[i], events[i], Reducer)
  {
    assert run[k + 1] == Perform(j, run[k], events[k]);
    NothingLeft(j, run[k], events[k]);
    RunInv(j, run, events, k + 1);
    HitsIff(run, events, k + 1, Reducer);
  }

  lemma NothingLeft(j: Job, y: State, e: Event)
    requires JobOk(j) && Enabled(j, y, e) && !y.coord.reduceDone && Perform(j, y, e).coord.reduceDone
    ensures Perform(j, y, e).coord.leftReduce == 0
  {
  }

  /** A run that was reported was reported by an event. */
  lemma {:induction false} ReportedBefore(j: Job, run: seq<State>, events: seq<Event>, k: nat, t: nat) returns (i: nat)
    requires IsRun(j, run, events) && k < |run| && t in run[k].works && run[k].works[t].Reported?
    ensures i < k && events[i] == Report(t)
    decreases k
  {
    if events[k - 1] == Report(t) {
      i := k - 1;
    } else {
      NotReportedNow(j, run, events, k, t);
      i := ReportedBefore(j, run, events, k - 1, t);
    }
  }

  lemma NotReportedNow(j: Job, run: seq<State>, events: seq<Event>, k: nat, t: nat)
    requires IsRun(j, run, events) && 0 < k < |run| && t in run[k].works && run[k].works[t].Reported?
        && events[k - 1] != Report(t)
    ensures t in run[k - 1].works && run[k - 1].works[t].Reported?
  {
    assert run[k] == Perform(j, run[k - 1], events[k - 1]);
  }

  ghost predicate ReportedOnce(events: seq<Event>) {
    forall i, k :: 0 <= i < k < |events| && events[i].Report? ==> events[i] != events[k]
  }

  /** If each token is reported at most once, no report ever hits a finished task. */
  lemma ReportedOnceNeverHits(j: Job, run: seq<State>, events: seq<Event>, k: nat, role: Role)
    requires IsRun(j, run, events) && k < |events| && ReportedOnce(events)
    ensures !Hit(run[k], events[k], role)
  {
    if Hit(run[k], events[k], role) {
      var y, t := run[k], events[k].t;
      RunInv(j, run, events, k);
      assert WorkOk(j, y, t);
      if y.works[t].Reported? {
        var i := ReportedBefore(j, run, events, k, t);
      }
    }
  }

  // ---------------------------------------------------------------- what holds over every run

  /**
   While a reduce task is out, every map task has succeeded if and only if no counted report hit a finished map
   task; then every file the reduce task reads is there, with its right contents.
   */
  lemma ReduceOnlyAfterAllMaps(j: Job, run: seq<State>, events: seq<Event>, k: nat, t: nat)
    requires IsRun(j, run, events) && k < |run| && t in run[k].works && run[k].works[t].Reducing?
    ensures Open(run[k].coord, Mapper) == {} <==> forall i: nat :: i < k ==> !Hit(run[i], events[i], Mapper)
    ensures Open(run[k].coord, Mapper) == {} ==> forall m: nat :: m < |j.maps| ==>
        ReadyFor(j, run[k], m, run[k].works[t].id % j.n)
  {
    RunInv(j, run, events, k);
    var y := run[k];
    assert WorkOk(j, y, t);
    MapPhaseOverIff(j, run, events, k);
    if Open(y.coord, Mapper) == {} {
      forall m: nat | m < |j.maps| ensures ReadyFor(j, y, m, y.works[t].id % j.n) {
        assert TaskOk(j, y.coord, m) && m !in Open(y.coord, Mapper);
        assert DoneOk(j, y, m) && FileOk(j, y, m, y.works[t].id % j.n);
      }
    }
  }

  /** Map task `m` is done and its file for bucket `r` holds what it should. */
  ghost predicate ReadyFor(j: Job, y: State, m: nat, r: nat)
    requires j.n > 0
  {
    && m < |j.maps| && m < |y.coord.tasks| && y.coord.tasks[m].state == Success
    && (m, r) in y.files && y.files[(m, r)] == Bucket(j.h, j.n, j.maps[m], r)
  }

  /**
   Every output ever written is a correct one; when the job is done and no report hit a finished reduce task, all are
   there.
   */
  lemma AllOutputsThere(j: Job, run: seq<State>, events: seq<Event>, k: nat, r: nat)
    requires IsRun(j, run, events) && k < |run| && r < j.n
    ensures r in run[k].outs ==> IsOutput(j.f, Bucket(j.h, j.n, Flat(j.maps), r), run[k].outs[r])
    ensures run[k].coord.reduceDone && (forall i: nat :: i < k ==> !Hit(run[i], events[i], Reducer)) ==>
        r in run[k].outs
  {
    RunInv(j, run, events, k);
    HitsIff(run, events, k, Reducer);
    var y := run[k];
    assert OutOk(j, y, r);
    if y.coord.reduceDone && (forall i: nat :: i < k ==> !Hit(run[i], events[i], Reducer)) {
      var id := TaskOfBucket(|j.maps|, j.n, r);
      assert Open(y.coord, Reducer) == {};
      assert TaskOk(j, y.coord, id) && id !in Open(y.coord, Reducer) && DoneOk(j, y, id);
    }
  }

  /**
   When the coordinator says the job is done and no counted report hit a finished reduce task, the output files
   hold, as a multiset of lines, exactly what the sequential program writes, despite expiry, re-execution, late
   and repeated reports, and dead workers.
   */
  lemma JobEqualsSequential(j: Job, run: seq<State>, events: seq<Event>, k: nat, outs: seq<seq<Line>>,
                            sequential: seq<Line>)
    requires IsRun(j, run, events) && k < |run| && run[k].coord.reduceDone
    requires forall i: nat :: i < k ==> !Hit(run[i], events[i], Reducer)
    requires OrderBlind(j.f) && IsOutput(j.f, Flat(j.maps), sequential)
    requires |outs| == j.n && forall r: nat :: r < j.n && r in run[k].outs ==> outs[r] == run[k].outs[r]
    ensures multiset(Joined(outs)) == multiset(sequential)
  {
    forall r: nat | r < j.n ensures IsOutput(j.f, Bucket(j.h, j.n, Flat(j.maps), r), outs[r]) {
      AllOutputsThere(j, run, events, k, r);
    }
    DistributedEqualsSequential(j.f, j.h, j.n, Flat(j.maps), outs, sequential);
  }

  /** In particular, when each token is reported at most once. */
  lemma JobReportedOnce(j: Job, run: seq<State>, events: seq<Event>, k: nat, outs: seq<seq<Line>>,
                        sequential: seq<Line>)
    requires IsRun(j, run, events) && k < |run| && run[k].coord.reduceDone && ReportedOnce(events)
    requires OrderBlind(j.f) && IsOutput(j.f, Flat(j.maps), sequential)
    requires |outs| == j.n && forall r: nat :: r < j.n && r in run[k].outs ==> outs[r] == run[k].outs[r]
    ensures Open(run[k].coord, Mapper) == {} && multiset(Joined(outs)) == multiset(sequential)
  {
    forall i: nat | i < k ensures !Hit(run[i], events[i], Mapper) { ReportedOnceNeverHits(j, run, events, i, Mapper); }
    forall i: nat | i < k ensures !Hit(run[i], events[i], Reducer) {
      ReportedOnceNeverHits(j, run, events, i, Reducer);
    }
    RunInv(j, run, events, k);
    MapPhaseOverIff(j, run, events, k);
    JobEqualsSequential(j, run, events, k, outs, sequential);
  }
}
