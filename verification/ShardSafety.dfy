/** Why migration is safe: the invariant of the sharded service and the proof that every event keeps it. */
module ShardSafety {
  import opened Common
  import opened VersionedStore
  import opened ShardGroup
  import opened ShardMigration

  // ---------------------------------------------------------------- vocabulary

  /** The number of the current configuration. */
  ghost function Num(y: Sys): nat {
    if y.current.version == 0 then 1 else y.current.version
  }

  ghost function St(y: Sys, g: nat, s: nat): Status {
    if g in y.groups && s < |y.groups[g].status| then y.groups[g].status[s] else Absent
  }

  ghost function Ln(y: Sys, g: nat, s: nat): nat {
    if g in y.groups && s < |y.groups[g].lastNum| then y.groups[g].lastNum[s] else 0
  }

  ghost function Data(y: Sys, g: nat): Store {
    if g in y.groups then y.groups[g].data else map[]
  }

  ghost predicate Linked(chain: seq<Config>, n: nat) {
    1 <= n <= |chain| ==> chain[n - 1].num == n && |chain[n - 1].shards| == NSHARDS
  }

  /** The configurations by number, from the first to the one in the next key. */
  ghost predicate IsChain(first: Config, chain: seq<Config>) {
    && IsFirst(first) && |chain| > 0 && chain[0] == first
    && forall n: nat :: Linked(chain, n)
  }

  ghost function Own(chain: seq<Config>, n: nat, s: nat): nat {
    if 1 <= n <= |chain| && s < |chain[n - 1].shards| then chain[n - 1].shards[s] else 0
  }

  ghost predicate Moved(chain: seq<Config>, n: nat, s: nat) {
    2 <= n <= |chain| && s < NSHARDS && Own(chain, n - 1, s) != Own(chain, n, s)
  }

  /** The destination has taken over shard `s` in change number `n`. */
  ghost predicate Installed(y: Sys, chain: seq<Config>, n: nat, s: nat) {
    n <= Num(y) || (St(y, Own(chain, n, s), s) == Serving && Ln(y, Own(chain, n, s), s) == n)
  }

  /** The source has also let go of it. */
  ghost predicate Gone(y: Sys, chain: seq<Config>, n: nat, s: nat) {
    || n <= Num(y)
    || (Installed(y, chain, n, s) && St(y, Own(chain, n - 1, s), s) == Absent && Ln(y, Own(chain, n - 1, s), s) == n)
  }

  /** `d` is the frozen copy of shard `s` for change number `n`, unless the destination already has it. */
  ghost predicate FrozenCopy(kf: KeyMap, y: Sys, chain: seq<Config>, n: nat, s: nat, d: Option<Store>) {
    || Installed(y, chain, n, s)
    || (var g := Own(chain, n - 1, s);
        St(y, g, s) == Frozen && Ln(y, g, s) == n && d == Some(Slice(kf, Data(y, g), s)))
  }

  // ---------------------------------------------------------------- the invariant

  ghost predicate StoreOk(y: Sys, chain: seq<Config>) {
    && (y.current.version == 0 ==> y.current.value == None)
    && (y.current.version > 0 ==> y.current.version <= |chain| && y.current.value == Some(chain[y.current.version - 1]))
    && (y.next.version == 0 ==> y.next.value == None && |chain| == 1)
    && (y.next.version > 0 ==> y.next.version == |chain| && y.next.value == Some(chain[|chain| - 1]))
    && Num(y) <= |chain| <= Num(y) + 1
  }

  datatype Phase = Untouched | FrozenAtSource | AtBoth | HandedOver

  /** The four states shard `s` goes through in change number `c + 1` from `src` to `dst`. */
  ghost predicate InPhase(y: Sys, s: nat, src: nat, dst: nat, c: nat, ph: Phase) {
    match ph
    case Untouched => St(y, src, s) == Serving && Ln(y, src, s) <= c && St(y, dst, s) == Absent && Ln(y, dst, s) <= c
    case FrozenAtSource =>
      && St(y, src, s) == Frozen && Ln(y, src, s) == c + 1 && St(y, dst, s) == Absent
      && Ln(y, dst, s) <= c
    case AtBoth =>
      && St(y, src, s) == Frozen && Ln(y, src, s) == c + 1 && St(y, dst, s) == Serving
      && Ln(y, dst, s) == c + 1
    case HandedOver =>
      && St(y, src, s) == Absent && Ln(y, src, s) == c + 1 && St(y, dst, s) == Serving
      && Ln(y, dst, s) == c + 1
  }

  /** Where shard `s` is, in terms of the current configuration and the one being moved to. */
  ghost predicate PhaseOk(y: Sys, s: nat, src: nat, dst: nat, c: nat) {
    || InPhase(y, s, src, dst, c, Untouched) || InPhase(y, s, src, dst, c, FrozenAtSource)
    || InPhase(y, s, src, dst, c, AtBoth) || InPhase(y, s, src, dst, c, HandedOver)
  }

  ghost predicate Bystander(y: Sys, s: nat, g: nat, c: nat) {
    St(y, g, s) == Absent && Ln(y, g, s) <= c
  }

  ghost predicate ShardOk(y: Sys, chain: seq<Config>, s: nat) {
    var c := Num(y);
    var src, dst := Own(chain, c, s), Own(chain, |chain|, s);
    && (forall g: nat :: g != src && g != dst ==> Bystander(y, s, g, c))
    && if src == dst then St(y, src, s) == Serving && Ln(y, src, s) <= c else PhaseOk(y, s, src, dst, c)
  }

  /** Both ends of a finished move have seen its number. */
  ghost predicate PastOk(y: Sys, chain: seq<Config>, n: nat, s: nat) {
    n <= Num(y) && Moved(chain, n, s) ==> Ln(y, Own(chain, n - 1, s), s) >= n && Ln(y, Own(chain, n, s), s) >= n
  }

  ghost predicate ReqOk(kf: KeyMap, y: Sys, chain: seq<Config>, q: GroupReq) {
    match q.op
    case Client(_) => false
    case Freeze(s, n) => Moved(chain, n, s) && q.gid == Own(chain, n - 1, s)
    case Install(s, d, n) => Moved(chain, n, s) && q.gid == Own(chain, n, s) && FrozenCopy(kf, y, chain, n, s, d)
    case Delete(s, n) => Moved(chain, n, s) && q.gid == Own(chain, n - 1, s) && Installed(y, chain, n, s)
  }

  ghost predicate RepOk(kf: KeyMap, y: Sys, chain: seq<Config>, p: GroupRep) {
    match p.op
    case Client(_) => true
    case Freeze(s, n) => Moved(chain, n, s) && (IsOk(p.r) ==> p.r.FreezeR? && FrozenCopy(kf, y, chain, n, s, p.r.state))
    case Install(s, _, n) => Moved(chain, n, s) && (IsOk(p.r) ==> Installed(y, chain, n, s))
    case Delete(s, n) => Moved(chain, n, s) && (IsOk(p.r) ==> Gone(y, chain, n, s))
  }

  ghost predicate GoneIfMoved(y: Sys, chain: seq<Config>, n: nat, s: nat) {
    Moved(chain, n, s) ==> Gone(y, chain, n, s)
  }

  ghost predicate AllGone(y: Sys, chain: seq<Config>, n: nat) {
    forall s: nat :: GoneIfMoved(y, chain, n, s)
  }

  ghost predicate PutOk(first: Config, y: Sys, chain: seq<Config>, p: Cas) {
    match p.which
    case Next => |p.value.shards| == NSHARDS && p.value.num == p.version + 1 && if p.version == 0 then p.value == first
        else p.version <= y.current.version
    case Current =>
      if p.version == 0 then p.value == first
      else p.version + 1 <= |chain| && p.value == chain[p.version] && AllGone(y, chain, p.version + 1)
  }

  ghost predicate GrantOk(chain: seq<Config>, p: Cas) {
    p.which == Next ==> p.version < |chain| && chain[p.version] == p.value
  }

  /** `prev` was read from the current key at `version`. */
  ghost predicate KnowsPrev(y: Sys, chain: seq<Config>, prev: Config, version: nat) {
    1 <= version <= y.current.version && version <= |chain| && prev == chain[version - 1]
  }

  ghost predicate GoalOk(prev: Config, goal: Config) {
    goal.num == prev.num + 1 && |goal.shards| == NSHARDS
  }

  /** The change is the recorded one: from one configuration of the chain to the next. */
  ghost predicate JobOk(y: Sys, chain: seq<Config>, j: Job) {
    KnowsPrev(y, chain, j.prev, j.version) && j.version + 1 <= |chain| && j.target == chain[j.version]
  }

  /** The move is one the change makes, with its two ends. */
  ghost predicate MoveFits(chain: seq<Config>, j: Job, mv: Move) {
    Moved(chain, j.version + 1, mv.shard) && mv.src == Own(chain, j.version, mv.shard)
        && mv.dst == Own(chain, j.version + 1, mv.shard)
  }

  ghost predicate Covered(chain: seq<Config>, j: Job, ms: seq<Move>, s: nat) {
    Moved(chain, j.version + 1, s) ==> exists i: nat :: i < |ms| && ms[i].shard == s
  }

  /** The moves of a recorded change are exactly the shards it moves. */
  ghost predicate MovesOk(y: Sys, chain: seq<Config>, j: Job, ms: seq<Move>) {
    && JobOk(y, chain, j) && j.target.num == j.version + 1
    && (forall i: nat :: i < |ms| ==> MoveFits(chain, j, ms[i]))
    && (forall s: nat :: Covered(chain, j, ms, s))
  }

  ghost predicate StatesOk(kf: KeyMap, y: Sys, chain: seq<Config>, n: nat, ms: seq<Move>, states: seq<Option<Store>>) {
    && |states| <= |ms|
    && forall i: nat :: i < |states| ==> FrozenCopy(kf, y, chain, n, ms[i].shard, states[i])
  }

  ghost predicate InstalledUpTo(y: Sys, chain: seq<Config>, n: nat, ms: seq<Move>, i: nat) {
    i <= |ms| && forall k: nat :: k < i ==> Installed(y, chain, n, ms[k].shard)
  }

  ghost predicate GoneUpTo(y: Sys, chain: seq<Config>, n: nat, ms: seq<Move>, i: nat) {
    i <= |ms| && forall k: nat :: k < i ==> Gone(y, chain, n, ms[k].shard)
  }

  ghost predicate CtrlOk(kf: KeyMap, first: Config, y: Sys, chain: seq<Config>, c: Ctrl) {
    match c
    case Idle => true
    case InitCurrent(cfg, _) => cfg == first
    case InitNext(cfg, _) => cfg == first
    case ReadNext(goal, prev, v) => KnowsPrev(y, chain, prev, v) && (goal.Some? ==> GoalOk(prev, goal.value))
    case PutNext(j, nv, _) => KnowsPrev(y, chain, j.prev, j.version) && GoalOk(j.prev, j.target) && nv == j.version
    case ConfirmNext(j) => KnowsPrev(y, chain, j.prev, j.version) && GoalOk(j.prev, j.target)
    case Freezing(j, ms, states) => MovesOk(y, chain, j, ms) && StatesOk(kf, y, chain, j.version + 1, ms, states)
    case Installing(j, ms, states, i) =>
      && MovesOk(y, chain, j, ms) && StatesOk(kf, y, chain, j.version + 1, ms, states) && |states| == |ms|
      && InstalledUpTo(y, chain, j.version + 1, ms, i)
    case Deleting(j, ms, i) =>
      && MovesOk(y, chain, j, ms) && InstalledUpTo(y, chain, j.version + 1, ms, |ms|)
          && GoneUpTo(y, chain, j.version + 1, ms, i)
    case Panicked => true
    case Publishing(j, _) => JobOk(y, chain, j) && AllGone(y, chain, j.version + 1)
  }

  ghost predicate GroupsOk(y: Sys) {
    forall g :: g in y.groups ==> WellFormed(y.groups[g])
  }

  ghost predicate ShardsOk(y: Sys, chain: seq<Config>) {
    && GroupsOk(y)
    && (forall s: nat :: s < NSHARDS ==> ShardOk(y, chain, s))
    && (forall n: nat, s: nat :: PastOk(y, chain, n, s))
  }

  ghost predicate ClaimsOk(kf: KeyMap, first: Config, y: Sys, chain: seq<Config>) {
    && (forall q :: q in y.reqs ==> ReqOk(kf, y, chain, q))
    && (forall p :: p in y.reps ==> RepOk(kf, y, chain, p))
    && (forall p :: p in y.puts ==> PutOk(first, y, chain, p))
    && (forall p :: p in y.granted ==> GrantOk(chain, p))
    && (forall k: nat :: CtrlOk(kf, first, y, chain, CtrlOf(y, k)))
  }

  ghost predicate Inv(kf: KeyMap, first: Config, y: Sys, chain: seq<Config>) {
    IsChain(first, chain) && StoreOk(y, chain) && ShardsOk(y, chain) && ClaimsOk(kf, first, y, chain)
  }

  // ---------------------------------------------------------------- claims survive progress

  /** Whatever was established about a move stays established. */
  ghost predicate MoveAdvances(kf: KeyMap, y: Sys, chain: seq<Config>, y': Sys, chain': seq<Config>, n: nat, s: nat) {
    && (Moved(chain, n, s) ==>
        Moved(chain', n, s) && Own(chain', n, s) == Own(chain, n, s) && Own(chain', n - 1, s) == Own(chain, n - 1, s))
    && (Moved(chain, n, s) && Installed(y, chain, n, s) ==> Installed(y', chain', n, s))
    && (Moved(chain, n, s) && Gone(y, chain, n, s) ==> Gone(y', chain', n, s))
    && (forall d :: Moved(chain, n, s) && FrozenCopy(kf, y, chain, n, s, d) ==> FrozenCopy(kf, y', chain', n, s, d))
  }

  ghost predicate Advances(kf: KeyMap, y: Sys, chain: seq<Config>, y': Sys, chain': seq<Config>) {
    && chain <= chain' && y.current.version <= y'.current.version
    && (forall n: nat, s: nat :: MoveAdvances(kf, y, chain, y', chain', n, s))
  }

  lemma ReqStays(kf: KeyMap, y: Sys, chain: seq<Config>, y': Sys, chain': seq<Config>, q: GroupReq)
    requires Advances(kf, y, chain, y', chain') && ReqOk(kf, y, chain, q)
    ensures ReqOk(kf, y', chain', q)
  {
    match q.op
    case Client(_) =>
    case Freeze(s, n) => assert MoveAdvances(kf, y, chain, y', chain', n, s);
    case Install(s, _, n) => assert MoveAdvances(kf, y, chain, y', chain', n, s);
    case Delete(s, n) => assert MoveAdvances(kf, y, chain, y', chain', n, s);
  }

  lemma {:induction false} MovesAre(prev: Config, target: Config, s: nat, i: nat)
    requires s <= |prev.shards| && s <= |target.shards| && i < |Moves(prev, target, s)|
    ensures var mv := Moves(prev, target, s)[i];
      mv.shard < s && prev.shards[mv.shard] != target.shards[mv.shard] && mv.src == prev.shards[mv.shard]
          && mv.dst == target.shards[mv.shard]
  {
    if s > 0 && i < |Moves(prev, target, s - 1)| {
      MovesAre(prev, target, s - 1, i);
    }
  }

  lemma {:induction false} MovesComplete(prev: Config, target: Config, s: nat, x: nat) returns (i: nat)
    requires s <= |prev.shards| && s <= |target.shards| && x < s && prev.shards[x] != target.shards[x]
    ensures i < |Moves(prev, target, s)| && Moves(prev, target, s)[i].shard == x
  {
    if x == s - 1 {
      i := |Moves(prev, target, s - 1)|;
    } else {
      i := MovesComplete(prev, target, s - 1, x);
    }
  }

  lemma MovesOfOk(first: Config, y: Sys, chain: seq<Config>, j: Job)
    requires IsChain(first, chain) && JobOk(y, chain, j)
    ensures MovesOk(y, chain, j, MovesOf(j))
  {
    assert Linked(chain, j.version) && Linked(chain, j.version + 1);
    var ms := MovesOf(j);
    forall i: nat | i < |ms| ensures MoveFits(chain, j, ms[i]) { MovesAre(j.prev, j.target, |j.prev.shards|, i); }
    forall s: nat ensures Covered(chain, j, ms, s) {
      if Moved(chain, j.version + 1, s) { var i := MovesComplete(j.prev, j.target, |j.prev.shards|, s); }
    }
  }

  lemma MovesStay(kf: KeyMap, y: Sys, chain: seq<Config>, y': Sys, chain': seq<Config>, j: Job, ms: seq<Move>)
    requires Advances(kf, y, chain, y', chain') && MovesOk(y, chain, j, ms)
    ensures MovesOk(y', chain', j, ms)
  {
    forall i: nat | i < |ms| ensures MoveFits(chain', j, ms[i]) {
      assert MoveFits(chain, j, ms[i]) && MoveAdvances(kf, y, chain, y', chain', j.version + 1, ms[i].shard);
    }
    forall s: nat ensures Covered(chain', j, ms, s) {
      assert Covered(chain, j, ms, s);
      assert Own(chain', j.version, s) == Own(chain, j.version, s)
          && Own(chain', j.version + 1, s) == Own(chain, j.version + 1, s);
    }
  }

  lemma StatesStay(kf: KeyMap, y: Sys, chain: seq<Config>, y': Sys, chain': seq<Config>, j: Job, ms: seq<Move>,
                   states: seq<Option<Store>>)
    requires Advances(kf, y, chain, y', chain') && MovesOk(y, chain, j, ms)
        && StatesOk(kf, y, chain, j.version + 1, ms, states)
    ensures StatesOk(kf, y', chain', j.version + 1, ms, states)
  {
    forall i: nat | i < |states| ensures FrozenCopy(kf, y', chain', j.version + 1, ms[i].shard, states[i]) {
      assert MoveFits(chain, j, ms[i]) && MoveAdvances(kf, y, chain, y', chain', j.version + 1, ms[i].shard);
    }
  }

  lemma InstalledStay(kf: KeyMap, y: Sys, chain: seq<Config>, y': Sys, chain': seq<Config>, j: Job, ms: seq<Move>,
                      i: nat)
    requires Advances(kf, y, chain, y', chain') && MovesOk(y, chain, j, ms)
        && InstalledUpTo(y, chain, j.version + 1, ms, i)
    ensures InstalledUpTo(y', chain', j.version + 1, ms, i)
  {
    forall k: nat | k < i ensures Installed(y', chain', j.version + 1, ms[k].shard) {
      assert MoveFits(chain, j, ms[k]) && MoveAdvances(kf, y, chain, y', chain', j.version + 1, ms[k].shard);
    }
  }

  lemma GoneStay(kf: KeyMap, y: Sys, chain: seq<Config>, y': Sys, chain': seq<Config>, j: Job, ms: seq<Move>, i: nat)
    requires Advances(kf, y, chain, y', chain') && MovesOk(y, chain, j, ms) && GoneUpTo(y, chain, j.version + 1, ms, i)
    ensures GoneUpTo(y', chain', j.version + 1, ms, i)
  {
    forall k: nat | k < i ensures Gone(y', chain', j.version + 1, ms[k].shard) {
      assert MoveFits(chain, j, ms[k]) && MoveAdvances(kf, y, chain, y', chain', j.version + 1, ms[k].shard);
    }
  }

  lemma AllGoneStays(kf: KeyMap, first: Config, y: Sys, chain: seq<Config>, y': Sys, chain': seq<Config>, n: nat)
    requires Advances(kf, y, chain, y', chain') && AllGone(y, chain, n) && 1 <= n <= |chain|
    ensures AllGone(y', chain', n)
  {
    forall s: nat ensures GoneIfMoved(y', chain', n, s) {
      assert GoneIfMoved(y, chain, n, s);
      assert MoveAdvances(kf, y, chain, y', chain', n, s);
      if Moved(chain', n, s) {
        assert Own(chain', n, s) == Own(chain, n, s) && Own(chain', n - 1, s) == Own(chain, n - 1, s);
      }
    }
  }

  lemma InstallingStays(kf: KeyMap, first: Config, y: Sys, chain: seq<Config>, y': Sys, chain': seq<Config>, c: Ctrl)
    requires Advances(kf, y, chain, y', chain') && CtrlOk(kf, first, y, chain, c) && c.Installing?
    ensures CtrlOk(kf, first, y', chain', c)
  {
    MovesStay(kf, y, chain, y', chain', c.job, c.moves);
    StatesStay(kf, y, chain, y', chain', c.job, c.moves, c.states);
    InstalledStay(kf, y, chain, y', chain', c.job, c.moves, c.i);
  }

  lemma DeletingStays(kf: KeyMap, first: Config, y: Sys, chain: seq<Config>, y': Sys, chain': seq<Config>, c: Ctrl)
    requires Advances(kf, y, chain, y', chain') && CtrlOk(kf, first, y, chain, c) && c.Deleting?
    ensures CtrlOk(kf, first, y', chain', c)
  {
    MovesStay(kf, y, chain, y', chain', c.job, c.moves);
    InstalledStay(kf, y, chain, y', chain', c.job, c.moves, |c.moves|);
    GoneStay(kf, y, chain, y', chain', c.job, c.moves, c.i);
  }

  lemma CtrlStays(kf: KeyMap, first: Config, y: Sys, chain: seq<Config>, y': Sys, chain': seq<Config>, c: Ctrl)
    requires IsChain(first, chain) && Advances(kf, y, chain, y', chain') && CtrlOk(kf, first, y, chain, c)
    ensures CtrlOk(kf, first, y', chain', c)
  {
    match c
    case Freezing(j, ms, states) =>
      MovesStay(kf, y, chain, y', chain', j, ms);
      StatesStay(kf, y, chain, y', chain', j, ms, states);
    case Installing(_, _, _, _) => InstallingStays(kf, first, y, chain, y', chain', c);
    case Deleting(_, _, _) => DeletingStays(kf, first, y, chain, y', chain', c);
    case Publishing(j, _) => AllGoneStays(kf, first, y, chain, y', chain', j.version + 1);
    case _ =>
  }

  lemma RepStays(kf: KeyMap, y: Sys, chain: seq<Config>, y': Sys, chain': seq<Config>, p: GroupRep)
    requires Advances(kf, y, chain, y', chain') && RepOk(kf, y, chain, p)
    ensures RepOk(kf, y', chain', p)
  {
    match p.op
    case Client(_) =>
    case Freeze(s, n) => assert MoveAdvances(kf, y, chain, y', chain', n, s);
    case Install(s, _, n) => assert MoveAdvances(kf, y, chain, y', chain', n, s);
    case Delete(s, n) => assert MoveAdvances(kf, y, chain, y', chain', n, s);
  }

  lemma PutStays(kf: KeyMap, first: Config, y: Sys, chain: seq<Config>, y': Sys, chain': seq<Config>, p: Cas)
    requires Advances(kf, y, chain, y', chain') && PutOk(first, y, chain, p)
    ensures PutOk(first, y', chain', p)
  {
    if p.which == Current && p.version > 0 { AllGoneStays(kf, first, y, chain, y', chain', p.version + 1); }
  }

  /** Everything claimed before still holds after progress, for whatever was there before. */
  lemma ClaimsStay(kf: KeyMap, first: Config, y: Sys, chain: seq<Config>, y': Sys, chain': seq<Config>)
    requires IsChain(first, chain) && ClaimsOk(kf, first, y, chain) && Advances(kf, y, chain, y', chain')
    ensures forall q :: q in y.reqs ==> ReqOk(kf, y', chain', q)
    ensures forall p :: p in y.reps ==> RepOk(kf, y', chain', p)
    ensures forall p :: p in y.puts ==> PutOk(first, y', chain', p)
    ensures forall p :: p in y.granted ==> GrantOk(chain', p)
    ensures forall k: nat :: CtrlOk(kf, first, y', chain', CtrlOf(y, k))
  {
    forall q | q in y.reqs ensures ReqOk(kf, y', chain', q) { ReqStays(kf, y, chain, y', chain', q); }
    forall p | p in y.reps ensures RepOk(kf, y', chain', p) { RepStays(kf, y, chain, y', chain', p); }
    forall p | p in y.puts ensures PutOk(first, y', chain', p) { PutStays(kf, first, y, chain, y', chain', p); }
    forall k: nat ensures CtrlOk(kf, first, y', chain', CtrlOf(y, k)) {
      CtrlStays(kf, first, y, chain, y', chain', CtrlOf(y, k));
    }
  }
}
