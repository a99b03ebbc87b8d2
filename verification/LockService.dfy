/**
 Locks built on versioned Get and Put.  Any number of Lock objects use one lock name; each call's Put may be
 executed late and more than once, replies may be lost, and an object may stop anywhere.
 */
module LockService {
  import opened Common
  import opened VersionedStore

  const IDLE: string := "idle"

  /** Where an object is inside Acquire or Release; `Out` is between calls. */
  datatype Pc =
    | Out
    | Reading
    | Taking(token: string, version: nat)
    | CheckingTake(token: string)
    | Releasing
    | Freeing(version: nat)
    | CheckingFree

  /** A Lock object: its token (empty when it does not hold the lock) and where it is. */
  datatype Object = Object(owner: string, pc: Pc)

  datatype Write = Write(value: string, version: nat)

  datatype World = World(store: Store, writes: set<Write>, objects: map<nat, Object>, tokens: set<string>)

  function ObjectOf(w: World, i: nat): Object {
    if i in w.objects then w.objects[i] else Object("", Out)
  }

  function Set(w: World, i: nat, owner: string, pc: Pc): World {
    w.(objects := w.objects[i := Object(owner, pc)])
  }

  /** Acquire after its first Get: try to take a missing or idle lock with the fresh `token`. */
  function AfterRead(w: World, i: nat, r: GetReply, token: string): World {
    var o := ObjectOf(w, i);
    if r.err != OK then Issue(w, i, Taking(token, 0), Write(token, 0), {token})
    else if r.value == IDLE then Issue(w, i, Taking(token, r.version), Write(token, r.version), {token})
    else Set(w, i, o.owner, Reading)
  }

  function Issue(w: World, i: nat, pc: Pc, wr: Write, token: set<string>): World {
    Set(w, i, ObjectOf(w, i).owner, pc).(writes := w.writes + {wr}, tokens := w.tokens + token)
  }

  /** Acquire after its Put: OK takes the lock, ErrMaybe looks again, anything else starts over. */
  function AfterTake(w: World, i: nat, verdict: Err): World
    requires ObjectOf(w, i).pc.Taking?
  {
    var o := ObjectOf(w, i);
    match verdict
    case OK => Set(w, i, o.pc.token, Out)
    case ErrMaybe => Set(w, i, o.owner, CheckingTake(o.pc.token))
    case _ => Set(w, i, o.owner, Reading)
  }

  function AfterTakeCheck(w: World, i: nat, r: GetReply): World
    requires ObjectOf(w, i).pc.CheckingTake?
  {
    var o := ObjectOf(w, i);
    if r.err == OK && r.value == o.pc.token then Set(w, i, o.pc.token, Out) else Set(w, i, o.owner, Reading)
  }

  /** Release after its Get: free the lock only if it still carries this object's token. */
  function AfterReleaseRead(w: World, i: nat, r: GetReply): World {
    var o := ObjectOf(w, i);
    if r.err == ErrNoKey then Set(w, i, "", Out)
    else if r.err != OK then Set(w, i, o.owner, Releasing)
    else if r.value != o.owner then Set(w, i, "", Out)
    else Issue(w, i, Freeing(r.version), Write(IDLE, r.version), {})
  }

  function AfterFree(w: World, i: nat, verdict: Err): World {
    var o := ObjectOf(w, i);
    match verdict
    case OK => Set(w, i, "", Out)
    case ErrMaybe => Set(w, i, o.owner, CheckingFree)
    case _ => Set(w, i, o.owner, Releasing)
  }

  function AfterFreeCheck(w: World, i: nat, r: GetReply): World {
    var o := ObjectOf(w, i);
    if r.err == OK && r.value == IDLE then Set(w, i, "", Releasing) else Set(w, i, o.owner, Releasing)
  }

  datatype Event =
    | Acquire(i: nat)
    | Read(i: nat, token: string)
    | TakeVerdict(i: nat, verdict: Err)
    | TakeCheck(i: nat)
    | Release(i: nat)
    | ReleaseRead(i: nat)
    | FreeVerdict(i: nat, verdict: Err)
    | FreeCheck(i: nat)
    | Execute(wr: Write)
    | Elsewhere(key: string, value: string, version: nat)

  /** A clerk says OK only when the write took effect: the key has been at the next version with that value. */
  ghost predicate WasWritten(past: seq<string>, value: string, version: nat) {
    version < |past| && past[version] == value
  }

  /** `past` lists the values the lock key has had, one per version. */
  ghost predicate Enabled(name: string, w: World, past: seq<string>, e: Event) {
    match e
    case Acquire(i) => ObjectOf(w, i).pc.Out?
    case Read(i, token) => ObjectOf(w, i).pc.Reading? && token !in w.tokens && token != IDLE && token != ""
    case TakeVerdict(i, v) =>
      var pc := ObjectOf(w, i).pc;
      pc.Taking? && (v == OK ==> WasWritten(past, pc.token, pc.version))
    case TakeCheck(i) => ObjectOf(w, i).pc.CheckingTake?
    case Release(i) => ObjectOf(w, i).pc.Out?
    case ReleaseRead(i) => ObjectOf(w, i).pc.Releasing?
    case FreeVerdict(i, v) =>
      var pc := ObjectOf(w, i).pc;
      pc.Freeing? && (v == OK ==> WasWritten(past, IDLE, pc.version))
    case FreeCheck(i) => ObjectOf(w, i).pc.CheckingFree?
    case Execute(wr) => wr in w.writes
    case Elsewhere(key, _, _) => key != name
  }

  ghost function Perform(name: string, w: World, past: seq<string>, e: Event): World
    requires Enabled(name, w, past, e)
  {
    match e
    case Acquire(i) => Set(w, i, ObjectOf(w, i).owner, Reading)
    case Read(i, token) => AfterRead(w, i, GetFrom(w.store, name), token)
    case TakeVerdict(i, v) => AfterTake(w, i, v)
    case TakeCheck(i) => AfterTakeCheck(w, i, GetFrom(w.store, name))
    case Release(i) => var o := ObjectOf(w, i); if o.owner == "" then w else Set(w, i, o.owner, Releasing)
    case ReleaseRead(i) => AfterReleaseRead(w, i, GetFrom(w.store, name))
    case FreeVerdict(i, v) => AfterFree(w, i, v)
    case FreeCheck(i) => AfterFreeCheck(w, i, GetFrom(w.store, name))
    case Execute(wr) => w.(store := PutInto(w.store, name, wr.value, wr.version).0)
    case Elsewhere(key, value, version) => w.(store := PutInto(w.store, key, value, version).0)
  }

  /** The values of the lock key after an event: a successful write adds one. */
  ghost function PastAfter(name: string, w: World, past: seq<string>, e: Event): seq<string> {
    if e.Execute? && PutInto(w.store, name, e.wr.value, e.wr.version).1 == OK then past + [e.wr.value] else past
  }

  ghost predicate IsRun(name: string, run: seq<World>, pasts: seq<seq<string>>, events: seq<Event>) {
    && |run| == |pasts| == |events| + 1
    && name !in run[0].store && run[0].writes == {} && run[0].objects == map[] && run[0].tokens == {} && pasts[0] == []
    && forall n :: 0 <= n < |events| ==>
                     && Enabled(name, run[n], pasts[n], events[n])
                     && run[n + 1] == Perform(name, run[n], pasts[n], events[n])
                     && pasts[n + 1] == PastAfter(name, run[n], pasts[n], events[n])
  }

  // ---------------------------------------------------------------- the invariant

  /** The store holds the last value written, at the version that counts the writes. */
  ghost predicate StoreOk(name: string, w: World, past: seq<string>) {
    Lookup(w.store, name) == if |past| == 0 then None else Some(Cell(past[|past| - 1], |past|))
  }

  predicate IsToken(w: World, t: string) {
    t in w.tokens && t != IDLE && t != ""
  }

  /** Values alternate between tokens and idle, from a token on. */
  ghost predicate Alternates(w: World, past: seq<string>, v: nat) {
    v < |past| ==> if v == 0 || past[v - 1] == IDLE then IsToken(w, past[v]) else past[v] == IDLE
  }

  /** A write is a token over an idle or missing lock, or idle over a token. */
  ghost predicate WriteOk(w: World, past: seq<string>, wr: Write) {
    && wr.version <= |past|
    && if wr.version == 0 || past[wr.version - 1] == IDLE then IsToken(w, wr.value) else wr.value == IDLE
  }

  /** Each token is offered for one version only. */
  ghost predicate OncePerToken(x: Write, y: Write) {
    x.value == y.value && x.value != IDLE ==> x == y
  }

  ghost predicate Written(w: World, past: seq<string>, v: nat) {
    v < |past| ==> Write(past[v], v) in w.writes
  }

  predicate InRelease(pc: Pc) {
    pc.Releasing? || pc.Freeing? || pc.CheckingFree?
  }

  /** The token of an object: the one it holds or the one it is trying to establish. */
  predicate Uses(o: Object, t: string) {
    t != "" && (o.owner == t || (o.pc.Taking? && o.pc.token == t) || (o.pc.CheckingTake? && o.pc.token == t))
  }

  ghost predicate OneUser(w: World, i: nat, j: nat, t: string) {
    Uses(ObjectOf(w, i), t) && Uses(ObjectOf(w, j), t) ==> i == j
  }

  /** A token is overwritten only through a release by the object holding it. */
  ghost predicate Protected(w: World, past: seq<string>, i: nat, wr: Write) {
    var o := ObjectOf(w, i);
    wr in w.writes && wr.value == IDLE && 0 < wr.version <= |past| && Uses(o, past[wr.version - 1])
    ==> InRelease(o.pc) && o.owner == past[wr.version - 1]
  }

  ghost predicate ObjectOk(w: World, past: seq<string>, o: Object) {
    && (o.owner != "" ==> IsToken(w, o.owner) && exists v: nat :: WasWritten(past, o.owner, v))
    && (o.pc.Taking? ==> IsToken(w, o.pc.token) && Write(o.pc.token, o.pc.version) in w.writes)
    && (o.pc.CheckingTake? ==> IsToken(w, o.pc.token))
  }

  ghost predicate Inv(name: string, w: World, past: seq<string>) {
    && StoreOk(name, w, past)
    && (forall v: nat :: Alternates(w, past, v))
    && (forall v: nat :: Written(w, past, v))
    && (forall wr :: wr in w.writes ==> WriteOk(w, past, wr))
    && (forall x, y :: x in w.writes && y in w.writes ==> OncePerToken(x, y))
    && (forall i: nat :: ObjectOk(w, past, ObjectOf(w, i)))
    && (forall i: nat, j: nat, t :: OneUser(w, i, j, t))
    && (forall i: nat, wr :: Protected(w, past, i, wr))
  }

  // ---------------------------------------------------------------- what the invariant gives

  ghost predicate Holding(o: Object) {
    o.owner != "" && !InRelease(o.pc)
  }

  /** A written token that a non-releasing object uses is still the stored value. */
  lemma StillStored(name: string, w: World, past: seq<string>, i: nat, t: string, v: nat)
    requires Inv(name, w, past) && Uses(ObjectOf(w, i), t) && WasWritten(past, t, v) && t != IDLE
    requires !InRelease(ObjectOf(w, i).pc) || ObjectOf(w, i).owner != t
    ensures |past| == v + 1 && Lookup(w.store, name) == Some(Cell(t, v + 1))
  {
    assert Alternates(w, past, v + 1) && Written(w, past, v + 1);
    assert Protected(w, past, i, Write(IDLE, v + 1));
  }

  // ---------------------------------------------------------------- every event keeps it

  /** An object changes and nothing else does; it takes up no new token. */
  lemma SetInv(name: string, w: World, past: seq<string>, i: nat, owner: string, pc: Pc)
    requires Inv(name, w, past) && ObjectOk(w, past, Object(owner, pc))
    requires forall t :: Uses(Object(owner, pc), t) ==> Uses(ObjectOf(w, i), t)
    requires InRelease(pc) || !InRelease(ObjectOf(w, i).pc) || (owner == "" && pc.Out?)
    ensures Inv(name, Set(w, i, owner, pc), past)
  {
    var w' := Set(w, i, owner, pc);
    forall v: nat ensures Alternates(w', past, v) && Written(w', past, v) {
      assert Alternates(w, past, v) && Written(w, past, v);
    }
    forall wr | wr in w'.writes ensures WriteOk(w', past, wr) { assert WriteOk(w, past, wr); }
    forall j: nat ensures ObjectOk(w', past, ObjectOf(w', j)) { assert ObjectOk(w, past, ObjectOf(w, j)); }
    forall j: nat, k: nat, t ensures OneUser(w', j, k, t) { assert OneUser(w, j, k, t); }
    forall j: nat, wr ensures Protected(w', past, j, wr) { assert Protected(w, past, j, wr); }
  }

  /** The stored value is the last one written, and never the empty string. */
  lemma LastValue(name: string, w: World, past: seq<string>)
    requires Inv(name, w, past)
    ensures var r := GetFrom(w.store, name);
      && (r.err == OK || r.err == ErrNoKey) && (r.err == OK <==> |past| > 0)
      && (r.err == OK ==>
          r.version == |past| && r.value == past[|past| - 1] && r.value != "" && WasWritten(past, r.value, |past| - 1))
  {
    if |past| > 0 { assert Alternates(w, past, |past| - 1); }
  }

  /** An object offers a fresh token for a missing or idle lock. */
  lemma OfferInv(name: string, w: World, past: seq<string>, i: nat, token: string, version: nat)
    requires Inv(name, w, past) && !InRelease(ObjectOf(w, i).pc)
    requires token !in w.tokens && token != IDLE && token != "" && version <= |past|
        && (version == 0 || past[version - 1] == IDLE)
    ensures Inv(name, Issue(w, i, Taking(token, version), Write(token, version), {token}), past)
  {
    var w' := Issue(w, i, Taking(token, version), Write(token, version), {token});
    forall v: nat ensures Alternates(w', past, v) && Written(w', past, v) {
      assert Alternates(w, past, v) && Written(w, past, v);
    }
    forall wr | wr in w.writes ensures WriteOk(w', past, wr) && wr.value != token { assert WriteOk(w, past, wr); }
    forall x, y | x in w'.writes && y in w'.writes ensures OncePerToken(x, y) {
      if x in w.writes && y in w.writes { assert OncePerToken(x, y); }
    }
    forall j: nat ensures ObjectOk(w', past, ObjectOf(w', j)) && !Uses(ObjectOf(w, j), token) {
      assert ObjectOk(w, past, ObjectOf(w, j));
    }
    forall j: nat, k: nat, t ensures OneUser(w', j, k, t) { assert OneUser(w, j, k, t); }
    forall j: nat, wr ensures Protected(w', past, j, wr) {
      assert Protected(w, past, j, wr);
      OfferedNotFreed(name, w, past, j, wr, token);
    }
  }

  lemma OfferedNotFreed(name: string, w: World, past: seq<string>, j: nat, wr: Write, token: string)
    requires Inv(name, w, past) && token !in w.tokens && token != IDLE
    ensures 0 < wr.version <= |past| ==> past[wr.version - 1] != token
  {
    if 0 < wr.version <= |past| { assert Alternates(w, past, wr.version - 1); }
  }

  /** A releasing object offers to overwrite its own token. */
  lemma FreeInv(name: string, w: World, past: seq<string>, i: nat)
    requires Inv(name, w, past) && InRelease(ObjectOf(w, i).pc) && ObjectOf(w, i).owner != ""
    requires |past| > 0 && past[|past| - 1] == ObjectOf(w, i).owner
    ensures Inv(name, Issue(w, i, Freeing(|past|), Write(IDLE, |past|), {}), past)
  {
    var w', t0 := Issue(w, i, Freeing(|past|), Write(IDLE, |past|), {}), ObjectOf(w, i).owner;
    assert ObjectOk(w, past, ObjectOf(w, i));
    assert w'.tokens == w.tokens;
    forall v: nat ensures Alternates(w', past, v) && Written(w', past, v) {
      assert Alternates(w, past, v) && Written(w, past, v);
    }
    forall wr | wr in w.writes ensures WriteOk(w', past, wr) { assert WriteOk(w, past, wr); }
    forall j: nat ensures ObjectOk(w', past, ObjectOf(w', j)) { assert ObjectOk(w, past, ObjectOf(w, j)); }
    forall j: nat, k: nat, t ensures OneUser(w', j, k, t) { assert OneUser(w, j, k, t); }
    forall j: nat, wr ensures Protected(w', past, j, wr) { assert Protected(w, past, j, wr) && OneUser(w, i, j, t0); }
  }

  lemma ExecuteInv(name: string, w: World, past: seq<string>, wr: Write)
    requires Inv(name, w, past) && wr in w.writes
    ensures Inv(name, Perform(name, w, past, Execute(wr)), PastAfter(name, w, past, Execute(wr)))
  {
    var w', past' := Perform(name, w, past, Execute(wr)), PastAfter(name, w, past, Execute(wr));
    assert WriteOk(w, past, wr);
    forall v: nat ensures Alternates(w', past', v) && Written(w', past', v) {
      assert Alternates(w, past, v) && Written(w, past, v);
    }
    forall x | x in w'.writes ensures WriteOk(w', past', x) { assert WriteOk(w, past, x); }
    forall j: nat ensures ObjectOk(w', past', ObjectOf(w', j)) {
      assert ObjectOk(w, past, ObjectOf(w, j));
      if v: nat :| WasWritten(past, ObjectOf(w, j).owner, v) { assert WasWritten(past', ObjectOf(w, j).owner, v); }
    }
    forall j: nat, k: nat, t ensures OneUser(w', j, k, t) { assert OneUser(w, j, k, t); }
    forall j: nat, x ensures Protected(w', past', j, x) {
      assert Protected(w, past, j, x);
      if x in w.writes { assert WriteOk(w, past, x); }
    }
  }

  lemma ElsewhereInv(name: string, w: World, past: seq<string>, key: string, value: string, version: nat)
    requires Inv(name, w, past) && key != name
    ensures Inv(name, w.(store := PutInto(w.store, key, value, version).0), past)
  {
    var w' := w.(store := PutInto(w.store, key, value, version).0);
    forall v: nat ensures Alternates(w', past, v) && Written(w', past, v) {
      assert Alternates(w, past, v) && Written(w, past, v);
    }
    forall x | x in w'.writes ensures WriteOk(w', past, x) { assert WriteOk(w, past, x); }
    forall j: nat ensures ObjectOk(w', past, ObjectOf(w', j)) { assert ObjectOk(w, past, ObjectOf(w, j)); }
    forall j: nat, k: nat, t ensures OneUser(w', j, k, t) { assert OneUser(w, j, k, t); }
    forall j: nat, x ensures Protected(w', past, j, x) { assert Protected(w, past, j, x); }
  }

  lemma AcquireInv(name: string, w: World, past: seq<string>, e: Event)
    requires Inv(name, w, past) && Enabled(name, w, past, e)
        && (e.Acquire? || e.Read? || e.TakeVerdict? || e.TakeCheck?)
    ensures Inv(name, Perform(name, w, past, e), past)
  {
    var o := ObjectOf(w, e.i);
    assert ObjectOk(w, past, o);
    LastValue(name, w, past);
    match e
    case Acquire(i) => SetInv(name, w, past, i, o.owner, Reading);
    case Read(i, token) =>
      var r := GetFrom(w.store, name);
      if r.err != OK { OfferInv(name, w, past, i, token, 0); }
      else if r.value == IDLE { OfferInv(name, w, past, i, token, r.version); }
      else { SetInv(name, w, past, i, o.owner, Reading); }
    case TakeVerdict(i, v) =>
      match v {
        case OK => SetInv(name, w, past, i, o.pc.token, Out);
        case ErrMaybe => SetInv(name, w, past, i, o.owner, CheckingTake(o.pc.token));
        case _ => SetInv(name, w, past, i, o.owner, Reading);
      }
    case TakeCheck(i) =>
      var r := GetFrom(w.store, name);
      if r.err == OK && r.value == o.pc.token { SetInv(name, w, past, i, o.pc.token, Out); }
      else { SetInv(name, w, past, i, o.owner, Reading); }
  }

  lemma ReleaseInv(name: string, w: World, past: seq<string>, e: Event)
    requires Inv(name, w, past) && Enabled(name, w, past, e)
        && (e.Release? || e.ReleaseRead? || e.FreeVerdict? || e.FreeCheck?)
    ensures Inv(name, Perform(name, w, past, e), past)
  {
    var o := ObjectOf(w, e.i);
    assert ObjectOk(w, past, o);
    LastValue(name, w, past);
    match e
    case Release(i) => if o.owner != "" { SetInv(name, w, past, i, o.owner, Releasing); }
    case ReleaseRead(i) =>
      var r := GetFrom(w.store, name);
      if r.err != OK || r.value != o.owner { SetInv(name, w, past, i, "", Out); } else { FreeInv(name, w, past, i); }
    case FreeVerdict(i, v) =>
      match v {
        case OK => SetInv(name, w, past, i, "", Out);
        case ErrMaybe => SetInv(name, w, past, i, o.owner, CheckingFree);
        case _ => SetInv(name, w, past, i, o.owner, Releasing);
      }
    case FreeCheck(i) =>
      var r := GetFrom(w.store, name);
      if r.err == OK && r.value == IDLE { SetInv(name, w, past, i, "", Releasing); }
      else { SetInv(name, w, past, i, o.owner, Releasing); }
  }

  lemma StepInv(name: string, w: World, past: seq<string>, e: Event)
    requires Inv(name, w, past) && Enabled(name, w, past, e)
    ensures Inv(name, Perform(name, w, past, e), PastAfter(name, w, past, e))
  {
    match e
    case Execute(wr) => ExecuteInv(name, w, past, wr);
    case Elsewhere(key, value, version) => ElsewhereInv(name, w, past, key, value, version);
    case Acquire(_) => AcquireInv(name, w, past, e);
    case Read(_, _) => AcquireInv(name, w, past, e);
    case TakeVerdict(_, _) => AcquireInv(name, w, past, e);
    case TakeCheck(_) => AcquireInv(name, w, past, e);
    case _ => ReleaseInv(name, w, past, e);
  }

  lemma {:induction false} RunInv(name: string, run: seq<World>, pasts: seq<seq<string>>, events: seq<Event>, n: nat)
    requires IsRun(name, run, pasts, events) && n < |run|
    ensures Inv(name, run[n], pasts[n])
    decreases n
  {
    if n > 0 {
      RunInv(name, run, pasts, events, n - 1);
      StepInv(name, run[n - 1], pasts[n - 1], events[n - 1]);
    }
  }

  // ---------------------------------------------------------------- what holds over every run

  /** From the return of Acquire until Release is called, the stored value is the holder's token. */
  lemma HolderIsStored(name: string, run: seq<World>, pasts: seq<seq<string>>, events: seq<Event>, n: nat, i: nat)
    requires IsRun(name, run, pasts, events) && n < |run| && Holding(ObjectOf(run[n], i))
    ensures name in run[n].store && run[n].store[name].value == ObjectOf(run[n], i).owner
  {
    RunInv(name, run, pasts, events, n);
    var o := ObjectOf(run[n], i);
    assert ObjectOk(run[n], pasts[n], o);
    var v: nat :| WasWritten(pasts[n], o.owner, v);
    StillStored(name, run[n], pasts[n], i, o.owner, v);
  }

  /** Two Lock objects never hold one name. */
  lemma MutualExclusion(name: string, run: seq<World>, pasts: seq<seq<string>>, events: seq<Event>, n: nat, i: nat,
                        j: nat)
    requires IsRun(name, run, pasts, events) && n < |run|
    requires Holding(ObjectOf(run[n], i)) && Holding(ObjectOf(run[n], j))
    ensures i == j
  {
    RunInv(name, run, pasts, events, n);
    HolderIsStored(name, run, pasts, events, n, i);
    HolderIsStored(name, run, pasts, events, n, j);
    assert OneUser(run[n], i, j, ObjectOf(run[n], i).owner);
  }

  /**
   No delayed write takes effect against a holder: while an object's token is stored, the only write that can
   succeed is "idle", and only once that object itself is inside Release.
   */
  lemma OnlyTheHolderFrees(name: string, run: seq<World>, pasts: seq<seq<string>>, events: seq<Event>, n: nat, i: nat)
    requires IsRun(name, run, pasts, events) && n < |events| && events[n].Execute?
    requires name in run[n].store && Uses(ObjectOf(run[n], i), run[n].store[name].value)
    requires run[n + 1].store != run[n].store
    ensures events[n].wr.value == IDLE && InRelease(ObjectOf(run[n], i).pc)
        && ObjectOf(run[n], i).owner == run[n].store[name].value
  {
    RunInv(name, run, pasts, events, n);
    var w, past, wr := run[n], pasts[n], events[n].wr;
    assert ObjectOk(w, past, ObjectOf(w, i)) && WriteOk(w, past, wr) && Protected(w, past, i, wr);
  }

  /** While Release is under way the token is still stored, or this object's own idle write followed it. */
  lemma UntilFreed(name: string, run: seq<World>, pasts: seq<seq<string>>, events: seq<Event>, n: nat, i: nat)
    returns (v: nat)
    requires IsRun(name, run, pasts, events) && n < |run| && ObjectOf(run[n], i).owner != ""
    ensures WasWritten(pasts[n], ObjectOf(run[n], i).owner, v)
    ensures v + 1 < |pasts[n]| ==> pasts[n][v + 1] == IDLE && InRelease(ObjectOf(run[n], i).pc)
    ensures v + 1 == |pasts[n]| ==> name in run[n].store && run[n].store[name].value == ObjectOf(run[n], i).owner
  {
    RunInv(name, run, pasts, events, n);
    var w, past, o := run[n], pasts[n], ObjectOf(run[n], i);
    assert ObjectOk(w, past, o);
    v :| WasWritten(past, o.owner, v);
    assert Alternates(w, past, v + 1) && Written(w, past, v + 1) && Protected(w, past, i, Write(IDLE, v + 1));
  }

  // ---------------------------------------------------------------- locks can be taken and freed

  /** One more event. */
  lemma GoOn(name: string, run: seq<World>, pasts: seq<seq<string>>, events: seq<Event>, e: Event)
    returns (run': seq<World>, pasts': seq<seq<string>>, events': seq<Event>)
    requires IsRun(name, run, pasts, events) && Enabled(name, run[|events|], pasts[|events|], e)
    ensures IsRun(name, run', pasts', events')
    ensures run'[|events'|] == Perform(name, run[|events|], pasts[|events|], e)
    ensures pasts'[|events'|] == PastAfter(name, run[|events|], pasts[|events|], e)
  {
    run' := run + [Perform(name, run[|events|], pasts[|events|], e)];
    pasts' := pasts + [PastAfter(name, run[|events|], pasts[|events|], e)];
    events' := events + [e];
  }

  /** The lock has never been taken, or was freed last. */
  ghost predicate Unheld(past: seq<string>) {
    |past| == 0 || past[|past| - 1] == IDLE
  }

  /** An object offers its token and the write is executed. */
  lemma TokenWritten(name: string, run: seq<World>, pasts: seq<seq<string>>, events: seq<Event>, i: nat, token: string)
    returns (run': seq<World>, pasts': seq<seq<string>>, events': seq<Event>)
    requires IsRun(name, run, pasts, events) && ObjectOf(run[|events|], i).pc.Out? && Unheld(pasts[|events|])
    requires token !in run[|events|].tokens && token != IDLE && token != ""
    ensures IsRun(name, run', pasts', events') && pasts'[|events'|] == pasts[|events|] + [token]
    ensures ObjectOf(run'[|events'|], i).pc == Taking(token, |pasts[|events|]|)
  {
    RunInv(name, run, pasts, events, |events|);
    LastValue(name, run[|events|], pasts[|events|]);
    run', pasts', events' := GoOn(name, run, pasts, events, Acquire(i));
    run', pasts', events' := GoOn(name, run', pasts', events', Read(i, token));
    run', pasts', events' := GoOn(name, run', pasts', events', Execute(Write(token, |pasts[|events|]|)));
  }

  /**
   From every reachable state in which nobody has the lock, an object that asks for it undisturbed holds it when Acquire
   returns, whether it learns of its write from the answer or has to look.
   */
  lemma UnheldLockCanBeTaken(name: string, run: seq<World>, pasts: seq<seq<string>>, events: seq<Event>, i: nat,
                             token: string, told: bool)
    returns (run': seq<World>, pasts': seq<seq<string>>, events': seq<Event>)
    requires IsRun(name, run, pasts, events) && ObjectOf(run[|events|], i).pc.Out? && Unheld(pasts[|events|])
    requires token !in run[|events|].tokens && token != IDLE && token != ""
    ensures IsRun(name, run', pasts', events') && ObjectOf(run'[|events'|], i) == Object(token, Out)
  {
    run', pasts', events' := TokenWritten(name, run, pasts, events, i, token);
    if told {
      run', pasts', events' := GoOn(name, run', pasts', events', TakeVerdict(i, OK));
    } else {
      RunInv(name, run', pasts', events', |events'|);
      LastValue(name, run'[|events'|], pasts'[|events'|]);
      run', pasts', events' := GoOn(name, run', pasts', events', TakeVerdict(i, ErrMaybe));
      run', pasts', events' := GoOn(name, run', pasts', events', TakeCheck(i));
    }
  }

  /** The holder's idle write is executed. */
  lemma IdleWritten(name: string, run: seq<World>, pasts: seq<seq<string>>, events: seq<Event>, i: nat)
    returns (run': seq<World>, pasts': seq<seq<string>>, events': seq<Event>)
    requires IsRun(name, run, pasts, events) && ObjectOf(run[|events|], i).pc.Out?
        && ObjectOf(run[|events|], i).owner != ""
    ensures IsRun(name, run', pasts', events') && pasts'[|events'|] == pasts[|events|] + [IDLE]
    ensures ObjectOf(run'[|events'|], i) == Object(ObjectOf(run[|events|], i).owner, Freeing(|pasts[|events|]|))
  {
    RunInv(name, run, pasts, events, |events|);
    LastValue(name, run[|events|], pasts[|events|]);
    HolderIsStored(name, run, pasts, events, |events|, i);
    run', pasts', events' := GoOn(name, run, pasts, events, Release(i));
    run', pasts', events' := GoOn(name, run', pasts', events', ReleaseRead(i));
    run', pasts', events' := GoOn(name, run', pasts', events', Execute(Write(IDLE, |pasts[|events|]|)));
  }

  /** A holder that releases undisturbed leaves the lock idle and no longer holds it when Release returns. */
  lemma HeldLockCanBeFreed(name: string, run: seq<World>, pasts: seq<seq<string>>, events: seq<Event>, i: nat,
                           told: bool)
    returns (run': seq<World>, pasts': seq<seq<string>>, events': seq<Event>)
    requires IsRun(name, run, pasts, events) && ObjectOf(run[|events|], i).pc.Out?
        && ObjectOf(run[|events|], i).owner != ""
    ensures IsRun(name, run', pasts', events') && ObjectOf(run'[|events'|], i) == Object("", Out)
        && Unheld(pasts'[|events'|])
  {
    run', pasts', events' := IdleWritten(name, run, pasts, events, i);
    if told {
      run', pasts', events' := GoOn(name, run', pasts', events', FreeVerdict(i, OK));
    } else {
      RunInv(name, run', pasts', events', |events'|);
      LastValue(name, run'[|events'|], pasts'[|events'|]);
      run', pasts', events' := GoOn(name, run', pasts', events', FreeVerdict(i, ErrMaybe));
      run', pasts', events' := GoOn(name, run', pasts', events', FreeCheck(i));
      run', pasts', events' := GoOn(name, run', pasts', events', ReleaseRead(i));
    }
  }
}
