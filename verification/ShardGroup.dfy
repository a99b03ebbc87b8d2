/**
 One shard group: a versioned map plus, for every shard, whether it is served here and the last configuration number
 seen.
 */
module ShardGroup {
  import opened Common
  import opened VersionedStore

  const NSHARDS: nat := 12
  const NUM_FIRST: nat := 1
  const GID1: nat := 1

  datatype Status = Absent | Serving | Frozen

  /** Which shard a key belongs to; any function into the shards will do. */
  type KeyMap = string -> nat

  datatype Group = Group(data: Store, status: seq<Status>, lastNum: seq<nat>)

  ghost predicate WellFormed(g: Group) {
    |g.status| == NSHARDS && |g.lastNum| == NSHARDS
  }

  datatype Op =
    | Client(q: Request)
    | Freeze(shard: nat, num: nat)
    | Install(shard: nat, state: Option<Store>, num: nat)
    | Delete(shard: nat, num: nat)

  datatype Result =
    | ClientR(reply: Reply)
    | FreezeR(state: Option<Store>, num: nat, err: Err)
    | InstallR(err: Err)
    | DeleteR(err: Err)

  /** The part of a map that belongs to a shard. */
  function Slice(kf: KeyMap, st: Store, s: nat): (r: Store)
    ensures forall k :: k in r <==> k in st && kf(k) == s
    ensures forall k :: k in r ==> r[k] == st[k]
  {
    map k | k in st && kf(k) == s :: st[k]
  }

  /** The rest. */
  function Without(kf: KeyMap, st: Store, s: nat): (r: Store)
    ensures forall k :: k in r <==> k in st && kf(k) != s
    ensures forall k :: k in r ==> r[k] == st[k]
  {
    map k | k in st && kf(k) != s :: st[k]
  }

  function Initial(gid: nat): Group {
    if gid == GID1 then Group(map[], seq(NSHARDS, _ => Serving), seq(NSHARDS, _ => NUM_FIRST))
    else Group(map[], seq(NSHARDS, _ => Absent), seq(NSHARDS, _ => 0))
  }

  predicate InRange(kf: KeyMap, op: Op) {
    match op
    case Client(q) => kf(q.key) < NSHARDS
    case Freeze(s, _) => s < NSHARDS
    case Install(s, _, _) => s < NSHARDS
    case Delete(s, _) => s < NSHARDS
  }

  /** An install that takes effect decodes its argument; decoding nothing is a Go panic. */
  predicate DecodesNothing(g: Group, op: Op) {
    && op.Install? && op.state.None? && op.shard < |g.status| && op.shard < |g.lastNum|
    && op.num > g.lastNum[op.shard] && g.status[op.shard] == Absent
  }

  function DoClient(kf: KeyMap, g: Group, q: Request): (Group, Reply)
    requires kf(q.key) < |g.status|
  {
    if g.status[kf(q.key)] != Serving then
      (g, match q case Get(_) => GetR(GetReply(ErrWrongGroup, "", 0)) case Put(_, _, _) => PutR(ErrWrongGroup))
    else
      var (st, r) := Execute(g.data, q);
      (g.(data := st), r)
  }

  function DoFreeze(kf: KeyMap, g: Group, s: nat, num: nat): (Group, Result)
    requires s < |g.status| && s < |g.lastNum|
  {
    var seen := g.lastNum[s];
    if num < seen then (g, FreezeR(None, seen, ErrVersion))
    else if num == seen then
      match g.status[s]
      case Frozen => (g, FreezeR(Some(Slice(kf, g.data, s)), seen, OK))
      case Absent => (g, FreezeR(None, seen, OK))
      case Serving => (g, FreezeR(None, seen, ErrVersion))
    else if g.status[s] != Serving then (g, FreezeR(None, seen, ErrWrongGroup))
    else (g.(status := g.status[s := Frozen], lastNum := g.lastNum[s := num]),
        FreezeR(Some(Slice(kf, g.data, s)), num, OK))
  }

  function DoInstall(kf: KeyMap, g: Group, s: nat, state: Option<Store>, num: nat): (Group, Result)
    requires s < |g.status| && s < |g.lastNum|
  {
    var seen := g.lastNum[s];
    if num < seen then (g, InstallR(ErrVersion))
    else if num == seen && g.status[s] == Serving then (g, InstallR(OK))
    else if num > seen && g.status[s] == Absent then
      var entries := match state { case Some(st) => st case None => map[] };
      (Group(Without(kf, g.data, s) + entries, g.status[s := Serving], g.lastNum[s := num]), InstallR(OK))
    else (g, InstallR(ErrWrongGroup))
  }

  function DoDelete(kf: KeyMap, g: Group, s: nat, num: nat): (Group, Result)
    requires s < |g.status| && s < |g.lastNum|
  {
    if num != g.lastNum[s] then (g, DeleteR(ErrVersion))
    else
      match g.status[s]
      case Absent => (g, DeleteR(OK))
      case Serving => (g, DeleteR(ErrWrongGroup))
      case Frozen => (g.(data := Without(kf, g.data, s), status := g.status[s := Absent]), DeleteR(OK))
  }

  function DoOp(kf: KeyMap, g: Group, op: Op): (Group, Result)
    requires |g.status| == NSHARDS && |g.lastNum| == NSHARDS && InRange(kf, op)
  {
    match op
    case Client(q) => var (g', r) := DoClient(kf, g, q); (g', ClientR(r))
    case Freeze(s, num) => DoFreeze(kf, g, s, num)
    case Install(s, state, num) => DoInstall(kf, g, s, state, num)
    case Delete(s, num) => DoDelete(kf, g, s, num)
  }

  // ---------------------------------------------------------------- the server as it runs

  class KVServer {
    const kf: KeyMap
    var data: Store
    const statuses: array<Status>
    const lastNum: array<nat>

    ghost function View(): Group
      reads this, statuses, lastNum
    {
      Group(data, statuses[..], lastNum[..])
    }

    ghost predicate Valid()
      reads this
    {
      statuses.Length == NSHARDS && lastNum.Length == NSHARDS
    }

    constructor (kf: KeyMap, gid: nat)
      ensures Valid() && this.kf == kf && View() == Initial(gid)
      ensures fresh(statuses) && fresh(lastNum)
    {
      this.kf := kf;
      data := map[];
      statuses := new Status[NSHARDS](_ => Absent);
      lastNum := new nat[NSHARDS](_ => 0);
      new;
      if gid == GID1 {
        for shard := 0 to NSHARDS
          invariant data == map[]
          invariant forall s :: 0 <= s < shard ==> statuses[s] == Serving && lastNum[s] == NUM_FIRST
        {
          statuses[shard] := Serving;
          lastNum[shard] := NUM_FIRST;
        }
      }
      assert statuses[..] == Initial(gid).status;
      assert lastNum[..] == Initial(gid).lastNum;
    }

    /** Collect the entries of one shard. */
    method EncodeShard(shard: nat) returns (entries: Store)
      ensures entries == Slice(kf, data, shard)
    {
      entries := map[];
      var keys := data.Keys;
      while keys != {}
        invariant keys <= data.Keys
        invariant forall k :: k in entries <==> k in data && k !in keys && kf(k) == shard
        invariant forall k :: k in entries ==> entries[k] == data[k]
        decreases keys
      {
        var k :| k in keys;
        if kf(k) == shard {
          entries := entries[k := data[k]];
        }
        keys := keys - {k};
      }
    }

    /** Drop the entries of one shard. */
    method ClearShard(shard: nat)
      modifies this`data
      ensures data == Without(kf, old(data), shard)
    {
      var keys := data.Keys;
      while keys != {}
        invariant keys <= old(data).Keys
        invariant forall k :: k in data <==> k in old(data) && (k in keys || kf(k) != shard)
        invariant forall k :: k in data ==> data[k] == old(data)[k]
        decreases keys
      {
        var k :| k in keys;
        if kf(k) == shard {
          data := data - {k};
        }
        keys := keys - {k};
      }
    }

    /** Insert received entries one by one. */
    method InsertAll(entries: Store)
      modifies this`data
      ensures data == old(data) + entries
    {
      var keys := entries.Keys;
      while keys != {}
        invariant keys <= entries.Keys
        invariant forall k :: k in data <==> k in old(data) || (k in entries && k !in keys)
        invariant forall k :: k in data ==> data[k] == if k in entries && k !in keys then entries[k] else old(data)[k]
        decreases keys
      {
        var k :| k in keys;
        data := data[k := entries[k]];
        keys := keys - {k};
      }
    }

    method FreezeShard(shard: nat, num: nat) returns (r: Result)
      requires Valid() && shard < NSHARDS
      modifies statuses, lastNum
      ensures (View(), r) == DoFreeze(kf, old(View()), shard, num)
    {
      var seen := lastNum[shard];
      if num < seen {
        return FreezeR(None, seen, ErrVersion);
      }
      if num == seen && statuses[shard] == Frozen {
        var st := EncodeShard(shard);
        return FreezeR(Some(st), seen, OK);
      }
      if num == seen && statuses[shard] == Absent {
        return FreezeR(None, seen, OK);
      }
      if num == seen {
        return FreezeR(None, seen, ErrVersion);
      }
      if statuses[shard] != Serving {
        return FreezeR(None, seen, ErrWrongGroup);
      }
      statuses[shard] := Frozen;
      lastNum[shard] := num;
      var st := EncodeShard(shard);
      return FreezeR(Some(st), num, OK);
    }

    method InstallShard(shard: nat, state: Option<Store>, num: nat) returns (r: Result)
      requires Valid() && shard < NSHARDS && !DecodesNothing(View(), Install(shard, state, num))
      modifies this`data, statuses, lastNum
      ensures (View(), r) == DoInstall(kf, old(View()), shard, state, num)
    {
      var seen := lastNum[shard];
      if num < seen {
        return InstallR(ErrVersion);
      }
      if num == seen && statuses[shard] == Serving {
        return InstallR(OK);
      }
      if num > seen && statuses[shard] == Absent {
        var entries := state.value;
        ClearShard(shard);
        InsertAll(entries);
        statuses[shard] := Serving;
        lastNum[shard] := num;
        return InstallR(OK);
      }
      return InstallR(ErrWrongGroup);
    }

    method DeleteShard(shard: nat, num: nat) returns (r: Result)
      requires Valid() && shard < NSHARDS
      modifies this`data, statuses
      ensures (View(), r) == DoDelete(kf, old(View()), shard, num)
    {
      if num != lastNum[shard] {
        return DeleteR(ErrVersion);
      }
      if statuses[shard] == Absent {
        return DeleteR(OK);
      }
      if statuses[shard] != Frozen {
        return DeleteR(ErrWrongGroup);
      }
      ClearShard(shard);
      statuses[shard] := Absent;
      return DeleteR(OK);
    }

    method GetOrPut(q: Request) returns (reply: Reply)
      requires Valid() && kf(q.key) < NSHARDS
      modifies this`data
      ensures (View(), reply) == DoClient(kf, old(View()), q)
    {
      var shard := kf(q.key);
      if statuses[shard] != Serving {
        return match q { case Get(_) => GetR(GetReply(ErrWrongGroup, "", 0)) case Put(_, _, _) => PutR(ErrWrongGroup) };
      }
      match q
      case Get(k) =>
        if k in data {
          return GetR(GetReply(OK, data[k].value, data[k].version));
        } else {
          return GetR(GetReply(ErrNoKey, "", 0));
        }
      case Put(k, v, version) =>
        if k in data {
          if version != data[k].version {
            return PutR(ErrVersion);
          }
          data := data[k := Cell(v, version + 1)];
          return PutR(OK);
        } else if version == 0 {
          data := data[k := Cell(v, 1)];
          return PutR(OK);
        } else {
          return PutR(ErrNoKey);
        }
    }

    /** What each replica executes for each committed operation. */
    method Execute(op: Op) returns (r: Result)
      requires Valid() && InRange(kf, op) && !DecodesNothing(View(), op)
      modifies this`data, statuses, lastNum
      ensures (View(), r) == DoOp(kf, old(View()), op)
    {
      match op
      case Client(q) => var reply := GetOrPut(q); r := ClientR(reply);
      case Freeze(s, num) => r := FreezeShard(s, num);
      case Install(s, state, num) => r := InstallShard(s, state, num);
      case Delete(s, num) => r := DeleteShard(s, num);
    }

    /** A snapshot is the whole group state; restoring it gives that state back. */
    method Restore(snapshot: Option<Group>)
      requires Valid() && (snapshot.Some? ==> |snapshot.value.status| == NSHARDS && |snapshot.value.lastNum| == NSHARDS)
      modifies this`data, statuses, lastNum
      ensures View() == match snapshot { case None => old(View()) case Some(g) => g }
    {
      if snapshot.Some? {
        var g := snapshot.value;
        for s := 0 to NSHARDS
          invariant forall x :: 0 <= x < s ==> statuses[x] == g.status[x] && lastNum[x] == g.lastNum[x]
        {
          statuses[s] := g.status[s];
          lastNum[s] := g.lastNum[s];
        }
        data := g.data;
        assert statuses[..] == g.status && lastNum[..] == g.lastNum;
      }
    }
  }
}
