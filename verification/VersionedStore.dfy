/**
 The versioned key/value map every service of the system offers, and the two servers that are nothing but that map.
 */
module VersionedStore {
  import opened Common

  datatype Err = OK | ErrNoKey | ErrVersion | ErrMaybe | ErrWrongLeader | ErrWrongGroup

  datatype Cell = Cell(value: string, version: nat)

  type Store = map<string, Cell>

  datatype GetReply = GetReply(err: Err, value: string, version: nat)

  datatype Request = Get(key: string) | Put(key: string, value: string, version: nat)

  datatype Reply = GetR(get: GetReply) | PutR(err: Err)

  function Lookup(st: Store, k: string): Option<Cell> {
    if k in st then Some(st[k]) else None
  }

  /** The version a Put must name to succeed; a missing key counts as version 0. */
  function VersionOf(st: Store, k: string): nat {
    if k in st then st[k].version else 0
  }

  function GetFrom(st: Store, k: string): GetReply {
    match Lookup(st, k)
    case Some(c) => GetReply(OK, c.value, c.version)
    case None => GetReply(ErrNoKey, "", 0)
  }

  function PutInto(st: Store, k: string, v: string, version: nat): (Store, Err) {
    match Lookup(st, k)
    case Some(c) => if version == c.version then (st[k := Cell(v, version + 1)], OK) else (st, ErrVersion)
    case None => if version == 0 then (st[k := Cell(v, 1)], OK) else (st, ErrNoKey)
  }

  function Execute(st: Store, q: Request): (Store, Reply) {
    match q
    case Get(k) => (st, GetR(GetFrom(st, k)))
    case Put(k, v, version) => var (st', e) := PutInto(st, k, v, version); (st', PutR(e))
  }

  /** The answer of a shard group that does not serve the key. */
  predicate WrongGroup(r: Reply) {
    match r
    case GetR(g) => g.err == ErrWrongGroup
    case PutR(e) => e == ErrWrongGroup
  }

  /** Stored versions are positive. */
  ghost predicate Positive(st: Store) {
    forall k :: k in st ==> st[k].version > 0
  }

  /**
   Compare-and-swap: a Put succeeds exactly when it names the key's version; success moves that key,
   and no other, to the next version with the new value; failure changes nothing.
   */
  lemma PutIsCompareAndSwap(st: Store, k: string, v: string, version: nat)
    requires Positive(st)
    ensures var (st', e) := PutInto(st, k, v, version);
      && Positive(st')
      && (e == OK <==> version == VersionOf(st, k))
      && (e == OK ==> Lookup(st', k) == Some(Cell(v, version + 1)))
      && (e != OK ==> st' == st && (e == ErrNoKey <==> k !in st) && (e == ErrVersion <==> k in st))
      && (forall x :: x != k ==> Lookup(st', x) == Lookup(st, x))
  {
    var (st', e) := PutInto(st, k, v, version);
    forall x | x in st' ensures st'[x].version > 0 {
      if x != k { assert x in st; }
    }
    forall x | x != k ensures Lookup(st', x) == Lookup(st, x) {
      assert x in st' <==> x in st;
    }
  }

  /** The unreplicated server: Get and Put on a map under one lock. */
  class KVServer {
    var data: Store

    constructor ()
      ensures data == map[]
    {
      data := map[];
    }

    method Get(key: string) returns (reply: GetReply)
      ensures reply == GetFrom(data, key)
    {
      if key in data {
        return GetReply(OK, data[key].value, data[key].version);
      } else {
        return GetReply(ErrNoKey, "", 0);
      }
    }

    method Put(key: string, value: string, version: nat) returns (err: Err)
      modifies this
      ensures (data, err) == PutInto(old(data), key, value, version)
    {
      if key in data {
        if version == data[key].version {
          data := data[key := Cell(value, version + 1)];
          return OK;
        } else {
          return ErrVersion;
        }
      } else {
        if version == 0 {
          data := data[key := Cell(value, 1)];
          return OK;
        } else {
          return ErrNoKey;
        }
      }
    }

    /** The operation the replicated server executes for each committed request. */
    method DoOp(q: Request) returns (reply: Reply)
      modifies this
      ensures (data, reply) == Execute(old(data), q)
    {
      match q
      case Get(k) => var r := Get(k); reply := GetR(r);
      case Put(k, v, version) => var e := Put(k, v, version); reply := PutR(e);
    }

    /** A snapshot holds the whole map; restoring an absent one changes nothing. */
    method Restore(snapshot: Option<Store>)
      modifies this
      ensures data == match snapshot { case None => old(data) case Some(st) => st }
    {
      if snapshot.Some? {
        data := snapshot.value;
      }
    }
  }
}
