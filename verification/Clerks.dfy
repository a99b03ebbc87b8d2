/** What the verdict of a clerk's Put means in a network that loses, delays and reorders requests and replies. */
module Clerks {
  import opened Common
  import opened VersionedStore

  /** How one call to a server ended for the clerk: nothing came back, or an answer did. */
  datatype Rpc = NoReply | Answer(err: Err)

  // ---------------------------------------------------------------- the service, over a whole run

  /** One request the service executed and its result. */
  datatype Done = Done(q: Request, r: Reply)

  /** The store after the requests executed so far; a group that does not serve the key refuses without effect. */
  ghost function StoreAfter(h: seq<Done>): Store {
    if |h| == 0 then map[]
    else
      var st, d := StoreAfter(h[..|h| - 1]), h[|h| - 1];
      if WrongGroup(d.r) then st else Execute(st, d.q).0
  }

  /** Each executed request was refused, or answered as the one versioned map would. */
  ghost predicate Legal(h: seq<Done>) {
    forall i: nat :: i < |h| ==> WrongGroup(h[i].r) || h[i].r == Execute(StoreAfter(h[..i]), h[i].q).1
  }

  ghost predicate Applied(h: seq<Done>, i: nat, key: string, version: nat) {
    Writes(h, i, key) && h[i].q.version == version
  }

  /** The request at position `j` is a successful Put of the key. */
  ghost predicate Writes(h: seq<Done>, j: nat, key: string) {
    j < |h| && h[j].q.Put? && h[j].q.key == key && h[j].r == PutR(OK)
  }

  lemma LegalGrows(h: seq<Done>, d: Done)
    requires Legal(h) && (WrongGroup(d.r) || d.r == Execute(StoreAfter(h), d.q).1)
    ensures Legal(h + [d]) && StoreAfter(h + [d]) == if WrongGroup(d.r) then StoreAfter(h)
        else Execute(StoreAfter(h), d.q).0
  {
    var h' := h + [d];
    assert h'[..|h|] == h;
    forall i: nat | i < |h'| ensures WrongGroup(h'[i].r) || h'[i].r == Execute(StoreAfter(h'[..i]), h'[i].q).1 {
      if i < |h| { assert h'[..i] == h[..i]; }
    }
  }

  lemma {:induction false} VersionsGrow(h: seq<Done>, i: nat, j: nat, key: string)
    requires Legal(h) && i <= j <= |h|
    ensures VersionOf(StoreAfter(h[..i]), key) <= VersionOf(StoreAfter(h[..j]), key)
    decreases j
  {
    if i < j {
      VersionsGrow(h, i, j - 1, key);
      assert h[..j][..j - 1] == h[..j - 1];
    }
  }

  /** At most one Put per key and version ever succeeds, however often and however late it is executed. */
  lemma OneSuccessPerVersion(h: seq<Done>, i: nat, j: nat, key: string, version: nat)
    requires Legal(h) && Applied(h, i, key, version) && Applied(h, j, key, version)
    ensures i == j
  {
    var a, b := if i < j then i else j, if i < j then j else i;
    if a < b {
      assert h[..a + 1][..a] == h[..a];
      assert VersionOf(StoreAfter(h[..a + 1]), key) == version + 1;
      assert VersionOf(StoreAfter(h[..b]), key) == version;
      VersionsGrow(h, a + 1, b, key);
    }
  }

  // ---------------------------------------------------------------- what requests are answered

  /** The successful Puts of the key before position `i`. */
  ghost function WritesBefore(h: seq<Done>, i: nat, key: string): set<nat> {
    set j: nat | j < i && Writes(h, j, key)
  }

  /** The last of them is at position `j`. */
  ghost predicate LastWrite(h: seq<Done>, i: nat, key: string, j: nat) {
    j < i && Writes(h, j, key) && forall k: nat :: j < k < i ==> !Writes(h, k, key)
  }

  /**
   The store as the history tells it: a key is missing while no Put of it has succeeded, and otherwise has the value
   of the last one and as version the number of them.
   */
  ghost predicate StoredByHistory(h: seq<Done>, i: nat, key: string)
    requires i <= |h|
  {
    match Lookup(StoreAfter(h[..i]), key)
    case None => WritesBefore(h, i, key) == {}
    case Some(c) =>
      && c.version == |WritesBefore(h, i, key)| > 0
      && exists j: nat :: LastWrite(h, i, key, j) && h[j].q.value == c.value
  }

  lemma WritesGrow(h: seq<Done>, i: nat, key: string)
    requires i < |h|
    ensures Writes(h, i, key) ==>
        WritesBefore(h, i + 1, key) == WritesBefore(h, i, key) + {i} && LastWrite(h, i + 1, key, i)
    ensures !Writes(h, i, key) ==> WritesBefore(h, i + 1, key) == WritesBefore(h, i, key)
    ensures !Writes(h, i, key) ==> forall j: nat :: LastWrite(h, i, key, j) ==> LastWrite(h, i + 1, key, j)
  {
  }

  /** A successful Put moves its key to the next version with its value; nothing else changes the key. */
  lemma OneMoreRequest(h: seq<Done>, i: nat, key: string)
    requires Legal(h) && i < |h|
    ensures Writes(h, i, key) ==>
        Lookup(StoreAfter(h[..i + 1]), key) == Some(Cell(h[i].q.value, VersionOf(StoreAfter(h[..i]), key) + 1))
    ensures !Writes(h, i, key) ==> Lookup(StoreAfter(h[..i + 1]), key) == Lookup(StoreAfter(h[..i]), key)
  {
    assert h[..i + 1][..i] == h[..i];
  }

  lemma {:induction false} StoreFollowsHistory(h: seq<Done>, i: nat, key: string)
    requires Legal(h) && i <= |h|
    ensures StoredByHistory(h, i, key)
    decreases i
  {
    if i == 0 {
      assert WritesBefore(h, 0, key) == {};
    } else {
      StoreFollowsHistory(h, i - 1, key);
      WritesGrow(h, i - 1, key);
      OneMoreRequest(h, i - 1, key);
    }
  }

  /**
   The answer the history calls for.  A Get returns the last value written and the number of writes, or ErrNoKey when
   there was none; a Put succeeds exactly when it names that number,
       and otherwise tells a missing key from a changed one.
   */
  ghost predicate AnsweredRight(h: seq<Done>, i: nat)
    requires i < |h|
  {
    var q, n := h[i].q, |WritesBefore(h, i, h[i].q.key)|;
    match q
    case Get(key) =>
      if n == 0 then h[i].r == GetR(GetReply(ErrNoKey, "", 0))
      else exists j: nat :: LastWrite(h, i, key, j) && h[i].r == GetR(GetReply(OK, h[j].q.value, n))
    case Put(_, _, version) =>
      h[i].r == PutR(if version == n then OK else if n == 0 then ErrNoKey else ErrVersion)
  }

  /** In a legal history every request that was not refused is answered so. */
  lemma ReadsLastWrite(h: seq<Done>, i: nat)
    requires Legal(h) && i < |h| && !WrongGroup(h[i].r)
    ensures AnsweredRight(h, i)
  {
    StoreFollowsHistory(h, i, h[i].q.key);
  }

  // ---------------------------------------------------------------- one Put call

  /**
   The attempts of one Put call: `at[k]` says where in the run attempt `k` was executed, if it ever was.
   No execution is shared, and every answer other than ErrWrongLeader is the result of that attempt.
   */
  ghost predicate Attempts(h: seq<Done>, q: Request, rpcs: seq<Rpc>, at: seq<Option<nat>>) {
    && q.Put? && |at| == |rpcs|
    && (forall k: nat :: k < |at| && at[k].Some? ==> at[k].value < |h| && h[at[k].value].q == q)
    && (forall k: nat, m: nat :: k < |at| && m < |at| && k != m && at[k].Some? ==> at[k] != at[m])
    && (forall k: nat :: k < |at| ==> Honest(h, rpcs[k], at[k]))
  }

  ghost predicate Honest(h: seq<Done>, rpc: Rpc, place: Option<nat>) {
    rpc.Answer? && rpc.err != ErrWrongLeader ==> place.Some? && place.value < |h| && h[place.value].r == PutR(rpc.err)
  }

  ghost predicate TookEffect(h: seq<Done>, at: seq<Option<nat>>, k: nat) {
    k < |at| && at[k].Some? && at[k].value < |h| && h[at[k].value].r == PutR(OK)
  }

  ghost predicate ExactlyOneEffect(h: seq<Done>, at: seq<Option<nat>>) {
    exists k: nat :: TookEffect(h, at, k) && forall m: nat :: TookEffect(h, at, m) ==> m == k
  }

  ghost predicate NoEffect(h: seq<Done>, at: seq<Option<nat>>) {
    forall k: nat :: !TookEffect(h, at, k)
  }

  /** What all the clerks guarantee about the attempts behind a verdict. */
  ghost predicate Grounded(rpcs: seq<Rpc>, verdict: Err) {
    && (verdict == OK ==> |rpcs| > 0 && rpcs[|rpcs| - 1] == Answer(OK))
    && (verdict == ErrVersion ==> |rpcs| == 1 && rpcs[0] == Answer(ErrVersion))
  }

  /** OK: exactly one attempt takes effect in the whole run.  ErrVersion: none ever does. */
  lemma VerdictsAreTrue(h: seq<Done>, q: Request, rpcs: seq<Rpc>, at: seq<Option<nat>>, verdict: Err)
    requires Legal(h) && Attempts(h, q, rpcs, at) && Grounded(rpcs, verdict)
    ensures verdict == OK ==> ExactlyOneEffect(h, at)
    ensures verdict == ErrVersion ==> NoEffect(h, at)
  {
    if verdict == OK {
      var k := |rpcs| - 1;
      assert Honest(h, rpcs[k], at[k]);
      assert TookEffect(h, at, k);
      forall m: nat | TookEffect(h, at, m) ensures m == k {
        OneSuccessPerVersion(h, at[m].value, at[k].value, q.key, q.version);
      }
    }
    if verdict == ErrVersion {
      assert Honest(h, rpcs[0], at[0]);
    }
  }

  // ---------------------------------------------------------------- the unreplicated store's clerk

  ghost predicate AllLost(rpcs: seq<Rpc>) {
    forall k :: 0 <= k < |rpcs| ==> rpcs[k].NoReply?
  }

  /** Repeat until an answer comes; `rpcs` is what the network does, `used` how many calls were made. */
  method PutToServer(rpcs: seq<Rpc>) returns (verdict: Option<Err>, used: nat)
    ensures used <= |rpcs|
    ensures verdict == None ==> used == |rpcs| && AllLost(rpcs)
    ensures verdict.Some? ==>
              && used > 0 && AllLost(rpcs[..used - 1]) && rpcs[used - 1].Answer?
              && verdict.value == (if rpcs[used - 1].err == ErrVersion && used > 1 then ErrMaybe
                  else rpcs[used - 1].err)
    ensures verdict.Some? ==> Grounded(rpcs[..used], verdict.value)
  {
    var retry := false;
    used := 0;
    while used < |rpcs|
      invariant used <= |rpcs| && AllLost(rpcs[..used]) && retry == (used > 0)
    {
      var rpc := rpcs[used];
      used := used + 1;
      if rpc.NoReply? {
        retry := true;
        continue;
      }
      if rpc.err == ErrVersion && retry {
        return Some(ErrMaybe), used;
      }
      return Some(rpc.err), used;
    }
    return None, used;
  }

  // ---------------------------------------------------------------- the replicated store's clerk, and a group's

  predicate TryNext(rpc: Rpc) {
    rpc.NoReply? || rpc.err == ErrWrongLeader
  }

  ghost predicate AllSkipped(rpcs: seq<Rpc>) {
    forall k :: 0 <= k < |rpcs| ==> TryNext(rpcs[k])
  }

  ghost predicate LastDecides(rpcs: seq<Rpc>, used: nat, verdict: Err) {
    && 0 < used <= |rpcs| && AllSkipped(rpcs[..used - 1]) && !TryNext(rpcs[used - 1])
    && verdict == if rpcs[used - 1].err == ErrVersion && used > 1 then ErrMaybe else rpcs[used - 1].err
  }

  /** How many servers were passed over: all that were asked, but for one whose answer counted. */
  function Skipped(verdict: Option<Err>, used: nat): nat {
    if verdict.Some? && verdict.value != ErrWrongLeader && used > 0 then used - 1 else used
  }

  /** Server `to` is the one `steps` places after `from`, going round. */
  ghost predicate GoneRound(from: nat, steps: nat, servers: nat, to: nat) {
    to < servers && exists laps: nat :: from + steps == Times(laps, servers) + to
  }

  ghost function Times(laps: nat, servers: nat): nat {
    if laps == 0 then 0 else Times(laps - 1, servers) + servers
  }

  lemma StayPut(from: nat, servers: nat)
    requires from < servers
    ensures GoneRound(from, 0, servers, from)
  {
    assert from + 0 == Times(0, servers) + from;
  }

  /** The index after `to`, going round. */
  function After(to: nat, servers: nat): nat {
    if to + 1 == servers then 0 else to + 1
  }

  lemma AfterIsModulo(to: nat, servers: nat)
    requires to < servers
    ensures (to + 1) % servers == After(to, servers)
  {
    if to + 1 < servers {
      SmallRemainder(to + 1, servers);
    }
  }

  lemma SmallRemainder(x: nat, n: nat)
    requires x < n
    ensures x % n == x
  {
  }

  lemma GoOneOn(from: nat, steps: nat, servers: nat, to: nat)
    requires GoneRound(from, steps, servers, to)
    ensures GoneRound(from, steps + 1, servers, After(to, servers))
  {
    var laps: nat :| from + steps == Times(laps, servers) + to;
    if to + 1 == servers {
      assert from + (steps + 1) == Times(laps + 1, servers) + 0;
    } else {
      assert from + (steps + 1) == Times(laps, servers) + (to + 1);
    }
  }

  class Clerk {
    const servers: nat
    var leader: nat

    ghost predicate Valid()
      reads this
    {
      servers > 0 && leader < servers
    }

    constructor (servers: nat)
      requires servers > 0
      ensures Valid() && this.servers == servers && leader == 0
    {
      this.servers := servers;
      leader := 0;
    }

    method NextServer(ghost from: nat, ghost steps: nat)
      requires Valid() && GoneRound(from, steps, servers, leader)
      modifies this`leader
      ensures Valid() && GoneRound(from, steps + 1, servers, leader)
    {
      GoOneOn(from, steps, servers, leader);
      AfterIsModulo(leader, servers);
      leader := (leader + 1) % servers;
    }

    /** Go round the servers until one that leads answers. */
    method PutToLeader(rpcs: seq<Rpc>) returns (verdict: Option<Err>, used: nat)
      requires Valid()
      modifies this`leader
      ensures Valid() && used <= |rpcs|
      ensures verdict == None ==> used == |rpcs| && AllSkipped(rpcs)
      ensures verdict.Some? ==> LastDecides(rpcs, used, verdict.value) && Grounded(rpcs[..used], verdict.value)
      ensures GoneRound(old(leader), Skipped(verdict, used), servers, leader)
    {
      var retried := false;
      used := 0;
      StayPut(leader, servers);
      while used < |rpcs|
        invariant Valid() && used <= |rpcs| && AllSkipped(rpcs[..used]) && retried == (used > 0)
        invariant GoneRound(old(leader), used, servers, leader)
      {
        var rpc := rpcs[used];
        used := used + 1;
        if TryNext(rpc) {
          NextServer(old(leader), used - 1);
          retried := true;
        } else if rpc.err == ErrVersion && retried {
          return Some(ErrMaybe), used;
        } else {
          return Some(rpc.err), used;
        }
      }
      return None, used;
    }

    /** Ask each server of a group at most once; `used == |rpcs|` with no verdict means the call is still out. */
    method PutToGroup(rpcs: seq<Rpc>) returns (verdict: Option<Err>, used: nat)
      requires Valid()
      modifies this`leader
      ensures Valid() && used <= |rpcs| && used <= servers
      ensures GoneRound(old(leader), Skipped(verdict, used), servers, leader)
      ensures verdict == None ==> used == |rpcs| < servers && AllSkipped(rpcs)
      ensures verdict == Some(ErrWrongLeader) ==> used == servers && AllSkipped(rpcs[..used])
      ensures verdict.Some? && verdict.value != ErrWrongLeader ==>
          LastDecides(rpcs, used, verdict.value) && Grounded(rpcs[..used], verdict.value)
    {
      var retried := false;
      used := 0;
      StayPut(leader, servers);
      for i := 0 to servers
        invariant Valid() && used == i <= |rpcs| && AllSkipped(rpcs[..used]) && retried == (used > 0)
        invariant GoneRound(old(leader), used, servers, leader)
      {
        if used == |rpcs| {
          return None, used;
        }
        var rpc := rpcs[used];
        used := used + 1;
        if TryNext(rpc) {
          NextServer(old(leader), used - 1);
          retried := true;
        } else if rpc.err == ErrVersion && retried {
          return Some(ErrMaybe), used;
        } else {
          return Some(rpc.err), used;
        }
      }
      return Some(ErrWrongLeader), used;
    }
  }

  // ---------------------------------------------------------------- the sharded store's clerk

  predicate Reroutes(rpc: Rpc) {
    TryNext(rpc) || rpc.err == ErrWrongGroup
  }

  ghost predicate AllRerouted(rpcs: seq<Rpc>) {
    forall k :: 0 <= k < |rpcs| ==> Reroutes(rpcs[k])
  }

  /** How many of the rounds name a group to ask. */
  ghost function GroupsAsked(rounds: seq<Option<Clerk>>): nat {
    if |rounds| == 0 then 0
    else GroupsAsked(rounds[..|rounds| - 1]) + if rounds[|rounds| - 1].Some? then 1 else 0
  }

  /**
   One round per configuration read; `rounds[i]` is the clerk for the group that configuration names, or
   nothing when it names no member group.  `rpcs` are the calls of all rounds, in order.  The call goes on, round after
   round, until an answer decides it: without one either the last call is still out or every round has been gone
   through, with at least one call to each group named.
   */
  method PutToShards(rounds: seq<Option<Clerk>>, rpcs: seq<Rpc>)
    returns (verdict: Option<Err>, used: nat, ghost done: nat)
    requires forall i :: 0 <= i < |rounds| && rounds[i].Some? ==> rounds[i].value.Valid()
    modifies set i | 0 <= i < |rounds| && rounds[i].Some? :: rounds[i].value
    ensures used <= |rpcs|
    ensures done <= |rounds| && used >= GroupsAsked(rounds[..done])
    ensures verdict == None ==> AllRerouted(rpcs[..used]) && (used == |rpcs| || done == |rounds|)
    ensures verdict.Some? ==>
              && used > 0 && AllRerouted(rpcs[..used - 1]) && !Reroutes(rpcs[used - 1])
              && verdict.value == (if rpcs[used - 1].err == ErrVersion && used > 1 then ErrMaybe
                  else rpcs[used - 1].err)
    ensures verdict.Some? ==> Grounded(rpcs[..used], verdict.value)
  {
    var rerouted := false;
    used, done := 0, 0;
    for i := 0 to |rounds|
      invariant used <= |rpcs| && AllRerouted(rpcs[..used]) && rerouted == (used > 0)
      invariant done == i && used >= GroupsAsked(rounds[..i])
      invariant forall i :: 0 <= i < |rounds| && rounds[i].Some? ==> rounds[i].value.Valid()
    {
      assert rounds[..i + 1][..i] == rounds[..i];
      if rounds[i].None? {
        done := i + 1;
        continue;
      }
      var err, n := rounds[i].value.PutToGroup(rpcs[used..]);
      ghost var before := used;
      used := used + n;
      if err.None? || err.value == ErrWrongLeader {
        assert n == |rpcs[before..]| ==> rpcs[before..][..n] == rpcs[before..];
        RoundLost(rpcs, before, used);
      } else {
        RoundDecided(rpcs, before, n, err.value);
      }
      if err.None? {
        return None, used, i;
      }
      done := i + 1;
      match err.value
      case ErrWrongGroup => rerouted := true;
      case ErrWrongLeader => rerouted := true;
      case ErrVersion => return Some(if rerouted then ErrMaybe else ErrVersion), used, i;
      case _ => return err, used, i;
    }
    return None, used, |rounds|;
  }

  /** The calls of a round that came to nothing. */
  lemma RoundLost(rpcs: seq<Rpc>, before: nat, used: nat)
    requires before <= used <= |rpcs| && AllRerouted(rpcs[..before]) && AllSkipped(rpcs[before..][..used - before])
    ensures AllRerouted(rpcs[..used])
  {
    forall k | 0 <= k < used ensures Reroutes(rpcs[k]) {
      if k < before {
        assert Reroutes(rpcs[..before][k]);
      } else {
        assert TryNext(rpcs[before..][..used - before][k - before]);
      }
    }
  }

  /** The calls of a round that ended with an answer. */
  lemma RoundDecided(rpcs: seq<Rpc>, before: nat, n: nat, err: Err)
    requires before + n <= |rpcs| && AllRerouted(rpcs[..before]) && LastDecides(rpcs[before..], n, err)
    ensures n > 0 && AllRerouted(rpcs[..before + n - 1]) && !TryNext(rpcs[before + n - 1])
    ensures err == if rpcs[before + n - 1].err == ErrVersion && n > 1 then ErrMaybe else rpcs[before + n - 1].err
    ensures err == ErrWrongGroup ==> AllRerouted(rpcs[..before + n])
  {
    assert rpcs[before..][n - 1] == rpcs[before + n - 1];
    assert rpcs[before..][..n - 1] == rpcs[before..][..before + n - 1 - before];
    RoundLost(rpcs, before, before + n - 1);
    if err == ErrWrongGroup {
      forall k | 0 <= k < before + n ensures Reroutes(rpcs[k]) {
        if k < before + n - 1 { assert Reroutes(rpcs[..before + n - 1][k]); }
      }
    }
  }
}
