/**
 The history a Raft cluster leaves behind, independent of messages and of log compaction.

 For every term the history keeps the log its candidates offered, the votes cast, and (once a
 candidate has won) the append-only log of that term's leader together with how far every server
 has acknowledged it.  Servers are described by their current term and their logical log, that is,
 the log as if nothing had ever been compacted; position 0 is the origin entry every log shares.

 The seven ways a history grows are the functions below; `Sound` is what all of them keep, and
 Log Matching, Election Safety, Leader Completeness and the agreement of committed prefixes
 are consequences of `Sound`.
 */
module TermLogs {
  import opened Common

  datatype Entry<C> = Entry(term: nat, cmd: Option<C>)

  type Log<C> = seq<Entry<C>>

  /** `first` is the last index the leader inherited; everything above it was appended in this term. */
  datatype Reign<C> = Reign(leader: nat, first: nat, log: Log<C>)

  datatype History<C> = History(
    n: nat,
    term: seq<nat>,
    log: seq<Log<C>>,
    cand: map<(nat, nat), Log<C>>,
    vote: map<(nat, nat), nat>,
    reign: map<nat, Reign<C>>,
    ack: map<(nat, nat), nat>)

  ghost predicate Rooted<C>(l: Log<C>) {
    |l| > 0 && l[0] == Entry(0, None)
  }

  ghost predicate Voted<C>(h: History<C>, t: nat, j: nat, c: nat) {
    (t, j) in h.vote && h.vote[(t, j)] == c
  }

  ghost function Voters<C>(h: History<C>, t: nat, c: nat): set<nat> {
    set j: nat | j < h.n && Voted(h, t, j, c)
  }

  ghost function Ack<C>(h: History<C>, t: nat, j: nat): nat {
    if (t, j) in h.ack then h.ack[(t, j)] else 0
  }

  /** Index `i` of term `t`'s log was appended by the leader of `t` itself. */
  ghost predicate Fresh<C>(h: History<C>, t: nat, i: nat) {
    t in h.reign && h.reign[t].first < i < |h.reign[t].log|
  }

  /** The log of term `t` through index `i`. */
  ghost function Through<C>(h: History<C>, t: nat, i: nat): Log<C>
    requires t in h.reign && i < |h.reign[t].log|
  {
    h.reign[t].log[..i + 1]
  }

  ghost function Acked<C>(h: History<C>, t: nat, i: nat): set<nat> {
    set j: nat | j < h.n && Ack(h, t, j) >= i
  }

  /** The servers that acknowledged index `i` of term `t`, or might still do so. */
  ghost function MayAck<C>(h: History<C>, t: nat, i: nat): set<nat>
    requires |h.term| == h.n
  {
    set j: nat | j < h.n && (Ack(h, t, j) >= i || h.term[j] <= t)
  }

  ghost predicate Choosable<C>(h: History<C>, t: nat, i: nat)
    requires |h.term| == h.n
  {
    Fresh(h, t, i) && Majority(MayAck(h, t, i), h.n)
  }

  /** The commit rule: an entry of the leader's own term acknowledged by a majority. */
  ghost predicate Chosen<C>(h: History<C>, t: nat, i: nat) {
    Fresh(h, t, i) && Majority(Acked(h, t, i), h.n)
  }

  /** `p` is part of what was committed in some term up to `t`. */
  ghost predicate CommittedBy<C>(h: History<C>, p: Log<C>, t: nat) {
    p == [Entry(0, None)] || exists u: nat, i: nat :: u <= t && Chosen(h, u, i) && p <= Through(h, u, i)
  }

  // ---------------------------------------------------------------- what every history satisfies
  //
  // Each invariant is a quantifier over one named clause; proofs mention the clause they need.

  /** The entry at `k` stems from the log of its own term, and so does everything below it. */
  ghost predicate GroundedAt<C>(h: History<C>, l: Log<C>, k: nat)
    requires k < |l|
  {
    l[k].term in h.reign && l[..k + 1] <= h.reign[l[k].term].log
  }

  ghost predicate Grounded<C>(h: History<C>, l: Log<C>) {
    Rooted(l) && forall k: nat :: 0 < k < |l| ==> GroundedAt(h, l, k)
  }

  ghost predicate TermAtMost<C>(l: Log<C>, k: nat, t: nat)
    requires k < |l|
  {
    l[k].term <= t
  }

  ghost predicate TermsUpTo<C>(l: Log<C>, t: nat) {
    forall k: nat :: k < |l| ==> TermAtMost(l, k, t)
  }

  ghost predicate Shape<C>(h: History<C>) {
    h.n > 0 && |h.term| == h.n && |h.log| == h.n
  }

  ghost predicate ServerOk<C>(h: History<C>, j: nat)
    requires Shape(h) && j < h.n
  {
    Grounded(h, h.log[j]) && TermsUpTo(h.log[j], h.term[j])
  }

  ghost predicate CandOk<C>(h: History<C>, t: nat, c: nat)
    requires Shape(h)
  {
    (t, c) in h.cand ==>
      t > 0 && c < h.n && h.term[c] >= t && Grounded(h, h.cand[(t, c)]) && TermsUpTo(h.cand[(t, c)], t - 1)
  }

  ghost predicate VoteOk<C>(h: History<C>, t: nat, j: nat)
    requires Shape(h)
  {
    (t, j) in h.vote ==> j < h.n && h.term[j] >= t && (t, h.vote[(t, j)]) in h.cand
  }

  ghost predicate EntryOk<C>(r: Reign<C>, t: nat, k: nat)
    requires k < |r.log|
  {
    r.log[k].cmd.Some? && if k <= r.first then r.log[k].term < t else r.log[k].term == t
  }

  ghost predicate ReignShape<C>(r: Reign<C>, t: nat) {
    t > 0 && Rooted(r.log) && r.first < |r.log| && forall k: nat :: 0 < k < |r.log| ==> EntryOk(r, t, k)
  }

  ghost predicate Elected<C>(h: History<C>, t: nat)
    requires Shape(h) && t in h.reign
  {
    var r := h.reign[t];
    && r.leader < h.n
    && h.term[r.leader] >= t
    && r.first < |r.log|
    && (t, r.leader) in h.cand
    && h.cand[(t, r.leader)] == r.log[..r.first + 1]
    && Majority(Voters(h, t, r.leader), h.n)
  }

  ghost predicate ReignOk<C>(h: History<C>, t: nat)
    requires Shape(h)
  {
    t in h.reign ==> ReignShape(h.reign[t], t) && Grounded(h, h.reign[t].log) && Elected(h, t)
  }

  /** A server still in term `t` holds everything it acknowledged in `t`. */
  ghost predicate AckOk<C>(h: History<C>, t: nat, j: nat)
    requires Shape(h)
  {
    (t, j) in h.ack ==>
      && j < h.n && h.term[j] >= t && t in h.reign && h.ack[(t, j)] < |h.reign[t].log|
      && (h.term[j] == t ==> Through(h, t, h.ack[(t, j)]) <= h.log[j])
  }

  /** What may still be chosen survives in the log of everyone who acknowledged it. */
  ghost predicate AckerKeeps<C>(h: History<C>, t: nat, i: nat, j: nat)
    requires Shape(h)
  {
    j < h.n && Choosable(h, t, i) && Ack(h, t, j) >= i ==> Through(h, t, i) <= h.log[j]
  }

  /** What may still be chosen was offered by every later candidate an acknowledger voted for. */
  ghost predicate VoterKeeps<C>(h: History<C>, t: nat, i: nat, u: nat, j: nat)
    requires Shape(h)
  {
    t < u && Choosable(h, t, i) && Ack(h, t, j) >= i && (u, j) in h.vote && (u, h.vote[(u, j)]) in h.cand ==>
      Through(h, t, i) <= h.cand[(u, h.vote[(u, j)])]
  }

  /** What may still be chosen is in the log of every later leader. */
  ghost predicate LeaderKeeps<C>(h: History<C>, t: nat, i: nat, u: nat)
    requires Shape(h)
  {
    t < u && u in h.reign && Choosable(h, t, i) ==> Through(h, t, i) <= h.reign[u].log
  }

  ghost predicate ServersOk<C>(h: History<C>) {
    Shape(h) && forall j: nat :: j < h.n ==> ServerOk(h, j)
  }
  ghost predicate Cands<C>(h: History<C>) {
    Shape(h) && forall t: nat, c: nat :: CandOk(h, t, c)
  }
  ghost predicate Votes<C>(h: History<C>) {
    Shape(h) && forall t: nat, j: nat :: VoteOk(h, t, j)
  }
  ghost predicate Reigns<C>(h: History<C>) {
    Shape(h) && forall t: nat :: ReignOk(h, t)
  }
  ghost predicate Acks<C>(h: History<C>) {
    Shape(h) && forall t: nat, j: nat :: AckOk(h, t, j)
  }
  ghost predicate AckersKeep<C>(h: History<C>) {
    Shape(h) && forall t: nat, i: nat, j: nat :: AckerKeeps(h, t, i, j)
  }
  ghost predicate VotersKeep<C>(h: History<C>) {
    Shape(h) && forall t: nat, i: nat, u: nat, j: nat :: VoterKeeps(h, t, i, u, j)
  }
  ghost predicate LeadersKeep<C>(h: History<C>) {
    Shape(h) && forall t: nat, i: nat, u: nat :: LeaderKeeps(h, t, i, u)
  }

  ghost predicate Sound<C>(h: History<C>) {
    && ServersOk(h) && Cands(h) && Votes(h) && Reigns(h) && Acks(h)
    && AckersKeep(h) && VotersKeep(h) && LeadersKeep(h)
  }

  // ---------------------------------------------------------------- consequences

  lemma Comparable<C>(a: Log<C>, b: Log<C>, c: Log<C>)
    requires a <= c && b <= c && |a| <= |b|
    ensures a <= b
  {
  }

  lemma PrefixTrans<C>(a: Log<C>, b: Log<C>, c: Log<C>)
    requires a <= b <= c
    ensures a <= c
  {
  }

  /** Log Matching: the same term at the same index means the same log up to there. */
  lemma LogMatching<C>(h: History<C>, a: Log<C>, b: Log<C>, k: nat)
    requires Grounded(h, a) && Grounded(h, b)
    requires k < |a| && k < |b| && a[k].term == b[k].term
    ensures a[..k + 1] == b[..k + 1]
  {
    if k == 0 {
      assert a[..1] == [a[0]] && b[..1] == [b[0]];
    } else {
      assert GroundedAt(h, a, k) && GroundedAt(h, b, k);
      Comparable(a[..k + 1], b[..k + 1], h.reign[a[k].term].log);
    }
  }

  /** Terms never decrease along a log. */
  lemma TermsSorted<C>(h: History<C>, l: Log<C>, i: nat, k: nat)
    requires Reigns(h) && Grounded(h, l) && i <= k < |l|
    ensures l[i].term <= l[k].term
  {
    if 0 < i < k {
      assert GroundedAt(h, l, k);
      assert l[..k + 1][i] == l[i];
      assert ReignOk(h, l[k].term);
      assert EntryOk(h.reign[l[k].term], l[k].term, i);
    }
  }

  /** Election Safety: two candidates with a majority of one term's votes are the same server. */
  lemma ElectionSafety<C>(h: History<C>, t: nat, c: nat, d: nat)
    requires Majority(Voters(h, t, c), h.n) && Majority(Voters(h, t, d), h.n)
    ensures c == d
  {
    var j := MajoritiesMeet(Voters(h, t, c), Voters(h, t, d), h.n);
  }

  lemma ChosenChoosable<C>(h: History<C>, t: nat, i: nat)
    requires Shape(h) && Chosen(h, t, i)
    ensures Choosable(h, t, i)
  {
    MajorityGrows(Acked(h, t, i), MayAck(h, t, i), h.n);
  }

  /** Leader Completeness: what was committed by term `t` is in the log of the leader of every term from `t` on. */
  lemma LeaderCompleteness<C>(h: History<C>, p: Log<C>, t: nat, u: nat)
    requires Reigns(h) && LeadersKeep(h) && CommittedBy(h, p, t) && t <= u && u in h.reign
    ensures p <= h.reign[u].log
  {
    assert ReignOk(h, u);
    if p != [Entry(0, None)] {
      var v: nat, i: nat :| v <= t && Chosen(h, v, i) && p <= Through(h, v, i);
      ChosenChoosable(h, v, i);
      assert LeaderKeeps(h, v, i, u);
      PrefixTrans(p, Through(h, v, i), h.reign[u].log);
    }
  }

  lemma CommittedRooted<C>(h: History<C>, p: Log<C>, t: nat)
    requires Reigns(h) && CommittedBy(h, p, t)
    ensures |p| > 0 ==> Rooted(p)
    ensures |p| > 1 ==> exists u: nat, i: nat :: u <= t && Chosen(h, u, i) && p <= Through(h, u, i)
  {
    if p != [Entry(0, None)] {
      var v: nat, i: nat :| v <= t && Chosen(h, v, i) && p <= Through(h, v, i);
      assert ReignOk(h, v);
    }
  }

  /** Any two committed prefixes agree as far as both go. */
  lemma CommittedAgree<C>(h: History<C>, p: Log<C>, t: nat, q: Log<C>, u: nat)
    requires Reigns(h) && LeadersKeep(h) && CommittedBy(h, p, t) && CommittedBy(h, q, u) && |p| <= |q|
    ensures p <= q
  {
    CommittedRooted(h, p, t);
    CommittedRooted(h, q, u);
    if |p| > 1 {
      var v: nat, i: nat :| v <= t && Chosen(h, v, i) && p <= Through(h, v, i);
      var w: nat, k: nat :| w <= u && Chosen(h, w, k) && q <= Through(h, w, k);
      var x := if v < w then w else v;
      LeaderCompleteness(h, p, v, x);
      LeaderCompleteness(h, q, w, x);
      Comparable(p, q, h.reign[x].log);
    }
  }

  lemma CommittedPrefix<C>(h: History<C>, p: Log<C>, q: Log<C>, t: nat, u: nat)
    requires CommittedBy(h, q, t) && p <= q && |p| > 0 && t <= u
    ensures CommittedBy(h, p, u)
  {
    if q != [Entry(0, None)] {
      var v: nat, i: nat :| v <= t && Chosen(h, v, i) && q <= Through(h, v, i);
      PrefixTrans(p, q, Through(h, v, i));
    } else {
      assert p == q;
    }
  }

  // ---------------------------------------------------------------- growth

  ghost predicate ReignGrows<C>(h: History<C>, k: History<C>, t: nat) {
    t in h.reign ==>
      && t in k.reign && k.reign[t].leader == h.reign[t].leader
      && k.reign[t].first == h.reign[t].first && h.reign[t].log <= k.reign[t].log
  }

  ghost predicate VoteStays<C>(h: History<C>, k: History<C>, t: nat, j: nat) {
    (t, j) in h.vote ==> (t, j) in k.vote && k.vote[(t, j)] == h.vote[(t, j)]
  }

  ghost predicate CandStays<C>(h: History<C>, k: History<C>, t: nat, c: nat) {
    (t, c) in h.cand ==> (t, c) in k.cand && k.cand[(t, c)] == h.cand[(t, c)]
  }

  ghost predicate AckGrows<C>(h: History<C>, k: History<C>, t: nat, j: nat) {
    (t, j) in h.ack ==> (t, j) in k.ack && h.ack[(t, j)] <= k.ack[(t, j)]
  }

  /** No leader appended anything: reigns stay as they are, and new ones start with what they inherit. */
  ghost predicate NothingAdded<C>(h: History<C>, k: History<C>) {
    forall t: nat :: t in k.reign ==>
        if t in h.reign then k.reign[t] == h.reign[t] else k.reign[t].first + 1 == |k.reign[t].log|
  }

  /** `k` continues `h`: nothing recorded is ever taken back. */
  ghost predicate Continues<C>(h: History<C>, k: History<C>) {
    && Shape(h) && Shape(k) && h.n == k.n
    && (forall j: nat :: j < h.n ==> h.term[j] <= k.term[j])
    && (forall t: nat :: ReignGrows(h, k, t))
    && (forall t: nat, c: nat :: CandStays(h, k, t, c))
    && (forall t: nat, j: nat :: VoteStays(h, k, t, j))
    && (forall t: nat, j: nat :: AckGrows(h, k, t, j))
  }

  lemma ContinuesTrans<C>(a: History<C>, b: History<C>, c: History<C>)
    requires Continues(a, b) && Continues(b, c)
    ensures Continues(a, c)
  {
    forall t: nat ensures ReignGrows(a, c, t) {
      assert ReignGrows(a, b, t) && ReignGrows(b, c, t);
    }
    forall t: nat, j: nat ensures CandStays(a, c, t, j) {
      assert CandStays(a, b, t, j) && CandStays(b, c, t, j);
    }
    forall t: nat, j: nat ensures VoteStays(a, c, t, j) {
      assert VoteStays(a, b, t, j) && VoteStays(b, c, t, j);
    }
    forall t: nat, j: nat ensures AckGrows(a, c, t, j) {
      assert AckGrows(a, b, t, j) && AckGrows(b, c, t, j);
    }
  }

  lemma ChosenStays<C>(h: History<C>, k: History<C>, t: nat, i: nat)
    requires Continues(h, k) && Chosen(h, t, i)
    ensures Chosen(k, t, i) && Through(k, t, i) == Through(h, t, i)
  {
    assert ReignGrows(h, k, t);
    forall j | j in Acked(h, t, i) ensures j in Acked(k, t, i) {
      assert AckGrows(h, k, t, j);
    }
    MajorityGrows(Acked(h, t, i), Acked(k, t, i), h.n);
  }

  lemma CommittedStays<C>(h: History<C>, k: History<C>, p: Log<C>, t: nat, u: nat)
    requires Continues(h, k) && CommittedBy(h, p, t) && t <= u
    ensures CommittedBy(k, p, u)
  {
    if p != [Entry(0, None)] {
      var v: nat, i: nat :| v <= t && Chosen(h, v, i) && p <= Through(h, v, i);
      ChosenStays(h, k, v, i);
    }
  }

  lemma GroundedStays<C>(h: History<C>, k: History<C>, l: Log<C>)
    requires Continues(h, k) && Grounded(h, l)
    ensures Grounded(k, l)
  {
    forall i: nat | 0 < i < |l| ensures GroundedAt(k, l, i) {
      assert GroundedAt(h, l, i) && ReignGrows(h, k, l[i].term);
      PrefixTrans(l[..i + 1], h.reign[l[i].term].log, k.reign[l[i].term].log);
    }
  }
}
