/** The seven ways a Raft history grows, and the proof that each keeps `TermLogs.Sound`. */
module HistorySteps {
  import opened Common
  import opened TermLogs

  // ---------------------------------------------------------------- the steps

  ghost function Initial<C>(n: nat): History<C> {
    History(n, seq(n, _ => 0), seq(n, _ => [Entry(0, None)]), map[], map[], map[], map[])
  }

  /** A server learns of a later term. */
  ghost function SeeTerm<C>(h: History<C>, j: nat, t: nat): History<C>
    requires Shape(h) && j < h.n && h.term[j] <= t
  {
    h.(term := h.term[j := t])
  }

  /** A server starts an election: next term, own vote, own log on offer. */
  ghost function Stand<C>(h: History<C>, j: nat): History<C>
    requires Shape(h) && j < h.n
  {
    var t := h.term[j] + 1;
    h.(term := h.term[j := t], cand := h.cand[(t, j) := h.log[j]], vote := h.vote[(t, j) := j])
  }

  /** The vote's log comparison: later last term, or same last term and at least as long. */
  ghost predicate UpToDate<C>(mine: Log<C>, theirs: Log<C>)
    requires |mine| > 0 && |theirs| > 0
  {
    if theirs[|theirs| - 1].term != mine[|mine| - 1].term
    then theirs[|theirs| - 1].term > mine[|mine| - 1].term
    else |theirs| >= |mine|
  }

  ghost predicate MayVote<C>(h: History<C>, j: nat, c: nat) {
    && Shape(h) && j < h.n
    && var t := h.term[j];
      && (t, c) in h.cand && |h.cand[(t, c)]| > 0 && |h.log[j]| > 0
      && ((t, j) in h.vote ==> h.vote[(t, j)] == c)
      && UpToDate(h.log[j], h.cand[(t, c)])
  }

  ghost function CastVote<C>(h: History<C>, j: nat, c: nat): History<C>
    requires MayVote(h, j, c)
  {
    h.(vote := h.vote[(h.term[j], j) := c])
  }

  ghost predicate MayWin<C>(h: History<C>, j: nat) {
    && Shape(h) && j < h.n && |h.log[j]| > 0
    && var t := h.term[j];
      && t !in h.reign && (t, j) in h.cand && h.cand[(t, j)] == h.log[j]
      && Majority(Voters(h, t, j), h.n)
  }

  /** A candidate with a majority becomes leader; its log becomes its term's log. */
  ghost function Win<C>(h: History<C>, j: nat): History<C>
    requires MayWin(h, j)
  {
    var t := h.term[j];
    var last := |h.log[j]| - 1;
    h.(reign := h.reign[t := Reign(j, last, h.log[j])], ack := h.ack[(t, j) := last])
  }

  ghost predicate Leads<C>(h: History<C>, j: nat) {
    && Shape(h) && j < h.n && h.term[j] in h.reign
    && h.reign[h.term[j]].leader == j && h.reign[h.term[j]].log == h.log[j] && |h.log[j]| > 0
  }

  /** The leader appends a command of its own term. */
  ghost function Extend<C>(h: History<C>, j: nat, c: C): History<C>
    requires Leads(h, j)
  {
    var t := h.term[j];
    var l := h.log[j] + [Entry(t, Some(c))];
    h.(log := h.log[j := l], reign := h.reign[t := h.reign[t].(log := l)], ack := h.ack[(t, j) := |l| - 1])
  }

  /** A log after taking over the prefix `p`: kept when it already contains `p`, replaced otherwise. */
  ghost function Merge<C>(mine: Log<C>, p: Log<C>): Log<C> {
    if p <= mine then mine else p
  }

  ghost predicate MayAdopt<C>(h: History<C>, j: nat, i: nat) {
    && Shape(h) && j < h.n && h.term[j] in h.reign && i < |h.reign[h.term[j]].log|
  }

  /** A server takes over its leader's log through index `i` and acknowledges it. */
  ghost function Adopt<C>(h: History<C>, j: nat, i: nat): History<C>
    requires MayAdopt(h, j, i)
  {
    var t := h.term[j];
    var a := Ack(h, t, j);
    h.(log := h.log[j := Merge(h.log[j], Through(h, t, i))], ack := h.ack[(t, j) := if a < i then i else a])
  }

  // ---------------------------------------------------------------- carrying clauses over

  /** The basic clauses that do not concern what may still be chosen. */
  ghost predicate Basic<C>(h: History<C>) {
    ServersOk(h) && Cands(h) && Votes(h) && Reigns(h) && Acks(h)
  }

  lemma ReignKept<C>(h: History<C>, k: History<C>, t: nat)
    requires Continues(h, k) && t in h.reign && t in k.reign && ReignOk(h, t) && k.reign[t].log == h.reign[t].log
    ensures ReignOk(k, t)
  {
    assert ReignGrows(h, k, t);
    assert k.reign[t] == h.reign[t];
    GroundedStays(h, k, h.reign[t].log);
    ElectedStays(h, k, t);
  }

  /** Elections stay valid: votes and offers are only added, terms only grow. */
  lemma ElectedStays<C>(h: History<C>, k: History<C>, t: nat)
    requires Continues(h, k) && t in h.reign && t in k.reign && Elected(h, t)
    ensures Elected(k, t)
  {
    var c := h.reign[t].leader;
    assert ReignGrows(h, k, t) && CandStays(h, k, t, c);
    forall j | j in Voters(h, t, c) ensures j in Voters(k, t, c) {
      assert VoteStays(h, k, t, j);
    }
    MajorityGrows(Voters(h, t, c), Voters(k, t, c), h.n);
    assert k.reign[t].log[..h.reign[t].first + 1] == h.reign[t].log[..h.reign[t].first + 1];
  }

  lemma CandKept<C>(h: History<C>, k: History<C>, t: nat, c: nat)
    requires Continues(h, k) && (t, c) in h.cand && CandOk(h, t, c)
    ensures CandOk(k, t, c)
  {
    assert CandStays(h, k, t, c);
    GroundedStays(h, k, h.cand[(t, c)]);
  }

  lemma VoteKept<C>(h: History<C>, k: History<C>, t: nat, j: nat)
    requires Continues(h, k) && (t, j) in h.vote && VoteOk(h, t, j)
    ensures VoteOk(k, t, j)
  {
    assert VoteStays(h, k, t, j) && CandStays(h, k, t, h.vote[(t, j)]);
  }

  lemma ServerKept<C>(h: History<C>, k: History<C>, j: nat)
    requires Continues(h, k) && j < h.n && ServerOk(h, j) && k.log[j] == h.log[j]
    ensures ServerOk(k, j)
  {
    GroundedStays(h, k, h.log[j]);
    forall i: nat | i < |k.log[j]| ensures TermAtMost(k.log[j], i, k.term[j]) {
      assert TermAtMost(h.log[j], i, h.term[j]);
    }
  }

  lemma AckKept<C>(h: History<C>, k: History<C>, t: nat, j: nat)
    requires Continues(h, k) && (t, j) in h.ack && AckOk(h, t, j) && (t, j) in k.ack && k.ack[(t, j)] == h.ack[(t, j)]
    requires h.log[j] <= k.log[j] || h.term[j] != t || k.term[j] != t
    ensures AckOk(k, t, j)
  {
    assert ReignGrows(h, k, t);
    if k.term[j] == t {
      var a := h.ack[(t, j)];
      assert Through(k, t, a) == Through(h, t, a);
      PrefixTrans(Through(k, t, a), h.log[j], k.log[j]);
    }
  }

  ghost predicate MayStillAck<C>(h: History<C>, t: nat, i: nat, j: nat)
    requires Shape(h) && j < h.n
  {
    Ack(h, t, j) >= i || h.term[j] <= t
  }

  /** Nothing becomes choosable unless someone gained the possibility to acknowledge it. */
  lemma StillChoosable<C>(h: History<C>, k: History<C>, t: nat, i: nat)
    requires Continues(h, k) && Choosable(k, t, i) && Fresh(h, t, i)
    requires forall j: nat :: j < h.n && MayStillAck(k, t, i, j) ==> MayStillAck(h, t, i, j)
    ensures Choosable(h, t, i) && Through(k, t, i) == Through(h, t, i)
  {
    assert ReignGrows(h, k, t);
    forall j | j in MayAck(k, t, i) ensures j in MayAck(h, t, i) {
      assert MayStillAck(k, t, i, j);
      assert MayStillAck(h, t, i, j);
    }
    MajorityGrows(MayAck(k, t, i), MayAck(h, t, i), h.n);
  }

  // ---------------------------------------------------------------- the initial history

  lemma InitialSound<C>(n: nat)
    requires n > 0
    ensures Sound(Initial<C>(n))
  {
  }

  // ---------------------------------------------------------------- seeing a term

  lemma SeeTermBasic<C>(h: History<C>, j: nat, t: nat)
    requires Basic(h) && j < h.n && h.term[j] <= t
    ensures Continues(h, SeeTerm(h, j, t)) && Basic(SeeTerm(h, j, t))
  {
    var k := SeeTerm(h, j, t);
    assert Continues(h, k);
    forall s: nat | s < k.n ensures ServerOk(k, s) { assert ServerOk(h, s); ServerKept(h, k, s); }
    forall u: nat ensures ReignOk(k, u) { assert ReignOk(h, u); if u in h.reign { ReignKept(h, k, u); } }
    forall u: nat, c: nat ensures CandOk(k, u, c) {
      assert CandOk(h, u, c);
      if (u, c) in h.cand {
        CandKept(h, k, u, c);
      }
    }
    forall u: nat, s: nat ensures VoteOk(k, u, s) {
      assert VoteOk(h, u, s);
      if (u, s) in h.vote {
        VoteKept(h, k, u, s);
      }
    }
    forall u: nat, s: nat ensures AckOk(k, u, s) { assert AckOk(h, u, s); if (u, s) in h.ack { AckKept(h, k, u, s); } }
  }

  lemma SeeTermShrinks<C>(h: History<C>, j: nat, t: nat, u: nat, i: nat)
    requires Shape(h) && j < h.n && h.term[j] <= t && Continues(h, SeeTerm(h, j, t))
        && Choosable(SeeTerm(h, j, t), u, i)
    ensures Choosable(h, u, i) && Through(SeeTerm(h, j, t), u, i) == Through(h, u, i)
  {
    var k := SeeTerm(h, j, t);
    assert Fresh(h, u, i);
    forall s: nat | s < h.n && MayStillAck(k, u, i, s) ensures MayStillAck(h, u, i, s) {
      assert Ack(k, u, s) == Ack(h, u, s);
    }
    StillChoosable(h, k, u, i);
  }

  lemma SeeTermSound<C>(h: History<C>, j: nat, t: nat)
    requires Sound(h) && j < h.n && h.term[j] <= t
    ensures Sound(SeeTerm(h, j, t)) && Continues(h, SeeTerm(h, j, t))
  {
    var k := SeeTerm(h, j, t);
    SeeTermBasic(h, j, t);
    forall u: nat, i: nat, s: nat ensures AckerKeeps(k, u, i, s) {
      if Choosable(k, u, i) {
        SeeTermShrinks(h, j, t, u, i);
        assert AckerKeeps(h, u, i, s);
        assert Ack(k, u, s) == Ack(h, u, s);
      }
    }
    forall u: nat, i: nat, v: nat, s: nat ensures VoterKeeps(k, u, i, v, s) {
      if Choosable(k, u, i) {
        SeeTermShrinks(h, j, t, u, i);
        assert VoterKeeps(h, u, i, v, s);
        assert Ack(k, u, s) == Ack(h, u, s);
      }
    }
    forall u: nat, i: nat, v: nat ensures LeaderKeeps(k, u, i, v) {
      if Choosable(k, u, i) { SeeTermShrinks(h, j, t, u, i); assert LeaderKeeps(h, u, i, v); }
    }
  }

  // ---------------------------------------------------------------- standing for election

  lemma StandBasic<C>(h: History<C>, j: nat)
    requires Basic(h) && j < h.n
    ensures Continues(h, Stand(h, j)) && Basic(Stand(h, j))
    ensures (h.term[j] + 1, j) !in h.vote
  {
    var k := Stand(h, j);
    var t := h.term[j] + 1;
    assert VoteOk(h, t, j) && CandOk(h, t, j);
    assert Continues(h, k);
    forall s: nat | s < k.n ensures ServerOk(k, s) { assert ServerOk(h, s); ServerKept(h, k, s); }
    forall u: nat ensures ReignOk(k, u) { assert ReignOk(h, u); if u in h.reign { ReignKept(h, k, u); } }
    forall u: nat, c: nat ensures CandOk(k, u, c) {
      assert CandOk(h, u, c);
      if (u, c) in h.cand { CandKept(h, k, u, c); }
      if (u, c) == (t, j) { assert ServerOk(h, j); GroundedStays(h, k, h.log[j]); }
    }
    forall u: nat, s: nat ensures VoteOk(k, u, s) {
      assert VoteOk(h, u, s);
      if (u, s) in h.vote {
        VoteKept(h, k, u, s);
      }
    }
    forall u: nat, s: nat ensures AckOk(k, u, s) { assert AckOk(h, u, s); if (u, s) in h.ack { AckKept(h, k, u, s); } }
  }

  lemma StandShrinks<C>(h: History<C>, j: nat, u: nat, i: nat)
    requires Shape(h) && j < h.n && Continues(h, Stand(h, j)) && Choosable(Stand(h, j), u, i)
    ensures Choosable(h, u, i) && Through(Stand(h, j), u, i) == Through(h, u, i)
  {
    var k := Stand(h, j);
    assert Fresh(h, u, i);
    forall s: nat | s < h.n && MayStillAck(k, u, i, s) ensures MayStillAck(h, u, i, s) {
      assert Ack(k, u, s) == Ack(h, u, s);
    }
    StillChoosable(h, k, u, i);
  }

  lemma StandSound<C>(h: History<C>, j: nat)
    requires Sound(h) && j < h.n
    ensures Sound(Stand(h, j)) && Continues(h, Stand(h, j))
  {
    var k := Stand(h, j);
    var t := h.term[j] + 1;
    StandBasic(h, j);
    forall u: nat, i: nat, s: nat ensures AckerKeeps(k, u, i, s) {
      if Choosable(k, u, i) {
        StandShrinks(h, j, u, i);
        assert AckerKeeps(h, u, i, s);
        assert Ack(k, u, s) == Ack(h, u, s);
      }
    }
    forall u: nat, i: nat, v: nat, s: nat ensures VoterKeeps(k, u, i, v, s) {
      if Choosable(k, u, i) {
        StandShrinks(h, j, u, i);
        assert Ack(k, u, s) == Ack(h, u, s);
        if (v, s) == (t, j) { assert AckerKeeps(h, u, i, j); } else { StandVoterKeeps(h, j, u, i, v, s); }
      }
    }
    forall u: nat, i: nat, v: nat ensures LeaderKeeps(k, u, i, v) {
      if Choosable(k, u, i) { StandShrinks(h, j, u, i); assert LeaderKeeps(h, u, i, v); }
    }
  }

  lemma StandVoterKeeps<C>(h: History<C>, j: nat, u: nat, i: nat, v: nat, s: nat)
    requires VotersKeep(h) && Votes(h) && j < h.n && (v, s) != (h.term[j] + 1, j) && Continues(h, Stand(h, j))
    requires Choosable(h, u, i) && Fresh(Stand(h, j), u, i) && Through(Stand(h, j), u, i) == Through(h, u, i)
    ensures VoterKeeps(Stand(h, j), u, i, v, s)
  {
    assert Ack(Stand(h, j), u, s) == Ack(h, u, s);
    assert VoterKeeps(h, u, i, v, s) && VoteOk(h, v, s);
    if (v, s) in h.vote { assert CandStays(h, Stand(h, j), v, h.vote[(v, s)]); }
  }

  // ---------------------------------------------------------------- voting

  lemma CastVoteBasic<C>(h: History<C>, j: nat, c: nat)
    requires Basic(h) && MayVote(h, j, c)
    ensures Continues(h, CastVote(h, j, c)) && Basic(CastVote(h, j, c))
  {
    var k := CastVote(h, j, c);
    assert Continues(h, k);
    forall s: nat | s < k.n ensures ServerOk(k, s) { assert ServerOk(h, s); ServerKept(h, k, s); }
    forall u: nat ensures ReignOk(k, u) { assert ReignOk(h, u); if u in h.reign { ReignKept(h, k, u); } }
    forall u: nat, d: nat ensures CandOk(k, u, d) {
      assert CandOk(h, u, d);
      if (u, d) in h.cand {
        CandKept(h, k, u, d);
      }
    }
    forall u: nat, s: nat ensures VoteOk(k, u, s) {
      assert VoteOk(h, u, s);
      if (u, s) in h.vote {
        VoteKept(h, k, u, s);
      }
    }
    forall u: nat, s: nat ensures AckOk(k, u, s) { assert AckOk(h, u, s); if (u, s) in h.ack { AckKept(h, k, u, s); } }
  }

  lemma CastVoteShrinks<C>(h: History<C>, j: nat, c: nat, u: nat, i: nat)
    requires MayVote(h, j, c) && Continues(h, CastVote(h, j, c)) && Choosable(CastVote(h, j, c), u, i)
    ensures Choosable(h, u, i) && Through(CastVote(h, j, c), u, i) == Through(h, u, i)
  {
    var k := CastVote(h, j, c);
    assert Fresh(h, u, i);
    forall s: nat | s < h.n && MayStillAck(k, u, i, s) ensures MayStillAck(h, u, i, s) {
      assert Ack(k, u, s) == Ack(h, u, s);
    }
    StillChoosable(h, k, u, i);
  }

  /** The log comparison passes on whatever may still be chosen from the voter's log to the candidate's. */
  lemma ComparisonKeeps<C>(h: History<C>, mine: Log<C>, theirs: Log<C>, t: nat, i: nat)
    requires Reigns(h) && LeadersKeep(h) && Grounded(h, mine) && Grounded(h, theirs) && UpToDate(mine, theirs)
    requires Choosable(h, t, i) && Through(h, t, i) <= mine
    ensures Through(h, t, i) <= theirs
  {
    var q := Through(h, t, i);
    assert ReignOk(h, t) && EntryOk(h.reign[t], t, i);
    assert mine[i] == q[i];
    var m, w := |mine| - 1, |theirs| - 1;
    TermsSorted(h, mine, i, m);
    assert GroundedAt(h, mine, m) && GroundedAt(h, theirs, w);
    assert mine[..m + 1] == mine && theirs[..w + 1] == theirs;
    var v := theirs[w].term;
    if v == mine[m].term {
      Comparable(mine, theirs, h.reign[v].log);
      PrefixTrans(q, mine, theirs);
    } else {
      assert LeaderKeeps(h, t, i, v) && ReignOk(h, v);
      assert h.reign[v].log[w] == theirs[w] && EntryOk(h.reign[v], v, w);
      assert h.reign[v].log[i] == q[i] && EntryOk(h.reign[v], v, i);
      assert i <= w;
      Comparable(q, theirs, h.reign[v].log);
    }
  }

  lemma CastVoteSound<C>(h: History<C>, j: nat, c: nat)
    requires Sound(h) && MayVote(h, j, c)
    ensures Sound(CastVote(h, j, c)) && Continues(h, CastVote(h, j, c))
  {
    var k := CastVote(h, j, c);
    CastVoteBasic(h, j, c);
    forall u: nat, i: nat, s: nat ensures AckerKeeps(k, u, i, s) {
      if Choosable(k, u, i) {
        CastVoteShrinks(h, j, c, u, i);
        assert AckerKeeps(h, u, i, s);
        assert Ack(k, u, s) == Ack(h, u, s);
      }
    }
    forall u: nat, i: nat, v: nat, s: nat ensures VoterKeeps(k, u, i, v, s) {
      if Choosable(k, u, i) {
        CastVoteShrinks(h, j, c, u, i);
        CastVoteVoterKeeps(h, j, c, u, i, v, s);
      }
    }
    forall u: nat, i: nat, v: nat ensures LeaderKeeps(k, u, i, v) {
      if Choosable(k, u, i) { CastVoteShrinks(h, j, c, u, i); assert LeaderKeeps(h, u, i, v); }
    }
  }

  lemma CastVoteVoterKeeps<C>(h: History<C>, j: nat, c: nat, u: nat, i: nat, v: nat, s: nat)
    requires ServersOk(h) && Cands(h) && Reigns(h) && AckersKeep(h) && VotersKeep(h) && LeadersKeep(h)
        && MayVote(h, j, c)
    requires Choosable(h, u, i) && Fresh(CastVote(h, j, c), u, i)
        && Through(CastVote(h, j, c), u, i) == Through(h, u, i)
    ensures VoterKeeps(CastVote(h, j, c), u, i, v, s)
  {
    assert Ack(CastVote(h, j, c), u, s) == Ack(h, u, s);
    if (v, s) != (h.term[j], j) {
      assert VoterKeeps(h, u, i, v, s);
    } else if Ack(h, u, s) >= i {
      assert AckerKeeps(h, u, i, j) && ServerOk(h, j) && CandOk(h, v, c);
      ComparisonKeeps(h, h.log[j], h.cand[(v, c)], u, i);
    }
  }

  // ---------------------------------------------------------------- winning

  lemma CommandsPresent<C>(h: History<C>, l: Log<C>, k: nat)
    requires Reigns(h) && Grounded(h, l) && 0 < k < |l|
    ensures l[k].cmd.Some? && l[k].term > 0
  {
    assert GroundedAt(h, l, k) && ReignOk(h, l[k].term);
    assert l[..k + 1][k] == l[k];
    assert EntryOk(h.reign[l[k].term], l[k].term, k);
  }

  lemma WinReign<C>(h: History<C>, j: nat)
    requires Basic(h) && MayWin(h, j) && Continues(h, Win(h, j))
    ensures ReignOk(Win(h, j), h.term[j])
  {
    var k := Win(h, j);
    var t := h.term[j];
    assert CandOk(h, t, j) && ServerOk(h, j);
    GroundedStays(h, k, h.log[j]);
    var r := k.reign[t];
    forall i: nat | 0 < i < |r.log| ensures EntryOk(r, t, i) {
      CommandsPresent(h, h.log[j], i);
      assert TermAtMost(h.cand[(t, j)], i, t - 1);
    }
    assert r.log[..r.first + 1] == r.log;
    assert forall s: nat :: Voted(k, t, s, j) == Voted(h, t, s, j);
    assert Voters(k, t, j) == Voters(h, t, j);
  }

  lemma WinBasic<C>(h: History<C>, j: nat)
    requires Basic(h) && MayWin(h, j)
    ensures Continues(h, Win(h, j)) && Basic(Win(h, j))
    ensures (h.term[j], j) !in h.ack
  {
    var k := Win(h, j);
    var t := h.term[j];
    assert AckOk(h, t, j);
    assert Continues(h, k);
    forall s: nat | s < k.n ensures ServerOk(k, s) { assert ServerOk(h, s); ServerKept(h, k, s); }
    forall u: nat ensures ReignOk(k, u) {
      assert ReignOk(h, u);
      if u in h.reign { ReignKept(h, k, u); }
      if u == t { WinReign(h, j); }
    }
    forall u: nat, d: nat ensures CandOk(k, u, d) {
      assert CandOk(h, u, d);
      if (u, d) in h.cand {
        CandKept(h, k, u, d);
      }
    }
    forall u: nat, s: nat ensures VoteOk(k, u, s) {
      assert VoteOk(h, u, s);
      if (u, s) in h.vote {
        VoteKept(h, k, u, s);
      }
    }
    forall u: nat, s: nat ensures AckOk(k, u, s) {
      assert AckOk(h, u, s);
      if (u, s) in h.ack { AckKept(h, k, u, s); }
      if (u, s) == (t, j) { assert Through(k, t, |h.log[j]| - 1) == h.log[j]; }
    }
  }

  lemma WinShrinks<C>(h: History<C>, j: nat, u: nat, i: nat)
    requires Acks(h) && MayWin(h, j) && Continues(h, Win(h, j)) && Choosable(Win(h, j), u, i)
    ensures Choosable(h, u, i) && Through(Win(h, j), u, i) == Through(h, u, i) && u != h.term[j]
    ensures forall s: nat :: Ack(Win(h, j), u, s) == Ack(h, u, s)
  {
    var k := Win(h, j);
    assert u != h.term[j];
    assert Fresh(h, u, i);
    forall s: nat | s < h.n && MayStillAck(k, u, i, s) ensures MayStillAck(h, u, i, s) {
      assert Ack(k, u, s) == Ack(h, u, s);
    }
    StillChoosable(h, k, u, i);
  }

  /** A new leader already holds whatever may still be chosen in an earlier term. */
  lemma WinnerKeeps<C>(h: History<C>, j: nat, u: nat, i: nat)
    requires Votes(h) && VotersKeep(h) && MayWin(h, j) && Choosable(h, u, i) && u < h.term[j]
    ensures Through(h, u, i) <= h.log[j]
  {
    var t := h.term[j];
    var s := MajoritiesMeet(Voters(h, t, j), MayAck(h, u, i), h.n);
    assert VoteOk(h, t, s) && VoterKeeps(h, u, i, t, s);
  }

  lemma WinSound<C>(h: History<C>, j: nat)
    requires Sound(h) && MayWin(h, j)
    ensures Sound(Win(h, j)) && Continues(h, Win(h, j))
  {
    var k := Win(h, j);
    WinBasic(h, j);
    forall u: nat, i: nat, s: nat ensures AckerKeeps(k, u, i, s) {
      if Choosable(k, u, i) { WinShrinks(h, j, u, i); assert AckerKeeps(h, u, i, s); }
    }
    forall u: nat, i: nat, v: nat, s: nat ensures VoterKeeps(k, u, i, v, s) {
      if Choosable(k, u, i) { WinShrinks(h, j, u, i); assert VoterKeeps(h, u, i, v, s); }
    }
    forall u: nat, i: nat, v: nat ensures LeaderKeeps(k, u, i, v) {
      if Choosable(k, u, i) && u < v {
        WinShrinks(h, j, u, i);
        assert LeaderKeeps(h, u, i, v);
        if v == h.term[j] { WinnerKeeps(h, j, u, i); }
      }
    }
  }

  // ---------------------------------------------------------------- appending

  lemma ExtendContinues<C>(h: History<C>, j: nat, c: C)
    requires Acks(h) && Leads(h, j)
    ensures Continues(h, Extend(h, j, c))
  {
    var k := Extend(h, j, c);
    var t := h.term[j];
    assert h.log[j] <= k.log[j];
    forall u: nat ensures ReignGrows(h, k, u) {}
    forall u: nat, s: nat ensures AckGrows(h, k, u, s) { assert AckOk(h, u, s); }
  }

  lemma ExtendGrounded<C>(h: History<C>, j: nat, c: C)
    requires ServersOk(h) && Leads(h, j) && Continues(h, Extend(h, j, c))
    ensures Grounded(Extend(h, j, c), Extend(h, j, c).log[j])
  {
    var k := Extend(h, j, c);
    var t := h.term[j];
    var l := k.log[j];
    assert ServerOk(h, j);
    GroundedStays(h, k, h.log[j]);
    forall i: nat | 0 < i < |l| ensures GroundedAt(k, l, i) {
      if i < |h.log[j]| {
        assert GroundedAt(k, h.log[j], i);
        assert l[..i + 1] == h.log[j][..i + 1];
      } else {
        assert l[..i + 1] == l;
      }
    }
  }

  lemma ExtendReign<C>(h: History<C>, j: nat, c: C)
    requires ServersOk(h) && Reigns(h) && Leads(h, j) && Continues(h, Extend(h, j, c))
    ensures ReignOk(Extend(h, j, c), h.term[j])
  {
    var k := Extend(h, j, c);
    var t := h.term[j];
    assert ReignOk(h, t);
    ExtendGrounded(h, j, c);
    ElectedStays(h, k, t);
    var r := k.reign[t];
    forall i: nat | 0 < i < |r.log| ensures EntryOk(r, t, i) {
      if i < |h.log[j]| { assert EntryOk(h.reign[t], t, i); }
    }
  }

  lemma ExtendServer<C>(h: History<C>, j: nat, c: C)
    requires ServersOk(h) && Leads(h, j) && Continues(h, Extend(h, j, c))
    ensures ServerOk(Extend(h, j, c), j)
  {
    ExtendGrounded(h, j, c);
    var l := Extend(h, j, c).log[j];
    assert ServerOk(h, j);
    forall i: nat | i < |l| ensures TermAtMost(l, i, h.term[j]) {
      if i < |h.log[j]| { assert TermAtMost(h.log[j], i, h.term[j]); }
    }
  }

  lemma ExtendAck<C>(h: History<C>, j: nat, c: C, u: nat, s: nat)
    requires Acks(h) && Leads(h, j) && Continues(h, Extend(h, j, c))
    ensures AckOk(Extend(h, j, c), u, s)
  {
    var k := Extend(h, j, c);
    assert AckOk(h, u, s);
    if (u, s) == (h.term[j], j) {
      assert Through(k, u, |k.log[j]| - 1) == k.log[j];
    } else if (u, s) in h.ack {
      AckKept(h, k, u, s);
    }
  }

  lemma ExtendBasic<C>(h: History<C>, j: nat, c: C)
    requires Basic(h) && Leads(h, j)
    ensures Continues(h, Extend(h, j, c)) && Basic(Extend(h, j, c))
  {
    var k := Extend(h, j, c);
    var t := h.term[j];
    ExtendContinues(h, j, c);
    forall s: nat | s < k.n ensures ServerOk(k, s) {
      if s == j { ExtendServer(h, j, c); } else { assert ServerOk(h, s); ServerKept(h, k, s); }
    }
    forall u: nat ensures ReignOk(k, u) {
      if u == t { ExtendReign(h, j, c); } else { assert ReignOk(h, u); if u in h.reign { ReignKept(h, k, u); } }
    }
    forall u: nat, d: nat ensures CandOk(k, u, d) {
      assert CandOk(h, u, d);
      if (u, d) in h.cand {
        CandKept(h, k, u, d);
      }
    }
    forall u: nat, s: nat ensures VoteOk(k, u, s) {
      assert VoteOk(h, u, s);
      if (u, s) in h.vote {
        VoteKept(h, k, u, s);
      }
    }
    forall u: nat, s: nat ensures AckOk(k, u, s) { ExtendAck(h, j, c, u, s); }
  }

  /** Only the appended entry itself is newly choosable, and only its leader has acknowledged it. */
  lemma ExtendShrinks<C>(h: History<C>, j: nat, c: C, u: nat, i: nat)
    requires Acks(h) && Leads(h, j) && Continues(h, Extend(h, j, c)) && Choosable(Extend(h, j, c), u, i)
    requires (u, i) != (h.term[j], |h.log[j]|)
    ensures Choosable(h, u, i) && Through(Extend(h, j, c), u, i) == Through(h, u, i)
  {
    var k := Extend(h, j, c);
    assert Fresh(h, u, i);
    forall s: nat | s < h.n && MayStillAck(k, u, i, s) ensures MayStillAck(h, u, i, s) {
      if (u, s) != (h.term[j], j) { assert Ack(k, u, s) == Ack(h, u, s); }
    }
    StillChoosable(h, k, u, i);
  }

  lemma NewEntryUnacked<C>(h: History<C>, j: nat, c: C, s: nat)
    requires Acks(h) && Leads(h, j) && s != j
    ensures Ack(Extend(h, j, c), h.term[j], s) < |h.log[j]|
  {
    assert AckOk(h, h.term[j], s);
  }

  /** With a later leader in office a new entry can no longer be chosen. */
  lemma OvertakenEntry<C>(h: History<C>, j: nat, c: C, v: nat)
    requires Acks(h) && Reigns(h) && Votes(h) && Leads(h, j) && h.term[j] < v && v in h.reign
    ensures !Choosable(Extend(h, j, c), h.term[j], |h.log[j]|)
  {
    var k := Extend(h, j, c);
    var t, i := h.term[j], |h.log[j]|;
    if Choosable(k, t, i) {
      assert ReignOk(h, v);
      var s := MajoritiesMeet(Voters(h, v, h.reign[v].leader), MayAck(k, t, i), h.n);
      assert VoteOk(h, v, s);
      NewEntryUnacked(h, j, c, s);
    }
  }

  lemma ExtendAckerKeeps<C>(h: History<C>, j: nat, c: C, u: nat, i: nat, s: nat)
    requires Acks(h) && AckersKeep(h) && Leads(h, j) && Continues(h, Extend(h, j, c))
    ensures AckerKeeps(Extend(h, j, c), u, i, s)
  {
    var k := Extend(h, j, c);
    if s < h.n && Choosable(k, u, i) && Ack(k, u, s) >= i {
      if (u, s) == (h.term[j], j) {
      } else if (u, i) == (h.term[j], |h.log[j]|) {
        NewEntryUnacked(h, j, c, s);
        assert false;
      } else {
        ExtendShrinks(h, j, c, u, i);
        assert Ack(k, u, s) == Ack(h, u, s);
        assert AckerKeeps(h, u, i, s);
        PrefixTrans(Through(h, u, i), h.log[s], k.log[s]);
      }
    }
  }

  lemma ExtendVoterKeeps<C>(h: History<C>, j: nat, c: C, u: nat, i: nat, v: nat, s: nat)
    requires Acks(h) && Votes(h) && VotersKeep(h) && Leads(h, j) && Continues(h, Extend(h, j, c))
    ensures VoterKeeps(Extend(h, j, c), u, i, v, s)
  {
    var k := Extend(h, j, c);
    if u < v && Choosable(k, u, i) && Ack(k, u, s) >= i && (v, s) in h.vote {
      assert VoteOk(h, v, s);
      assert (u, s) != (h.term[j], j);
      if (u, i) == (h.term[j], |h.log[j]|) {
        NewEntryUnacked(h, j, c, s);
        assert false;
      } else {
        ExtendShrinks(h, j, c, u, i);
        assert Ack(k, u, s) == Ack(h, u, s);
        assert VoterKeeps(h, u, i, v, s);
      }
    }
  }

  lemma ExtendLeaderKeeps<C>(h: History<C>, j: nat, c: C, u: nat, i: nat, v: nat)
    requires Acks(h) && Reigns(h) && Votes(h) && LeadersKeep(h) && Leads(h, j) && Continues(h, Extend(h, j, c))
    ensures LeaderKeeps(Extend(h, j, c), u, i, v)
  {
    var k := Extend(h, j, c);
    if u < v && v in k.reign && Choosable(k, u, i) {
      if (u, i) == (h.term[j], |h.log[j]|) {
        OvertakenEntry(h, j, c, v);
        assert false;
      } else {
        ExtendShrinks(h, j, c, u, i);
        assert LeaderKeeps(h, u, i, v) && ReignGrows(h, k, v);
        PrefixTrans(Through(h, u, i), h.reign[v].log, k.reign[v].log);
      }
    }
  }

  lemma ExtendSound<C>(h: History<C>, j: nat, c: C)
    requires Sound(h) && Leads(h, j)
    ensures Sound(Extend(h, j, c)) && Continues(h, Extend(h, j, c))
  {
    ExtendBasic(h, j, c);
    forall u: nat, i: nat, s: nat ensures AckerKeeps(Extend(h, j, c), u, i, s) { ExtendAckerKeeps(h, j, c, u, i, s); }
    forall u: nat, i: nat, v: nat, s: nat ensures VoterKeeps(Extend(h, j, c), u, i, v, s) {
      ExtendVoterKeeps(h, j, c, u, i, v, s);
    }
    forall u: nat, i: nat, v: nat ensures LeaderKeeps(Extend(h, j, c), u, i, v) { ExtendLeaderKeeps(h, j, c, u, i, v); }
  }

  // ---------------------------------------------------------------- adopting the leader's log

  lemma PrefixGrounded<C>(h: History<C>, l: Log<C>, p: Log<C>)
    requires Grounded(h, l) && p <= l && |p| > 0
    ensures Grounded(h, p)
  {
    forall i: nat | 0 < i < |p| ensures GroundedAt(h, p, i) {
      assert GroundedAt(h, l, i);
      assert p[..i + 1] == l[..i + 1];
    }
  }

  /** Merging with a prefix of the leader's log keeps every prefix shared with that log. */
  lemma MergeKeeps<C>(mine: Log<C>, p: Log<C>, leader: Log<C>, q: Log<C>)
    requires p <= leader && q <= leader && q <= mine
    ensures q <= Merge(mine, p)
  {
  }

  lemma AdoptContinues<C>(h: History<C>, j: nat, i: nat)
    requires MayAdopt(h, j, i)
    ensures Continues(h, Adopt(h, j, i))
  {
  }

  lemma AdoptServer<C>(h: History<C>, j: nat, i: nat)
    requires ServersOk(h) && Reigns(h) && MayAdopt(h, j, i) && Continues(h, Adopt(h, j, i))
    ensures ServerOk(Adopt(h, j, i), j)
  {
    var k := Adopt(h, j, i);
    var t := h.term[j];
    var p := Through(h, t, i);
    assert ServerOk(h, j) && ReignOk(h, t);
    if p <= h.log[j] {
      ServerKept(h, k, j);
    } else {
      PrefixGrounded(h, h.reign[t].log, p);
      GroundedStays(h, k, p);
      forall x: nat | x < |p| ensures TermAtMost(p, x, t) {
        if x > 0 { assert EntryOk(h.reign[t], t, x); }
      }
    }
  }

  lemma AdoptAck<C>(h: History<C>, j: nat, i: nat, u: nat, s: nat)
    requires Acks(h) && Reigns(h) && MayAdopt(h, j, i) && Continues(h, Adopt(h, j, i))
    ensures AckOk(Adopt(h, j, i), u, s)
  {
    var k := Adopt(h, j, i);
    var t := h.term[j];
    assert AckOk(h, u, s) && ReignOk(h, t);
    if (u, s) == (t, j) {
      var a := Ack(h, t, j);
      if (t, j) in h.ack && a >= i {
        PrefixTrans(Through(h, t, i), Through(h, t, a), h.log[j]);
      }
    } else if (u, s) in h.ack {
      AckKept(h, k, u, s);
    }
  }

  lemma AdoptBasic<C>(h: History<C>, j: nat, i: nat)
    requires Basic(h) && MayAdopt(h, j, i)
    ensures Continues(h, Adopt(h, j, i)) && Basic(Adopt(h, j, i))
  {
    var k := Adopt(h, j, i);
    AdoptContinues(h, j, i);
    forall s: nat | s < k.n ensures ServerOk(k, s) {
      if s == j { AdoptServer(h, j, i); } else { assert ServerOk(h, s); ServerKept(h, k, s); }
    }
    forall u: nat ensures ReignOk(k, u) { assert ReignOk(h, u); if u in h.reign { ReignKept(h, k, u); } }
    forall u: nat, d: nat ensures CandOk(k, u, d) {
      assert CandOk(h, u, d);
      if (u, d) in h.cand {
        CandKept(h, k, u, d);
      }
    }
    forall u: nat, s: nat ensures VoteOk(k, u, s) {
      assert VoteOk(h, u, s);
      if (u, s) in h.vote {
        VoteKept(h, k, u, s);
      }
    }
    forall u: nat, s: nat ensures AckOk(k, u, s) { AdoptAck(h, j, i, u, s); }
  }

  lemma AdoptShrinks<C>(h: History<C>, j: nat, i: nat, u: nat, x: nat)
    requires MayAdopt(h, j, i) && Continues(h, Adopt(h, j, i)) && Choosable(Adopt(h, j, i), u, x)
    ensures Choosable(h, u, x) && Through(Adopt(h, j, i), u, x) == Through(h, u, x)
  {
    var k := Adopt(h, j, i);
    assert Fresh(h, u, x);
    forall s: nat | s < h.n && MayStillAck(k, u, x, s) ensures MayStillAck(h, u, x, s) {
      if (u, s) != (h.term[j], j) { assert Ack(k, u, s) == Ack(h, u, s); }
    }
    StillChoosable(h, k, u, x);
  }

  lemma AdoptAckerKeeps<C>(h: History<C>, j: nat, i: nat, u: nat, x: nat, s: nat)
    requires Acks(h) && AckersKeep(h) && LeadersKeep(h) && MayAdopt(h, j, i) && Continues(h, Adopt(h, j, i))
    requires AckOk(Adopt(h, j, i), h.term[j], j)
    ensures AckerKeeps(Adopt(h, j, i), u, x, s)
  {
    var k := Adopt(h, j, i);
    var t := h.term[j];
    if s < h.n && Choosable(k, u, x) && Ack(k, u, s) >= x {
      AdoptShrinks(h, j, i, u, x);
      if (u, s) == (t, j) {
        PrefixTrans(Through(k, t, x), Through(k, t, k.ack[(t, j)]), k.log[j]);
      } else {
        assert Ack(k, u, s) == Ack(h, u, s);
        assert AckerKeeps(h, u, x, s);
        if s == j {
          assert AckOk(h, u, j);
          assert LeaderKeeps(h, u, x, t);
          MergeKeeps(h.log[j], Through(h, t, i), h.reign[t].log, Through(h, u, x));
        }
      }
    }
  }

  lemma AdoptVoterKeeps<C>(h: History<C>, j: nat, i: nat, u: nat, x: nat, v: nat, s: nat)
    requires Votes(h) && VotersKeep(h) && MayAdopt(h, j, i) && Continues(h, Adopt(h, j, i))
    ensures VoterKeeps(Adopt(h, j, i), u, x, v, s)
  {
    var k := Adopt(h, j, i);
    if u < v && Choosable(k, u, x) && Ack(k, u, s) >= x && (v, s) in h.vote {
      AdoptShrinks(h, j, i, u, x);
      assert VoteOk(h, v, s);
      assert (u, s) != (h.term[j], j);
      assert Ack(k, u, s) == Ack(h, u, s);
      assert VoterKeeps(h, u, x, v, s);
    }
  }

  lemma AdoptSound<C>(h: History<C>, j: nat, i: nat)
    requires Sound(h) && MayAdopt(h, j, i)
    ensures Sound(Adopt(h, j, i)) && Continues(h, Adopt(h, j, i))
  {
    var k := Adopt(h, j, i);
    AdoptBasic(h, j, i);
    assert AckOk(k, h.term[j], j);
    forall u: nat, x: nat, s: nat ensures AckerKeeps(k, u, x, s) { AdoptAckerKeeps(h, j, i, u, x, s); }
    forall u: nat, x: nat, v: nat, s: nat ensures VoterKeeps(k, u, x, v, s) { AdoptVoterKeeps(h, j, i, u, x, v, s); }
    forall u: nat, x: nat, v: nat ensures LeaderKeeps(k, u, x, v) {
      if Choosable(k, u, x) { AdoptShrinks(h, j, i, u, x); assert LeaderKeeps(h, u, x, v); }
    }
  }
}
