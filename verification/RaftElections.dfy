/** Terms, votes and elections of the running cluster follow the history. */
module RaftElections {
  import opened Common
  import opened TermLogs
  import opened HistorySteps
  import opened RaftNode
  import opened RaftSystem
  import opened RaftGlue

  /** Retained indexes read the logical log. */
  lemma ViewAt<C, S>(h: History<C>, nd: Node<C, S>, i: nat, x: nat)
    requires Shape(h) && i < h.n && LogOk(h, nd, i) && nd.logOffset <= x < |h.log[i]|
    ensures nd.LastIndex() == |h.log[i]| - 1 && nd.Holds(x) && nd.TermAt(x) == h.log[i][x].term
    ensures x > nd.logOffset ==> nd.log[x - nd.logOffset] == h.log[i][x]
  {
  }

  // ---------------------------------------------------------------- learning of a later term

  lemma SeeTermOthers<C>(h: History<C>, i: nat, t: nat)
    requires Sound(h) && i < h.n && h.term[i] <= t
    ensures OthersUndisturbed(h, SeeTerm(h, i, t), i)
  {
  }

  /** The parts of the glue that speak of the log only. */
  lemma LogPartsStay<C, S, R>(m: Machine<C, S, R>, h: History<C>, k: History<C>, sv: Server<C, S>, nd: Node<C, S>,
                              votes: set<nat>, i: nat)
    requires ServerGlue(m, h, sv, i) && Continues(h, k) && k.log[i] == h.log[i]
    requires nd == sv.node.(currentTerm := nd.currentTerm, voteFor := nd.voteFor, role := nd.role,
        nextIndex := nd.nextIndex, matchIndex := nd.matchIndex)
    requires |nd.nextIndex| == |nd.matchIndex| == h.n
    ensures ShapeOk(k, sv.(node := nd, votes := votes), i)
    ensures CommitOk(k, nd, i) && SnapshotOk(m, k, nd, i) && ServiceOk(m, k.log[i], sv.(node := nd, votes := votes))
    ensures WorkersOk(m, k, sv.(node := nd, votes := votes), i)
    ensures nd.currentTerm == k.term[i] ==> LogOk(k, nd, i)
  {
    CommittedStays(h, k, h.log[i][..sv.node.commitIndex + 1], h.term[i], k.term[i]);
    WorkersStay(m, h, k, sv, i);
    forall p: nat | p < k.n ensures WorkerOk(m, k, sv.(node := nd, votes := votes), i, p) {
      assert WorkerOk(m, k, sv, i, p);
    }
  }

  lemma StepDownGlue<C, S, R>(m: Machine<C, S, R>, h: History<C>, sv: Server<C, S>, i: nat, t: nat)
    requires Sound(h) && ServerGlue(m, h, sv, i) && h.term[i] < t
    ensures Sound(SeeTerm(h, i, t)) && OthersUndisturbed(h, SeeTerm(h, i, t), i)
    ensures ServerGlue(m, SeeTerm(h, i, t), sv.(node := StepDown(sv.node, t)), i)
  {
    var k := SeeTerm(h, i, t);
    SeeTermSound(h, i, t);
    SeeTermOthers(h, i, t);
    LogPartsStay(m, h, k, sv, StepDown(sv.node, t), sv.votes, i);
    assert VoteOk(h, t, i);
  }

  lemma ResignGlue<C, S, R>(m: Machine<C, S, R>, h: History<C>, sv: Server<C, S>, i: nat)
    requires ServerGlue(m, h, sv, i)
    ensures ServerGlue(m, h, sv.(node := sv.node.(role := Follower)), i)
  {
    LogPartsStay(m, h, h, sv, sv.node.(role := Follower), sv.votes, i);
  }

  /** The history after a server recognises term `t`. */
  ghost function Heard<C>(h: History<C>, i: nat, t: nat): History<C>
    requires Shape(h) && i < h.n
  {
    if h.term[i] < t then SeeTerm(h, i, t) else h
  }

  lemma FollowGlue<C, S, R>(m: Machine<C, S, R>, h: History<C>, sv: Server<C, S>, i: nat, t: nat)
    requires Sound(h) && ServerGlue(m, h, sv, i) && h.term[i] <= t
    ensures Sound(Heard(h, i, t)) && OthersUndisturbed(h, Heard(h, i, t), i)
    ensures ServerGlue(m, Heard(h, i, t), sv.(node := Follow(sv.node, t)), i)
  {
    if h.term[i] < t {
      StepDownGlue(m, h, sv, i, t);
      assert Follow(sv.node, t) == StepDown(sv.node, t);
    } else {
      OthersSame(h, i);
      ResignGlue(m, h, sv, i);
    }
  }

  // ---------------------------------------------------------------- standing for election

  lemma StandOthers<C>(h: History<C>, i: nat)
    requires Sound(h) && i < h.n
    ensures OthersUndisturbed(h, Stand(h, i), i)
  {
    StandSound(h, i);
  }

  lemma StandRole<C, S>(h: History<C>, sv: Server<C, S>, i: nat)
    requires Sound(h) && ShapeOk(h, sv, i) && |sv.node.log| > 0
    ensures RoleOk(Stand(h, i), OnTimeout(sv), i)
  {
    var k := Stand(h, i);
    var t := h.term[i] + 1;
    assert ReignOk(h, t);
    assert Voted(k, t, i, i);
    assert i in Voters(k, t, i);
  }

  lemma TimeoutGlue<C, S, R>(m: Machine<C, S, R>, h: History<C>, sv: Server<C, S>, i: nat)
    requires Sound(h) && ServerGlue(m, h, sv, i) && |sv.node.log| > 0
    ensures Sound(Stand(h, i)) && OthersUndisturbed(h, Stand(h, i), i)
    ensures ServerGlue(m, Stand(h, i), OnTimeout(sv), i)
    ensures forall msg :: msg in Campaign<C, S>(sv.node.n, BeginElection(sv.node).1) ==> MsgGlue(m, Stand(h, i), msg)
  {
    var k := Stand(h, i);
    StandSound(h, i);
    StandOthers(h, i);
    var nd := BeginElection(sv.node).0;
    LogPartsStay(m, h, k, sv, nd, {i}, i);
    StandRole(h, sv, i);
    CampaignGlue(m, h, sv, i);
  }

  lemma CampaignGlue<C, S, R>(m: Machine<C, S, R>, h: History<C>, sv: Server<C, S>, i: nat)
    requires Sound(h) && ServerGlue(m, h, sv, i) && |sv.node.log| > 0
    ensures forall msg :: msg in Campaign<C, S>(sv.node.n, BeginElection(sv.node).1) ==> MsgGlue(m, Stand(h, i), msg)
  {
    ViewAt(h, sv.node, i, |h.log[i]| - 1);
  }

  // ---------------------------------------------------------------- voting

  lemma CastVoteOthers<C>(h: History<C>, i: nat, c: nat)
    requires Sound(h) && MayVote(h, i, c)
    ensures OthersUndisturbed(h, CastVote(h, i, c), i)
  {
  }

  lemma GrantGlue<C, S, R>(m: Machine<C, S, R>, h: History<C>, sv: Server<C, S>, i: nat, c: nat)
    requires Sound(h) && ServerGlue(m, h, sv, i) && MayVote(h, i, c)
    ensures Sound(CastVote(h, i, c)) && OthersUndisturbed(h, CastVote(h, i, c), i)
    ensures ServerGlue(m, CastVote(h, i, c), sv.(node := sv.node.(voteFor := Some(c))), i)
  {
    var k := CastVote(h, i, c);
    CastVoteSound(h, i, c);
    CastVoteOthers(h, i, c);
    var sv' := sv.(node := sv.node.(voteFor := Some(c)));
    LogPartsStay(m, h, k, sv, sv'.node, sv.votes, i);
    assert Steady(h, k, i);
    RoleStays(h, k, sv, i);
    PeersStay(h, k, sv, i);
    assert RoleOk(k, sv', i);
    if sv.node.role == Leader {
      forall p: nat | p < k.n ensures PeerOk(k, sv', i, p) { assert PeerOk(k, sv, i, p); }
    }
  }

  /** On compacted logs, last index and last term decide exactly as the logical logs do, and so does the vote. */
  lemma ComparisonFaithful<C, S, R>(m: Machine<C, S, R>, h: History<C>, sv: Server<C, S>, i: nat, a: VoteArgs)
    requires Sound(h) && ServerGlue(m, h, sv, i) && |sv.node.log| > 0 && a.term == h.term[i]
        && MsgGlue(m, h, VoteReq(i, a))
    ensures (a.term, a.candidate) in h.cand && |h.cand[(a.term, a.candidate)]| > 0 && |h.log[i]| > 0
    ensures LogIsUpToDate(sv.node, a) <==> UpToDate(h.log[i], h.cand[(a.term, a.candidate)])
    ensures (sv.node.voteFor == None || sv.node.voteFor == Some(a.candidate)) && LogIsUpToDate(sv.node, a)
            <==> MayVote(h, i, a.candidate)
  {
    ViewAt(h, sv.node, i, |h.log[i]| - 1);
  }

  lemma VoteInTermGlue<C, S, R>(m: Machine<C, S, R>, h: History<C>, sv: Server<C, S>, i: nat, msg: Message<C, S>)
    returns (k: History<C>)
    requires Sound(h) && ServerGlue(m, h, sv, i) && |sv.node.log| > 0 && msg.VoteReq? && MsgGlue(m, h, msg)
        && msg.va.term == h.term[i]
    ensures Sound(k) && OthersUndisturbed(h, k, i) && k.reign == h.reign
    ensures ServerGlue(m, k, Handle(sv, msg).0, i)
    ensures forall out :: out in Handle(sv, msg).1 ==> MsgGlue(m, k, out)
  {
    var a := msg.va;
    if (sv.node.voteFor == None || sv.node.voteFor == Some(a.candidate)) && LogIsUpToDate(sv.node, a) {
      ComparisonFaithful(m, h, sv, i, a);
      GrantGlue(m, h, sv, i, a.candidate);
      k := CastVote(h, i, a.candidate);
    } else {
      OthersSame(h, i);
      k := h;
    }
  }

  lemma VoteReqGlue<C, S, R>(m: Machine<C, S, R>, h: History<C>, sv: Server<C, S>, i: nat, msg: Message<C, S>)
    returns (k: History<C>)
    requires Sound(h) && ServerGlue(m, h, sv, i) && |sv.node.log| > 0 && msg.VoteReq? && MsgGlue(m, h, msg)
    ensures Sound(k) && OthersUndisturbed(h, k, i) && k.reign == h.reign
    ensures ServerGlue(m, k, Handle(sv, msg).0, i)
    ensures forall out :: out in Handle(sv, msg).1 ==> MsgGlue(m, k, out)
  {
    var t := msg.va.term;
    if t < h.term[i] {
      OthersSame(h, i);
      k := h;
    } else if t == h.term[i] {
      k := VoteInTermGlue(m, h, sv, i, msg);
    } else {
      k := VoteLaterGlue(m, h, sv, i, msg);
    }
  }

  /** A request of a later term is first followed into its term. */
  lemma VoteLaterGlue<C, S, R>(m: Machine<C, S, R>, h: History<C>, sv: Server<C, S>, i: nat, msg: Message<C, S>)
    returns (k: History<C>)
    requires Sound(h) && ServerGlue(m, h, sv, i) && |sv.node.log| > 0 && msg.VoteReq? && MsgGlue(m, h, msg)
        && msg.va.term > h.term[i]
    ensures Sound(k) && OthersUndisturbed(h, k, i) && k.reign == h.reign
    ensures ServerGlue(m, k, Handle(sv, msg).0, i)
    ensures forall out :: out in Handle(sv, msg).1 ==> MsgGlue(m, k, out)
  {
    var t := msg.va.term;
    var k1, sv1 := SeeTerm(h, i, t), sv.(node := StepDown(sv.node, t));
    StepDownGlue(m, h, sv, i, t);
    MsgStays(m, h, k1, msg);
    k := VoteInTermGlue(m, k1, sv1, i, msg);
    OthersTrans(h, k1, k, i);
    assert Handle(sv, msg) == Handle(sv1, msg);
  }

  // ---------------------------------------------------------------- winning

  lemma WinOthers<C>(h: History<C>, i: nat)
    requires Sound(h) && MayWin(h, i)
    ensures OthersUndisturbed(h, Win(h, i), i)
  {
    WinSound(h, i);
  }

  lemma WinnerMayWin<C, S>(h: History<C>, sv: Server<C, S>, i: nat, votes: set<nat>)
    requires Sound(h) && ShapeOk(h, sv, i) && RoleOk(h, sv, i) && sv.node.role == Candidate
    requires votes <= Voters(h, h.term[i], i) && Enough(|votes|, h.n) && |h.log[i]| > 0
    ensures MayWin(h, i)
  {
    var t := h.term[i];
    SubsetSize(votes, Voters(h, t, i));
    assert Majority(Voters(h, t, i), h.n);
    if t in h.reign {
      assert ReignOk(h, t);
      ElectionSafety(h, t, i, h.reign[t].leader);
    }
  }

  lemma WinPeers<C, S, R>(m: Machine<C, S, R>, h: History<C>, sv: Server<C, S>, i: nat, votes: set<nat>)
    requires Sound(h) && ServerGlue(m, h, sv, i) && |sv.node.log| > 0 && MayWin(h, i) && Continues(h, Win(h, i))
    ensures PeersOk(Win(h, i), sv.(node := LeaderInit(sv.node), votes := votes), i)
  {
    var k := Win(h, i);
    var sv' := sv.(node := LeaderInit(sv.node), votes := votes);
    ViewAt(h, sv.node, i, |h.log[i]| - 1);
    forall p: nat | p < k.n ensures PeerOk(k, sv', i, p) {
      assert WorkerOk(m, h, sv, i, p);
    }
  }

  lemma WinGlue<C, S, R>(m: Machine<C, S, R>, h: History<C>, sv: Server<C, S>, i: nat, votes: set<nat>)
    requires Sound(h) && ServerGlue(m, h, sv, i) && |sv.node.log| > 0 && sv.node.role == Candidate
    requires votes <= Voters(h, h.term[i], i) && Enough(|votes|, h.n)
    ensures MayWin(h, i) && Sound(Win(h, i)) && OthersUndisturbed(h, Win(h, i), i)
    ensures ServerGlue(m, Win(h, i), sv.(node := LeaderInit(sv.node), votes := votes), i)
  {
    WinnerMayWin(h, sv, i, votes);
    var k := Win(h, i);
    WinSound(h, i);
    WinOthers(h, i);
    LogPartsStay(m, h, k, sv, LeaderInit(sv.node), votes, i);
    WinPeers(m, h, sv, i, votes);
  }

  lemma WinAloneGlue<C, S, R>(m: Machine<C, S, R>, h: History<C>, sv: Server<C, S>, i: nat)
    requires Sound(h) && ServerGlue(m, h, sv, i) && |sv.node.log| > 0 && sv.node.role == Candidate
        && Enough(1, sv.node.n)
    ensures MayWin(h, i) && Sound(Win(h, i)) && OthersUndisturbed(h, Win(h, i), i)
    ensures ServerGlue(m, Win(h, i), sv.(node := LeaderInit(sv.node)), i)
  {
    SubsetSize({i}, sv.votes);
    WinGlue(m, h, sv, i, sv.votes);
  }

  lemma CountedGlue<C, S, R>(m: Machine<C, S, R>, h: History<C>, sv: Server<C, S>, i: nat, votes: set<nat>)
    requires ServerGlue(m, h, sv, i) && sv.node.role == Candidate && i in votes && votes <= Voters(h, h.term[i], i)
    ensures ServerGlue(m, h, sv.(votes := votes), i)
  {
    LogPartsStay(m, h, h, sv, sv.node, votes, i);
  }

  lemma VoteRepGlue<C, S, R>(m: Machine<C, S, R>, h: History<C>, sv: Server<C, S>, i: nat, msg: Message<C, S>)
    returns (k: History<C>)
    requires Sound(h) && ServerGlue(m, h, sv, i) && |sv.node.log| > 0 && msg.VoteRep? && MsgGlue(m, h, msg)
        && Addressed(sv, msg)
    ensures Sound(k) && OthersUndisturbed(h, k, i) && NothingAdded(h, k)
    ensures ServerGlue(m, k, Handle(sv, msg).0, i)
  {
    k := h;
    OthersSame(h, i);
    var p, a, r := msg.src, msg.va, msg.vr;
    if r.term > h.term[i] {
      StepDownGlue(m, h, sv, i, r.term);
      k := SeeTerm(h, i, r.term);
    } else if sv.node.role == Candidate && h.term[i] == a.term && r.granted {
      k := VoteCountedGlue(m, h, sv, i, p);
    }
  }

  /** One more vote of the candidate's term: it wins on a majority. */
  lemma VoteCountedGlue<C, S, R>(m: Machine<C, S, R>, h: History<C>, sv: Server<C, S>, i: nat, p: nat)
    returns (k: History<C>)
    requires Sound(h) && ServerGlue(m, h, sv, i) && |sv.node.log| > 0 && sv.node.role == Candidate
    requires p < h.n && Voted(h, h.term[i], p, i)
    ensures Sound(k) && OthersUndisturbed(h, k, i) && NothingAdded(h, k)
    ensures var v := sv.votes + {p};
      ServerGlue(m, k, sv.(node := if Enough(|v|, sv.node.n) then LeaderInit(sv.node) else sv.node, votes := v), i)
  {
    var v := sv.votes + {p};
    assert p in Voters(h, h.term[i], i);
    k := h;
    OthersSame(h, i);
    if Enough(|v|, h.n) {
      WinGlue(m, h, sv, i, v);
      k := Win(h, i);
    } else {
      CountedGlue(m, h, sv, i, v);
      assert sv.(node := sv.node, votes := v) == sv.(votes := v);
    }
  }
}
