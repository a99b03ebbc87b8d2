/** What a follower does with append and snapshot requests, and what the leader makes of the replies. */
module RaftFollowing {
  import opened Common
  import opened TermLogs
  import opened HistorySteps
  import opened RaftNode
  import opened RaftSystem
  import opened RaftGlue
  import opened RaftElections
  import opened RaftReplication

  // ---------------------------------------------------------------- adopting a prefix of the leader's log

  lemma AdoptOthers<C>(h: History<C>, i: nat, x: nat)
    requires Sound(h) && MayAdopt(h, i, x)
    ensures Sound(Adopt(h, i, x)) && OthersUndisturbed(h, Adopt(h, i, x), i)
  {
    AdoptSound(h, i, x);
  }

  /** What a server knows to be committed survives adopting a prefix of its leader's log. */
  lemma CommittedKept<C, S>(h: History<C>, nd: Node<C, S>, i: nat, x: nat)
    requires Reigns(h) && LeadersKeep(h) && MayAdopt(h, i, x) && CommitOk(h, nd, i)
    ensures h.log[i][..nd.commitIndex + 1] <= h.reign[h.term[i]].log
    ensures h.log[i][..nd.commitIndex + 1] <= Adopt(h, i, x).log[i]
  {
    var t := h.term[i];
    var p := h.log[i][..nd.commitIndex + 1];
    LeaderCompleteness(h, p, t, t);
    MergeKeeps(h.log[i], Through(h, t, x), h.reign[t].log, p);
  }

  /** The parts of the glue a following server keeps while its log changes underneath. */
  lemma AdoptParts<C, S, R>(m: Machine<C, S, R>, h: History<C>, sv: Server<C, S>, nd: Node<C, S>, i: nat, x: nat)
    requires Sound(h) && ServerGlue(m, h, sv, i) && sv.node.role == Follower && MayAdopt(h, i, x)
        && Continues(h, Adopt(h, i, x))
    requires nd.voteFor == sv.node.voteFor && nd.role == Follower && nd.n == sv.node.n && nd.me == i
    requires nd.nextIndex == sv.node.nextIndex && nd.matchIndex == sv.node.matchIndex
    ensures ShapeOk(Adopt(h, i, x), sv.(node := nd), i)
    ensures BallotOk(Adopt(h, i, x), nd, i) && RoleOk(Adopt(h, i, x), sv.(node := nd), i)
    ensures PeersOk(Adopt(h, i, x), sv.(node := nd), i) && WorkersOk(m, Adopt(h, i, x), sv.(node := nd), i)
  {
    var k := Adopt(h, i, x);
    WorkersStay(m, h, k, sv, i);
    forall p: nat | p < k.n ensures WorkerOk(m, k, sv.(node := nd), i, p) { assert WorkerOk(m, k, sv, i, p); }
  }

  // ---------------------------------------------------------------- accepting entries

  ghost predicate Matches<C>(a: Log<C>, b: Log<C>, x: nat)
    requires x < |a| && x < |b|
  {
    a[x].term == b[x].term ==> a[..x + 1] == b[..x + 1]
  }

  /** Walking the entries one by one merges with the prefix the leader sent. */
  lemma OneFurther<C>(l: Log<C>, p: Log<C>, prev: nat)
    requires prev + 1 < |l| && prev + 1 < |p| && l[prev + 1].term == p[prev + 1].term && Matches(l, p, prev + 1)
    ensures l[..prev + 2] == p[..prev + 2]
  {
  }

  lemma {:induction false} MergeEntriesIsMerge<C>(l: Log<C>, off: nat, prev: nat, p: Log<C>)
    requires off <= prev < |l| && prev < |p| && l[..prev + 1] == p[..prev + 1]
    requires forall x: nat :: x < |l| && x < |p| ==> Matches(l, p, x)
    ensures prev + 1 - off <= |Compacted(l, off)| && off < |Merge(l, p)|
    ensures MergeEntries(Compacted(l, off), prev + 1 - off, p[prev + 1..]) == Compacted(Merge(l, p), off)
    decreases |p| - prev
  {
    var e := p[prev + 1..];
    var log := Compacted(l, off);
    CompactedAt(l, off, prev);
    assert l[off] == l[..prev + 1][off] == p[..prev + 1][off] == p[off];
    if |e| == 0 {
      assert p == p[..prev + 1] <= l;
    } else if prev + 1 == |l| {
      assert l == l[..prev + 1];
      MergeTail(l, off, p);
    } else if l[prev + 1].term != p[prev + 1].term {
      CompactedAt(l, off, prev + 1);
      MergeCut(l, off, prev, p);
    } else {
      CompactedAt(l, off, prev + 1);
      OneFurther(l, p, prev);
      MergeEntriesIsMerge(l, off, prev + 1, p);
      assert e[1..] == p[prev + 2..];
    }
  }

  lemma MergeTail<C>(l: Log<C>, off: nat, p: Log<C>)
    requires off < |l| < |p| && l == p[..|l|]
    ensures !(p <= l) && Compacted(l, off) + p[|l|..] == Compacted(p, off)
  {
  }

  lemma MergeCut<C>(l: Log<C>, off: nat, prev: nat, p: Log<C>)
    requires off <= prev && prev + 1 < |l| && prev + 1 < |p| && l[..prev + 1] == p[..prev + 1]
    requires l[prev + 1].term != p[prev + 1].term
    ensures !(p <= l)
    ensures Compacted(l, off)[..prev + 1 - off] + p[prev + 1..] == Compacted(p, off)
  {
  }

  lemma PrevMatches<C, S>(h: History<C>, nd: Node<C, S>, i: nat, a: AppendArgs<C>)
    requires ServersOk(h) && Reigns(h) && i < h.n && LogOk(h, nd, i) && AppendOk(h, a)
    requires nd.Holds(a.prevLogIndex) && nd.TermAt(a.prevLogIndex) == a.prevLogTerm
    ensures a.prevLogIndex < |h.log[i]|
    ensures h.log[i][..a.prevLogIndex + 1] == h.reign[a.term].log[..a.prevLogIndex + 1]
  {
    ViewAt(h, nd, i, nd.commitIndex);
    ViewAt(h, nd, i, a.prevLogIndex);
    assert ServerOk(h, i) && ReignOk(h, a.term);
    LogMatching(h, h.log[i], h.reign[a.term].log, a.prevLogIndex);
  }

  lemma AllMatch<C>(h: History<C>, l: Log<C>, r: Log<C>, p: Log<C>)
    requires Grounded(h, l) && Grounded(h, r) && p <= r
    ensures forall x: nat :: x < |l| && x < |p| ==> Matches(l, p, x)
  {
    forall x: nat | x < |l| && x < |p| ensures Matches(l, p, x) {
      if l[x].term == p[x].term {
        LogMatching(h, l, r, x);
        assert p[..x + 1] == r[..x + 1];
      }
    }
  }

  lemma SentPrefix<C>(h: History<C>, a: AppendArgs<C>)
    requires AppendOk(h, a)
    ensures Through(h, a.term,
        a.prevLogIndex + |a.entries|)[..a.prevLogIndex + 1] == h.reign[a.term].log[..a.prevLogIndex + 1]
    ensures Through(h, a.term, a.prevLogIndex + |a.entries|)[a.prevLogIndex + 1..] == a.entries
  {
  }

  lemma AcceptMerges<C, S>(nd: Node<C, S>, a: AppendArgs<C>, l: Log<C>, p: Log<C>)
    requires nd.logOffset <= a.prevLogIndex < |l| && nd.Holds(a.prevLogIndex) && nd.log == Compacted(l, nd.logOffset)
    requires a.prevLogIndex < |p| && l[..a.prevLogIndex + 1] == p[..a.prevLogIndex + 1]
        && a.entries == p[a.prevLogIndex + 1..]
    requires forall x: nat :: x < |l| && x < |p| ==> Matches(l, p, x)
    ensures nd.logOffset < |Merge(l, p)| && Accept(nd, a).log == Compacted(Merge(l, p), nd.logOffset)
  {
    MergeEntriesIsMerge(l, nd.logOffset, a.prevLogIndex, p);
  }

  lemma AcceptLog<C, S>(h: History<C>, nd: Node<C, S>, i: nat, a: AppendArgs<C>)
    requires ServersOk(h) && Reigns(h) && i < h.n && LogOk(h, nd, i) && h.term[i] == a.term && AppendOk(h, a)
    requires nd.Holds(a.prevLogIndex) && nd.TermAt(a.prevLogIndex) == a.prevLogTerm
    ensures var l := Merge(h.log[i], Through(h, a.term, a.prevLogIndex + |a.entries|));
      nd.logOffset < |l| && Accept(nd, a).log == Compacted(l, nd.logOffset)
  {
    var p := Through(h, a.term, a.prevLogIndex + |a.entries|);
    PrevMatches(h, nd, i, a);
    SentPrefix(h, a);
    assert ServerOk(h, i) && ReignOk(h, a.term);
    AllMatch(h, h.log[i], h.reign[a.term].log, p);
    AcceptMerges(nd, a, h.log[i], p);
  }

  lemma OldCommit<C, S>(h: History<C>, nd: Node<C, S>, i: nat, x: nat)
    requires Reigns(h) && LeadersKeep(h) && MayAdopt(h, i, x) && CommitOk(h, nd, i) && Continues(h, Adopt(h, i, x))
    ensures CommitOk(Adopt(h, i, x), nd, i)
  {
    var k := Adopt(h, i, x);
    var p := h.log[i][..nd.commitIndex + 1];
    CommittedKept(h, nd, i, x);
    CommittedStays(h, k, p, h.term[i], h.term[i]);
    assert k.log[i][..nd.commitIndex + 1] == p;
  }

  lemma AcceptCommit<C, S>(h: History<C>, nd: Node<C, S>, nd': Node<C, S>, i: nat, a: AppendArgs<C>)
    requires Reigns(h) && LeadersKeep(h) && i < h.n && CommitOk(h, nd, i) && h.term[i] == a.term && AppendOk(h, a)
    requires Continues(h, Adopt(h, i, a.prevLogIndex + |a.entries|))
    requires nd'.commitIndex == Max(nd.commitIndex, Min(a.leaderCommit, a.prevLogIndex + |a.entries|))
    ensures CommitOk(Adopt(h, i, a.prevLogIndex + |a.entries|), nd', i)
  {
    var x := a.prevLogIndex + |a.entries|;
    if Min(a.leaderCommit, x) <= nd.commitIndex {
      OldCommit(h, nd, i, x);
    } else {
      NewCommit(h, i, a, Min(a.leaderCommit, x));
    }
  }

  lemma NewCommit<C>(h: History<C>, i: nat, a: AppendArgs<C>, c: nat)
    requires Shape(h) && i < h.n && h.term[i] == a.term && AppendOk(h, a)
        && Continues(h, Adopt(h, i, a.prevLogIndex + |a.entries|))
    requires c <= a.leaderCommit && c <= a.prevLogIndex + |a.entries|
    ensures c < |Adopt(h, i, a.prevLogIndex + |a.entries|).log[i]|
    ensures CommittedBy(Adopt(h, i, a.prevLogIndex + |a.entries|),
        Adopt(h, i, a.prevLogIndex + |a.entries|).log[i][..c + 1], a.term)
  {
    var t := a.term;
    var x := a.prevLogIndex + |a.entries|;
    var k := Adopt(h, i, x);
    var p := Through(h, t, c);
    assert Through(h, t, x) <= k.log[i];
    assert k.log[i][..c + 1] == p <= Through(h, t, a.leaderCommit);
    CommittedPrefix(h, p, Through(h, t, a.leaderCommit), t, t);
    CommittedStays(h, k, p, t, t);
  }

  lemma AcceptService<C, S, R>(m: Machine<C, S, R>, h: History<C>, sv: Server<C, S>, nd: Node<C, S>, i: nat, x: nat)
    requires Reigns(h) && LeadersKeep(h) && MayAdopt(h, i, x)
    requires CommitOk(h, sv.node, i) && SnapshotOk(m, h, sv.node, i) && ServiceOk(m, h.log[i], sv)
    requires sv.node.logOffset <= sv.node.lastApplied <= sv.node.commitIndex
    requires nd == sv.node.(log := nd.log, commitIndex := nd.commitIndex)
    ensures SnapshotOk(m, Adopt(h, i, x), nd, i)
    ensures ServiceOk(m, Adopt(h, i, x).log[i], sv.(node := nd))
  {
    var k := Adopt(h, i, x);
    CommittedKept(h, sv.node, i, x);
    var p := h.log[i][..sv.node.commitIndex + 1];
    ServiceStays(m, h.log[i], k.log[i], p, sv, sv.(node := nd));
    SnapshotStays(m, h, k, p, sv.node, nd, i);
  }

  /** A follower whose node changed to `nd` by accepting the leader's log through `x`. */
  lemma AcceptedGlue<C, S, R>(m: Machine<C, S, R>, h: History<C>, sv: Server<C, S>, nd: Node<C, S>, i: nat, x: nat)
    requires Sound(h) && ServerGlue(m, h, sv, i) && sv.node.role == Follower && MayAdopt(h, i, x)
    requires nd == sv.node.(log := nd.log, commitIndex := nd.commitIndex) && nd.commitIndex >= sv.node.commitIndex
    requires CommitOk(Adopt(h, i, x), nd, i) && nd.log == Compacted(Adopt(h, i, x).log[i], nd.logOffset)
    ensures Sound(Adopt(h, i, x)) && OthersUndisturbed(h, Adopt(h, i, x), i)
    ensures ServerGlue(m, Adopt(h, i, x), sv.(node := nd), i)
  {
    AdoptOthers(h, i, x);
    AdoptParts(m, h, sv, nd, i, x);
    AcceptService(m, h, sv, nd, i, x);
  }

  /** Accepting entries changes the log and the commit index, the former by merging, the latter to a committed index. */
  lemma AcceptShape<C, S>(nd: Node<C, S>, a: AppendArgs<C>)
    requires nd.Holds(a.prevLogIndex)
    ensures var nd' := Accept(nd, a);
      nd' == nd.(log := nd'.log, commitIndex := nd'.commitIndex) && nd'.commitIndex >= nd.commitIndex
  {
  }

  lemma AcceptFacts<C, S>(h: History<C>, nd: Node<C, S>, i: nat, a: AppendArgs<C>, x: nat) returns (nd': Node<C, S>)
    requires ServersOk(h) && Reigns(h) && LeadersKeep(h) && i < h.n && LogOk(h, nd, i) && CommitOk(h, nd, i)
    requires h.term[i] == a.term && AppendOk(h, a) && x == a.prevLogIndex + |a.entries|
    requires nd.Holds(a.prevLogIndex) && nd.TermAt(a.prevLogIndex) == a.prevLogTerm
    ensures nd' == Accept(nd, a) && MayAdopt(h, i, x)
    ensures nd' == nd.(log := nd'.log, commitIndex := nd'.commitIndex) && nd'.commitIndex >= nd.commitIndex
    ensures CommitOk(Adopt(h, i, x), nd', i)
    ensures nd'.logOffset < |Adopt(h, i, x).log[i]| && nd'.log == Compacted(Adopt(h, i, x).log[i], nd'.logOffset)
  {
    nd' := Accept(nd, a);
    AcceptShape(nd, a);
    AcceptLog(h, nd, i, a);
    AcceptedCommit(h, nd, i, a, x);
    AdoptedLog(h, i, x);
  }

  lemma AdoptedLog<C>(h: History<C>, i: nat, x: nat)
    requires MayAdopt(h, i, x)
    ensures Adopt(h, i, x).log[i] == Merge(h.log[i], Through(h, h.term[i], x))
  {
  }

  lemma AcceptedCommit<C, S>(h: History<C>, nd: Node<C, S>, i: nat, a: AppendArgs<C>, x: nat)
    requires ServersOk(h) && Reigns(h) && LeadersKeep(h) && i < h.n && CommitOk(h, nd, i)
    requires h.term[i] == a.term && AppendOk(h, a) && x == a.prevLogIndex + |a.entries| && nd.Holds(a.prevLogIndex)
    ensures MayAdopt(h, i, x) && CommitOk(Adopt(h, i, x), Accept(nd, a), i)
  {
    AdoptContinues(h, i, x);
    AcceptCommit(h, nd, Accept(nd, a), i, a);
  }

  // ---------------------------------------------------------------- rejecting

  lemma {:induction false} RunStartPositive<C, S>(nd: Node<C, S>, i: nat, x: nat)
    requires nd.Holds(i) && i > 0 && (nd.logOffset == 0 ==> nd.TermAt(0) != x)
    ensures RunStart(nd, i, x) > 0
    decreases i
  {
    if i > nd.logOffset && nd.TermAt(i - 1) == x {
      RunStartPositive(nd, i - 1, x);
    }
  }

  /** A conflict at a retained index names a term whose own log reaches that index. */
  lemma ConflictGlue<C, S, R>(m: Machine<C, S, R>, h: History<C>, sv: Server<C, S>, i: nat, a: AppendArgs<C>,
                              r: AppendReply)
    requires ServersOk(h) && Reigns(h) && i < h.n && LogOk(h, sv.node, i) && h.term[i] == a.term && AppendOk(h, a)
    requires sv.node.Holds(a.prevLogIndex) && sv.node.TermAt(a.prevLogIndex) != a.prevLogTerm
    requires r.xTerm == Some(sv.node.TermAt(a.prevLogIndex))
        && r.xIndex == RunStart(sv.node, a.prevLogIndex, sv.node.TermAt(a.prevLogIndex))
    ensures RejectOk(h, a, r)
  {
    var j := a.prevLogIndex;
    ViewAt(h, sv.node, i, sv.node.commitIndex);
    ViewAt(h, sv.node, i, j);
    assert ServerOk(h, i) && ReignOk(h, a.term);
    var x := h.log[i][j].term;
    assert j > 0;
    assert GroundedAt(h, h.log[i], j) && ReignOk(h, x);
    assert h.log[i][..j + 1][j] == h.reign[x].log[j];
    if sv.node.logOffset == 0 { ViewAt(h, sv.node, i, 0); }
    RunStartPositive(sv.node, j, x);
  }

  /** The follower's committed prefix is part of the leader's log, so neither length leads the leader astray. */
  lemma LengthGlue<C, S, R>(m: Machine<C, S, R>, h: History<C>, sv: Server<C, S>, i: nat, a: AppendArgs<C>,
                            r: AppendReply)
    requires Reigns(h) && LeadersKeep(h) && i < h.n && LogOk(h, sv.node, i) && CommitOk(h, sv.node, i)
        && h.term[i] == a.term && AppendOk(h, a)
    requires r.xTerm == None && !sv.node.Holds(a.prevLogIndex)
    requires r.xLen == if a.prevLogIndex < sv.node.logOffset then sv.node.logOffset + 1 else sv.node.LastIndex() + 1
    ensures RejectOk(h, a, r)
  {
    ViewAt(h, sv.node, i, sv.node.commitIndex);
    LeaderCompleteness(h, h.log[i][..sv.node.commitIndex + 1], a.term, a.term);
  }

  /** An append request of the follower's own term: accepted, or one of the three rejections. */
  lemma HandleAppendCases<C, S>(nd: Node<C, S>, a: AppendArgs<C>)
    requires |nd.log| > 0 && nd.role == Follower && a.term == nd.currentTerm
    ensures nd.Holds(a.prevLogIndex) && nd.TermAt(a.prevLogIndex) == a.prevLogTerm ==>
              HandleAppend(nd, a) == (Accept(nd, a), AppendReply(a.term, true, Some(0), 0, 0))
    ensures nd.Holds(a.prevLogIndex) && nd.TermAt(a.prevLogIndex) != a.prevLogTerm ==>
              HandleAppend(nd, a) == (nd, AppendReply(a.term, false, Some(nd.TermAt(a.prevLogIndex)),
                                                      RunStart(nd, a.prevLogIndex, nd.TermAt(a.prevLogIndex)),
                                                          nd.LastIndex() + 1))
    ensures !nd.Holds(a.prevLogIndex) ==>
              HandleAppend(nd, a) == (nd, AppendReply(a.term, false, None, 0,
                                                      if a.prevLogIndex < nd.logOffset then nd.logOffset + 1
                                                          else nd.LastIndex() + 1))
  {
  }

  lemma RejectGlue<C, S, R>(m: Machine<C, S, R>, h: History<C>, sv: Server<C, S>, i: nat, a: AppendArgs<C>)
    requires Sound(h) && ServerGlue(m, h, sv, i) && |sv.node.log| > 0 && sv.node.role == Follower
    requires i != a.leader && AppendOk(h, a) && a.term == h.term[i]
    requires !(sv.node.Holds(a.prevLogIndex) && sv.node.TermAt(a.prevLogIndex) == a.prevLogTerm)
    ensures OthersUndisturbed(h, h, i)
    ensures ServerGlue(m, h, sv.(node := HandleAppend(sv.node, a).0), i)
    ensures MsgGlue(m, h, AppendRep(i, a, HandleAppend(sv.node, a).1))
  {
    HandleAppendCases(sv.node, a);
    var r := HandleAppend(sv.node, a).1;
    OthersSame(h, i);
    assert sv.(node := sv.node) == sv;
    if sv.node.Holds(a.prevLogIndex) { ConflictGlue(m, h, sv, i, a, r); } else { LengthGlue(m, h, sv, i, a, r); }
  }

  lemma AppendInTermGlue<C, S, R>(m: Machine<C, S, R>, h: History<C>, sv: Server<C, S>, i: nat, a: AppendArgs<C>)
    returns (k: History<C>)
    requires Sound(h) && ServerGlue(m, h, sv, i) && |sv.node.log| > 0 && sv.node.role == Follower
    requires i != a.leader && AppendOk(h, a) && a.term == h.term[i]
    ensures Sound(k) && OthersUndisturbed(h, k, i) && k.reign == h.reign
    ensures ServerGlue(m, k, sv.(node := HandleAppend(sv.node, a).0), i)
    ensures MsgGlue(m, k, AppendRep(i, a, HandleAppend(sv.node, a).1))
  {
    HandleAppendCases(sv.node, a);
    if sv.node.Holds(a.prevLogIndex) && sv.node.TermAt(a.prevLogIndex) == a.prevLogTerm {
      var x := a.prevLogIndex + |a.entries|;
      var nd := AcceptFacts(h, sv.node, i, a, x);
      AcceptedGlue(m, h, sv, nd, i, x);
      k := Adopt(h, i, x);
      AppendOkStays(h, k, a);
    } else {
      k := h;
      RejectGlue(m, h, sv, i, a);
    }
  }

  lemma AppendReqGlue<C, S, R>(m: Machine<C, S, R>, h: History<C>, sv: Server<C, S>, i: nat, a: AppendArgs<C>)
    returns (k: History<C>)
    requires Sound(h) && ServerGlue(m, h, sv, i) && |sv.node.log| > 0 && i != a.leader && AppendOk(h, a)
    ensures Sound(k) && OthersUndisturbed(h, k, i) && k.reign == h.reign
    ensures ServerGlue(m, k, sv.(node := HandleAppend(sv.node, a).0), i)
    ensures MsgGlue(m, k, AppendRep(i, a, HandleAppend(sv.node, a).1))
  {
    if a.term < h.term[i] {
      OthersSame(h, i);
      k := h;
      assert sv.(node := sv.node) == sv;
    } else {
      var k1, sv1 := Heard(h, i, a.term), sv.(node := Follow(sv.node, a.term));
      FollowGlue(m, h, sv, i, a.term);
      AppendOkStays(h, k1, a);
      HandleAppendFollows(sv.node, a);
      k := AppendInTermGlue(m, k1, sv1, i, a);
      OthersTrans(h, k1, k, i);
    }
  }

  lemma HandleAppendFollows<C, S>(nd: Node<C, S>, a: AppendArgs<C>)
    requires |nd.log| > 0 && a.term >= nd.currentTerm
    ensures HandleAppend(nd, a) == HandleAppend(Follow(nd, a.term), a)
  {
  }

  // ---------------------------------------------------------------- snapshots

  /** A snapshot at or below the commit index is already part of the follower's log. */
  lemma StaleSnapshot<C, S, R>(m: Machine<C, S, R>, h: History<C>, sv: Server<C, S>, i: nat, a: SnapArgs<S>)
    requires Sound(h) && ServerGlue(m, h, sv, i) && h.term[i] == a.term && SnapOk(m, h, a)
    requires a.lastIncludedIndex <= sv.node.commitIndex
    ensures Through(h, a.term, a.lastIncludedIndex) <= h.log[i]
  {
    var p := h.log[i][..sv.node.commitIndex + 1];
    LeaderCompleteness(h, p, a.term, a.term);
    Comparable(Through(h, a.term, a.lastIncludedIndex), p, h.reign[a.term].log);
    PrefixTrans(Through(h, a.term, a.lastIncludedIndex), p, h.log[i]);
  }

  lemma StaleSnapshotGlue<C, S, R>(m: Machine<C, S, R>, h: History<C>, sv: Server<C, S>, i: nat, a: SnapArgs<S>)
    requires Sound(h) && ServerGlue(m, h, sv, i) && sv.node.role == Follower && h.term[i] == a.term && SnapOk(m, h, a)
    requires a.lastIncludedIndex <= sv.node.commitIndex
    ensures Sound(Adopt(h, i, a.lastIncludedIndex)) && OthersUndisturbed(h, Adopt(h, i, a.lastIncludedIndex), i)
    ensures ServerGlue(m, Adopt(h, i, a.lastIncludedIndex), sv, i)
  {
    var x := a.lastIncludedIndex;
    var k := Adopt(h, i, x);
    AdoptSound(h, i, x);
    AdoptOthers(h, i, x);
    AdoptParts(m, h, sv, sv.node, i, x);
    StaleSnapshot(m, h, sv, i, a);
    assert k.log[i] == h.log[i];
    CommittedStays(h, k, h.log[i][..sv.node.commitIndex + 1], h.term[i], k.term[i]);
    assert sv.(node := sv.node) == sv;
  }

  /** Keeping the suffix is exactly the case in which the follower's log already contains the snapshot's prefix. */
  lemma RetainsIffContains<C, S, R>(m: Machine<C, S, R>, h: History<C>, sv: Server<C, S>, i: nat, a: SnapArgs<S>)
    requires Sound(h) && ServerGlue(m, h, sv, i) && h.term[i] == a.term && SnapOk(m, h, a)
    requires a.lastIncludedIndex > sv.node.commitIndex
    ensures RetainsSuffix(sv.node, a) <==> Through(h, a.term, a.lastIncludedIndex) <= h.log[i]
  {
    var x := a.lastIncludedIndex;
    var p := Through(h, a.term, x);
    ViewAt(h, sv.node, i, sv.node.commitIndex);
    if RetainsSuffix(sv.node, a) {
      ViewAt(h, sv.node, i, x);
      assert ServerOk(h, i) && ReignOk(h, a.term);
      LogMatching(h, h.log[i], h.reign[a.term].log, x);
      assert p == h.log[i][..x + 1];
    }
    if p <= h.log[i] {
      ViewAt(h, sv.node, i, x);
      assert p[x] == h.log[i][x];
    }
  }

  /** Installing merges the snapshot's prefix into the logical log and cuts it there. */
  lemma InstallLogIs<C, S>(h: History<C>, nd: Node<C, S>, i: nat, p: Log<C>, a: SnapArgs<S>)
    requires Shape(h) && i < h.n && LogOk(h, nd, i) && |p| == a.lastIncludedIndex + 1
        && a.lastIncludedIndex > nd.commitIndex
    requires p[a.lastIncludedIndex].term == a.lastIncludedTerm && (RetainsSuffix(nd, a) <==> p <= h.log[i])
    ensures a.lastIncludedIndex < |Merge(h.log[i], p)| && p <= Merge(h.log[i], p)
    ensures Install(nd, a).log == Compacted(Merge(h.log[i], p), a.lastIncludedIndex)
  {
  }

  lemma InstallLog<C, S, R>(m: Machine<C, S, R>, h: History<C>, sv: Server<C, S>, i: nat, a: SnapArgs<S>)
    requires Sound(h) && ServerGlue(m, h, sv, i) && h.term[i] == a.term && SnapOk(m, h, a)
    requires a.lastIncludedIndex > sv.node.commitIndex
    ensures a.lastIncludedIndex < |Adopt(h, i, a.lastIncludedIndex).log[i]|
    ensures Install(sv.node, a).log == Compacted(Adopt(h, i, a.lastIncludedIndex).log[i], a.lastIncludedIndex)
    ensures Through(h, a.term, a.lastIncludedIndex) <= Adopt(h, i, a.lastIncludedIndex).log[i]
  {
    RetainsIffContains(m, h, sv, i, a);
    InstallLogIs(h, sv.node, i, Through(h, a.term, a.lastIncludedIndex), a);
  }

  lemma InstallCommit<C, S, R>(m: Machine<C, S, R>, h: History<C>, sv: Server<C, S>, i: nat, a: SnapArgs<S>)
    requires Sound(h) && ServerGlue(m, h, sv, i) && h.term[i] == a.term && SnapOk(m, h, a)
    requires Continues(h, Adopt(h, i, a.lastIncludedIndex))
    requires Through(h, a.term, a.lastIncludedIndex) <= Adopt(h, i, a.lastIncludedIndex).log[i]
    ensures CommitOk(Adopt(h, i, a.lastIncludedIndex), Install(sv.node, a), i)
  {
    var x := a.lastIncludedIndex;
    var k := Adopt(h, i, x);
    CommittedStays(h, k, Through(h, a.term, x), a.term, a.term);
    assert k.log[i][..x + 1] == Through(h, a.term, x);
  }

  /** The service now lags behind a pending snapshot that stands for the committed prefix. */
  lemma InstallService<C, S, R>(m: Machine<C, S, R>, h: History<C>, sv: Server<C, S>, i: nat, a: SnapArgs<S>)
    requires Sound(h) && ServerGlue(m, h, sv, i) && h.term[i] == a.term && SnapOk(m, h, a)
    requires a.lastIncludedIndex > sv.node.commitIndex
    requires Through(h, a.term, a.lastIncludedIndex) <= Adopt(h, i, a.lastIncludedIndex).log[i]
    ensures SnapshotOk(m, Adopt(h, i, a.lastIncludedIndex), Install(sv.node, a), i)
    ensures ServiceOk(m, Adopt(h, i, a.lastIncludedIndex).log[i], sv.(node := Install(sv.node, a)))
  {
    var x := a.lastIncludedIndex;
    var k := Adopt(h, i, x);
    var l, l' := h.log[i], k.log[i];
    ReplayPrefix(m, h.reign[a.term].log, l', Through(h, a.term, x), x);
    CommittedKept(h, sv.node, i, x);
    var p := l[..sv.node.commitIndex + 1];
    assert Reached(sv) <= sv.node.lastApplied;
    ReplayPrefix(m, l, l', p, sv.svc.index);
    ReplayPrefix(m, l, l', p, Reached(sv));
  }

  lemma InstallGlue<C, S, R>(m: Machine<C, S, R>, h: History<C>, sv: Server<C, S>, i: nat, a: SnapArgs<S>)
    requires Sound(h) && ServerGlue(m, h, sv, i) && sv.node.role == Follower && h.term[i] == a.term && SnapOk(m, h, a)
    requires a.lastIncludedIndex > sv.node.commitIndex
    ensures Sound(Adopt(h, i, a.lastIncludedIndex)) && OthersUndisturbed(h, Adopt(h, i, a.lastIncludedIndex), i)
    ensures ServerGlue(m, Adopt(h, i, a.lastIncludedIndex), sv.(node := Install(sv.node, a)), i)
  {
    var x := a.lastIncludedIndex;
    AdoptSound(h, i, x);
    AdoptOthers(h, i, x);
    AdoptParts(m, h, sv, Install(sv.node, a), i, x);
    InstallLog(m, h, sv, i, a);
    InstallCommit(m, h, sv, i, a);
    InstallService(m, h, sv, i, a);
  }

  lemma SnapInTermGlue<C, S, R>(m: Machine<C, S, R>, h: History<C>, sv: Server<C, S>, i: nat, a: SnapArgs<S>)
    returns (k: History<C>)
    requires Sound(h) && ServerGlue(m, h, sv, i) && sv.node.role == Follower
    requires i != a.leader && SnapOk(m, h, a) && a.term == h.term[i]
    ensures Sound(k) && OthersUndisturbed(h, k, i) && k.reign == h.reign
    ensures ServerGlue(m, k, sv.(node := HandleSnapshot(sv.node, a).0), i)
    ensures MsgGlue(m, k, SnapRep(i, a, HandleSnapshot(sv.node, a).1))
  {
    HandleSnapshotCases(sv.node, a);
    if a.lastIncludedIndex <= sv.node.commitIndex {
      StaleSnapshotGlue(m, h, sv, i, a);
      assert sv.(node := sv.node) == sv;
    } else {
      InstallGlue(m, h, sv, i, a);
    }
    k := Adopt(h, i, a.lastIncludedIndex);
    SnapOkStays(m, h, k, a);
  }

  lemma HandleSnapshotCases<C, S>(nd: Node<C, S>, a: SnapArgs<S>)
    requires nd.role == Follower && a.term == nd.currentTerm
    ensures HandleSnapshot(nd, a) == (if a.lastIncludedIndex <= nd.commitIndex then nd
        else Install(nd, a), SnapReply(a.term))
  {
  }

  lemma HandleSnapshotFollows<C, S>(nd: Node<C, S>, a: SnapArgs<S>)
    requires a.term >= nd.currentTerm
    ensures HandleSnapshot(nd, a) == HandleSnapshot(Follow(nd, a.term), a)
  {
  }

  lemma SnapReqGlue<C, S, R>(m: Machine<C, S, R>, h: History<C>, sv: Server<C, S>, i: nat, a: SnapArgs<S>)
    returns (k: History<C>)
    requires Sound(h) && ServerGlue(m, h, sv, i) && i != a.leader && SnapOk(m, h, a)
    ensures Sound(k) && OthersUndisturbed(h, k, i) && k.reign == h.reign
    ensures ServerGlue(m, k, sv.(node := HandleSnapshot(sv.node, a).0), i)
    ensures MsgGlue(m, k, SnapRep(i, a, HandleSnapshot(sv.node, a).1))
  {
    if a.term < h.term[i] {
      OthersSame(h, i);
      k := h;
      assert sv.(node := sv.node) == sv;
    } else {
      var k1, sv1 := Heard(h, i, a.term), sv.(node := Follow(sv.node, a.term));
      FollowGlue(m, h, sv, i, a.term);
      SnapOkStays(m, h, k1, a);
      HandleSnapshotFollows(sv.node, a);
      k := SnapInTermGlue(m, k1, sv1, i, a);
      OthersTrans(h, k1, k, i);
    }
  }
}
