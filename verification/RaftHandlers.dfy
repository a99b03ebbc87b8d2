/**
 What each lock-held region of a peer amounts to, stated for every node and every message as rules about terms,
 indexes and majorities rather than by the steps that compute them.
 */
module RaftHandlers {
  import opened Common
  import opened TermLogs
  import opened RaftNode

  // ---------------------------------------------------------------- voting

  /** The candidate's log is at least as up to date: a later last term, or the same and no shorter. */
  ghost predicate AtLeastAsGood<C, S>(nd: Node<C, S>, a: VoteArgs)
    requires |nd.log| > 0
  {
    var mine := nd.log[|nd.log| - 1].term;
    a.lastLogTerm > mine || (a.lastLogTerm == mine && a.lastLogIndex >= nd.logOffset + |nd.log| - 1)
  }

  /** A vote is granted exactly in a term not past, to the first asker of that term, whose log is good enough. */
  lemma VoteGrantedIff<C, S>(nd: Node<C, S>, a: VoteArgs)
    requires |nd.log| > 0
    ensures var (nd', r) := HandleVote(nd, a);
      && (r.granted <==>
            && a.term >= nd.currentTerm && AtLeastAsGood(nd, a)
            && (a.term > nd.currentTerm || nd.voteFor == None || nd.voteFor == Some(a.candidate)))
      && (r.granted ==> nd'.voteFor == Some(a.candidate) && nd'.currentTerm == a.term)
      && (!r.granted && a.term <= nd.currentTerm ==> nd' == nd)
      && (a.term > nd.currentTerm ==> nd'.role == Follower && (!r.granted ==> nd'.voteFor == None))
      && (a.term <= nd.currentTerm ==> nd'.role == nd.role)
      && r.term == nd'.currentTerm && nd'.currentTerm >= a.term && nd'.currentTerm >= nd.currentTerm
      && (nd'.currentTerm == a.term || nd'.currentTerm == nd.currentTerm)
      && nd' == nd.(currentTerm := nd'.currentTerm, voteFor := nd'.voteFor, role := nd'.role)
  {
  }

  /** Standing for election: the next term, the own vote, and a request that names the end of the own log. */
  lemma StandsInNextTerm<C, S>(nd: Node<C, S>)
    requires |nd.log| > 0
    ensures var (nd', a) := BeginElection(nd);
      && nd' == nd.(currentTerm := nd.currentTerm + 1, role := Candidate, voteFor := Some(nd.me))
      && a.term == nd'.currentTerm && a.candidate == nd.me && AtLeastAsGood(nd, a)
      && (forall b: VoteArgs :: b.lastLogTerm == a.lastLogTerm && AtLeastAsGood(nd, b) ==>
          b.lastLogIndex >= a.lastLogIndex)
      && (forall b: VoteArgs :: AtLeastAsGood(nd, b) ==> b.lastLogTerm >= a.lastLogTerm)
  {
  }

  /** A candidate becomes leader exactly on a granted vote of its term that completes a strict majority. */
  lemma ElectedIff<C, S>(nd: Node<C, S>, votes: set<nat>, peer: nat, term: nat, r: VoteReply)
    requires |nd.log| > 0 && nd.role != Leader
    ensures var (nd', v) := OnVoteReply(nd, votes, peer, term, r);
      && (nd'.role == Leader <==>
            && nd.role == Candidate && nd.currentTerm == term && r.granted && r.term <= nd.currentTerm
            && 2 * |votes + {peer}| > nd.n)
      && (v == votes + {peer} || (v == votes &&
            !(nd.role == Candidate && nd.currentTerm == term && r.granted && r.term <= nd.currentTerm)))
      && (nd'.role == Leader ==> LeadsAfresh(nd, nd'))
      && (nd'.role != Leader && r.term <= nd.currentTerm ==> nd' == nd)
  {
  }

  /** A fresh leader probes every peer just past its own log and knows nothing of what they have. */
  ghost predicate LeadsAfresh<C, S>(nd: Node<C, S>, nd': Node<C, S>) {
    && nd' == nd.(role := Leader, nextIndex := nd'.nextIndex, matchIndex := nd'.matchIndex)
    && |nd'.nextIndex| == |nd'.matchIndex| == nd.n
    && (forall p :: 0 <= p < nd.n ==> nd'.nextIndex[p] == nd.logOffset + |nd.log|)
    && (forall p :: 0 <= p < nd.n ==> nd'.matchIndex[p] == if p == nd.me then nd.logOffset + |nd.log| - 1 else 0)
  }

  /** A reply from a later term makes any peer a follower of that term with its vote free, and changes nothing else. */
  lemma LaterTermWins<C, S>(nd: Node<C, S>, votes: set<nat>, peer: nat, t: nat, vr: VoteReply,
                            a: AppendArgs<C>, ar: AppendReply, sa: SnapArgs<S>, sr: SnapReply)
    requires |nd.log| > 0 && peer < |nd.nextIndex| && peer < |nd.matchIndex| && nd.logOffset <= nd.commitIndex
    ensures vr.term > nd.currentTerm ==>
        OnVoteReply(nd, votes, peer, t, vr).0 == nd.(currentTerm := vr.term, voteFor := None, role := Follower)
    ensures ar.term > nd.currentTerm ==>
        OnAppendReply(nd, peer, a, ar) == nd.(currentTerm := ar.term, voteFor := None, role := Follower)
    ensures sr.term > nd.currentTerm ==>
        OnSnapReply(nd, peer, sa, sr) == nd.(currentTerm := sr.term, voteFor := None, role := Follower)
  {
  }

  // ---------------------------------------------------------------- appending

  /** The entry before the new ones is there, with the leader's term. */
  ghost predicate PrevAgrees<C, S>(nd: Node<C, S>, a: AppendArgs<C>) {
    && nd.logOffset <= a.prevLogIndex < nd.logOffset + |nd.log|
    && nd.log[a.prevLogIndex - nd.logOffset].term == a.prevLogTerm
  }

  /** Every append of a term not past makes the peer a follower of that term; a stale one changes nothing. */
  lemma AppendFollows<C, S>(nd: Node<C, S>, a: AppendArgs<C>)
    requires |nd.log| > 0
    ensures var (nd', r) := HandleAppend(nd, a);
      && (r.success <==> a.term >= nd.currentTerm && PrevAgrees(nd, a))
      && r.term == nd'.currentTerm
      && (a.term < nd.currentTerm ==> nd' == nd)
      && (a.term >= nd.currentTerm ==> nd'.role == Follower && nd'.currentTerm == a.term)
      && nd'.voteFor == (if a.term > nd.currentTerm then None else nd.voteFor)
      && (!r.success ==> nd'.log == nd.log && nd'.commitIndex == nd.commitIndex)
      && nd' == nd.(currentTerm := nd'.currentTerm, voteFor := nd'.voteFor, role := nd'.role,
                    log := nd'.log, commitIndex := nd'.commitIndex)
  {
  }

  /**
   The follower's commit index after an accepted append covers exactly what it covered before, and what the leader
   had committed as far as this request vouches for it.
   */
  lemma AppendCommits<C, S>(nd: Node<C, S>, a: AppendArgs<C>, c: nat)
    requires |nd.log| > 0
    ensures var (nd', r) := HandleAppend(nd, a);
      && (r.success ==>
            (c <= nd'.commitIndex <==>
               c <= nd.commitIndex || (c <= a.leaderCommit && c <= a.prevLogIndex + |a.entries|)))
      && (!r.success ==> nd'.commitIndex == nd.commitIndex)
  {
  }

  /** The first `d` entries are already there and the next one is not. */
  ghost predicate AgreesFor<C>(log: Log<C>, at: nat, entries: Log<C>, d: nat) {
    && d <= |entries| && at + d <= |log|
    && (forall k :: 0 <= k < d ==> log[at + k].term == entries[k].term)
    && (d < |entries| && at + d < |log| ==> log[at + d].term != entries[d].term)
  }

  /**
   What storing entries does: everything up to the first conflict or the end of the log stays; if that is not all of
   the entries, the log ends with them from there on, and otherwise the log is untouched.
   */
  lemma {:induction false} StoredFromFirstConflict<C>(log: Log<C>, at: nat, entries: Log<C>) returns (d: nat)
    requires at <= |log|
    ensures AgreesFor(log, at, entries, d)
    ensures MergeEntries(log, at, entries) == if d == |entries| then log else log[..at + d] + entries[d..]
    decreases |entries|
  {
    if |entries| > 0 && at < |log| && log[at].term == entries[0].term {
      var e := StoredFromFirstConflict(log, at + 1, entries[1..]);
      d := e + 1;
      assert entries[1..][e..] == entries[d..];
      forall k | 0 <= k < d ensures log[at + k].term == entries[k].term {
        if k > 0 { assert log[at + 1 + (k - 1)].term == entries[1..][k - 1].term; }
      }
    } else {
      d := 0;
    }
  }

  /** An accepted append changes the log so, and no other way. */
  lemma AppendStores<C, S>(nd: Node<C, S>, a: AppendArgs<C>) returns (d: nat)
    requires |nd.log| > 0 && a.term >= nd.currentTerm && PrevAgrees(nd, a)
    ensures var at := a.prevLogIndex + 1 - nd.logOffset;
      && at <= |nd.log| && AgreesFor(nd.log, at, a.entries, d)
      && HandleAppend(nd, a).0.log == if d == |a.entries| then nd.log else nd.log[..at + d] + a.entries[d..]
  {
    d := StoredFromFirstConflict(nd.log, a.prevLogIndex + 1 - nd.logOffset, a.entries);
  }

  lemma {:induction false} RunStartIsFirst<C, S>(nd: Node<C, S>, i: nat, x: nat)
    requires nd.Holds(i) && nd.TermAt(i) == x
    ensures var r := RunStart(nd, i, x);
      && (forall k :: r <= k <= i ==> nd.TermAt(k) == x) && (r > nd.logOffset ==> nd.TermAt(r - 1) != x)
    decreases i
  {
    if i > nd.logOffset && nd.TermAt(i - 1) == x {
      RunStartIsFirst(nd, i - 1, x);
    }
  }

  /**
   A rejection in the follower's term tells the leader where to look: just above the snapshot when the probe is
   below it, just past the end when it is beyond, and otherwise the term found there and where its run begins.
   */
  lemma RejectionTells<C, S>(nd: Node<C, S>, a: AppendArgs<C>)
    requires |nd.log| > 0 && a.term >= nd.currentTerm && !PrevAgrees(nd, a)
    ensures var r, last := HandleAppend(nd, a).1, nd.logOffset + |nd.log| - 1;
      && (a.prevLogIndex < nd.logOffset ==> r.xTerm == None && r.xLen == nd.logOffset + 1)
      && (a.prevLogIndex > last ==> r.xTerm == None && r.xLen == last + 1)
      && (nd.logOffset <= a.prevLogIndex <= last ==>
            && r.xTerm == Some(nd.TermAt(a.prevLogIndex))
            && nd.logOffset <= r.xIndex <= a.prevLogIndex
            && (forall k :: r.xIndex <= k <= a.prevLogIndex ==> Some(nd.TermAt(k)) == r.xTerm)
            && (r.xIndex > nd.logOffset ==> Some(nd.TermAt(r.xIndex - 1)) != r.xTerm))
  {
    if nd.logOffset <= a.prevLogIndex <= nd.LastIndex() {
      var nd1 := Follow(nd, a.term);
      RunStartIsFirst(nd1, a.prevLogIndex, nd1.TermAt(a.prevLogIndex));
      forall k | HandleAppend(nd, a).1.xIndex <= k <= a.prevLogIndex
        ensures nd.TermAt(k) == nd.TermAt(a.prevLogIndex)
      {
        assert nd1.TermAt(k) == nd1.TermAt(a.prevLogIndex);
      }
    }
  }

  // ---------------------------------------------------------------- leading

  /** Start on a leader adds one entry of its term at the end, counts it as its own, and elsewhere does nothing. */
  lemma StartAppendsOne<C, S>(nd: Node<C, S>, c: C)
    requires nd.me < |nd.nextIndex| && nd.me < |nd.matchIndex|
    ensures var nd' := StartCommand(nd, c);
      && (nd.role != Leader ==> nd' == nd)
      && (nd.role == Leader ==>
            && |nd'.log| == |nd.log| + 1 && nd'.log[..|nd.log|] == nd.log
            && nd'.log[|nd.log|].term == nd.currentTerm && nd'.log[|nd.log|].cmd == Some(c)
            && nd'.matchIndex == nd.matchIndex[nd.me := nd'.LastIndex()]
            && nd'.nextIndex == nd.nextIndex[nd.me := nd'.LastIndex() + 1]
            && nd' == nd.(log := nd'.log, matchIndex := nd'.matchIndex, nextIndex := nd'.nextIndex))
  {
  }

  /** The append request for a peer carries everything from its next index to the end of the log. */
  lemma RequestCarriesTheRest<C, S>(nd: Node<C, S>, p: nat)
    requires p < |nd.nextIndex| && nd.nextIndex[p] > 0 && nd.Holds(nd.nextIndex[p] - 1)
    ensures var a := BeginAppend(nd, p);
      && a.term == nd.currentTerm && a.leader == nd.me && a.leaderCommit == nd.commitIndex
      && a.prevLogIndex + 1 == nd.nextIndex[p] && PrevAgrees(nd, a)
      && a.prevLogIndex + |a.entries| == nd.LastIndex()
      && (forall k :: 0 <= k < |a.entries| ==> a.entries[k] == nd.log[nd.nextIndex[p] + k - nd.logOffset])
  {
  }

  /** The last index holding a term, if any, at or below `i`. */
  lemma {:induction false} LastOfTermIsLast<C, S>(nd: Node<C, S>, i: int, x: nat)
    requires nd.logOffset - 1 <= i <= nd.LastIndex()
    ensures var r := LastOfTerm(nd, i, x);
      && (r.Some? ==> nd.logOffset <= r.value <= i && nd.TermAt(r.value) == x)
      && (forall k :: (if r.Some? then r.value else nd.logOffset - 1) < k <= i ==> nd.TermAt(k) != x)
    decreases i - nd.logOffset + 1
  {
    if i >= nd.logOffset && nd.TermAt(i) != x {
      LastOfTermIsLast(nd, i - 1, x);
    }
  }

  /**
   Where a leader probes after a rejection it acts on: past its own last entry of the conflicting term when it has one,
   at the start of the follower's run when it has none, and at the follower's own suggestion without a term.
   */
  lemma ProbesWhereTold<C, S>(nd: Node<C, S>, p: nat, a: AppendArgs<C>, r: AppendReply)
    requires p < |nd.nextIndex| && p < |nd.matchIndex| && |nd.log| > 0 && nd.logOffset <= nd.commitIndex
    requires nd.role == Leader && nd.currentTerm == a.term && r.term <= nd.currentTerm && !r.success
    ensures var nd' := OnAppendReply(nd, p, a, r);
      && nd' == nd.(nextIndex := nd'.nextIndex) && |nd'.nextIndex| == |nd.nextIndex|
      && (forall q :: 0 <= q < |nd.nextIndex| && q != p ==> nd'.nextIndex[q] == nd.nextIndex[q])
      && if nd.nextIndex[p] != a.prevLogIndex + 1 || nd.nextIndex[p] <= nd.matchIndex[p] + 1
         then nd'.nextIndex[p] == nd.nextIndex[p]
         else match r.xTerm
              case None => nd'.nextIndex[p] == r.xLen
              case Some(x) =>
                || (nd.logOffset < nd'.nextIndex[p] <= nd.LastIndex() + 1 && nd.TermAt(nd'.nextIndex[p] - 1) == x
                    && forall k :: nd'.nextIndex[p] <= k <= nd.LastIndex() ==> nd.TermAt(k) != x)
                || (nd'.nextIndex[p] == r.xIndex && forall k :: nd.logOffset <= k <= nd.LastIndex() ==>
                    nd.TermAt(k) != x)
  {
    if r.xTerm.Some? { LastOfTermIsLast(nd, nd.LastIndex(), r.xTerm.value); }
  }

  // ---------------------------------------------------------------- committing

  /** Index `i` past the commit index holds an entry of the current term that a strict majority has. */
  ghost predicate Committable<C, S>(nd: Node<C, S>, i: nat) {
    && nd.commitIndex < i < nd.logOffset + |nd.log| && nd.logOffset <= i
    && nd.log[i - nd.logOffset].term == nd.currentTerm && 2 * |AtLeast(nd.matchIndex, i)| > nd.n
  }

  /** The commit rule: the new commit index is the largest committable index, or the old one when there is none. */
  lemma CommitsLargest<C, S>(nd: Node<C, S>)
    requires nd.logOffset <= nd.commitIndex
    ensures var nd' := PushForward(nd);
      && nd' == nd.(commitIndex := nd'.commitIndex)
      && (nd'.commitIndex == nd.commitIndex || Committable(nd, nd'.commitIndex))
      && (forall i: nat :: Committable(nd, i) ==> i <= nd'.commitIndex)
  {
    CommitPointIsLargest(nd, nd.LastIndex());
    forall i: nat ensures CountAtLeast(nd.matchIndex, i) == |AtLeast(nd.matchIndex, i)| {
      CountIsSize(nd.matchIndex, i);
    }
    forall i: nat | Committable(nd, i) ensures i <= PushForward(nd).commitIndex {
      assert nd.Holds(i) && MayCommit(nd, i);
    }
  }

  /** A peer's indexes move up to cover what it is known to have, and never down. */
  ghost predicate Covers<C, S>(nd: Node<C, S>, nd': Node<C, S>, p: nat, x: nat)
    requires p < |nd.nextIndex| && p < |nd.matchIndex|
  {
    && |nd'.nextIndex| == |nd.nextIndex| && |nd'.matchIndex| == |nd.matchIndex|
    && (forall q :: 0 <= q < |nd.nextIndex| && q != p ==> nd'.nextIndex[q] == nd.nextIndex[q])
    && (forall q :: 0 <= q < |nd.matchIndex| && q != p ==> nd'.matchIndex[q] == nd.matchIndex[q])
    && nd'.matchIndex[p] >= nd.matchIndex[p] && nd'.matchIndex[p] >= x && nd'.matchIndex[p] in {nd.matchIndex[p], x}
    && nd'.nextIndex[p] >= nd.nextIndex[p] && nd'.nextIndex[p] >= x + 1 && nd'.nextIndex[p] in {nd.nextIndex[p], x + 1}
  }

  /** A successful append moves the peer up to what was sent, and the commit rule is applied to the result. */
  lemma SuccessAdvances<C, S>(nd: Node<C, S>, p: nat, a: AppendArgs<C>, r: AppendReply) returns (mid: Node<C, S>)
    requires p < |nd.nextIndex| && p < |nd.matchIndex| && |nd.log| > 0 && nd.logOffset <= nd.commitIndex
    requires nd.role == Leader && nd.currentTerm == a.term && r.term <= nd.currentTerm && r.success
    ensures mid == nd.(nextIndex := mid.nextIndex, matchIndex := mid.matchIndex)
    ensures Covers(nd, mid, p, a.prevLogIndex + |a.entries|)
    ensures var nd' := OnAppendReply(nd, p, a, r);
      && nd' == mid.(commitIndex := nd'.commitIndex)
      && (nd'.commitIndex == nd.commitIndex || Committable(mid, nd'.commitIndex))
      && (forall i: nat :: Committable(mid, i) ==> i <= nd'.commitIndex)
  {
    mid := Advance(nd, p, a.prevLogIndex + |a.entries|);
    CommitsLargest(mid);
  }

  /** An acknowledged snapshot moves the peer past it. */
  lemma SnapshotAdvances<C, S>(nd: Node<C, S>, p: nat, a: SnapArgs<S>, r: SnapReply)
    requires p < |nd.nextIndex| && p < |nd.matchIndex|
    requires nd.role == Leader && nd.currentTerm == a.term && r.term <= nd.currentTerm
    ensures var nd' := OnSnapReply(nd, p, a, r);
      nd' == nd.(nextIndex := nd'.nextIndex, matchIndex := nd'.matchIndex) && Covers(nd, nd', p, a.lastIncludedIndex)
  {
  }

  // ---------------------------------------------------------------- compacting and applying

  ghost function EntryAt<C, S>(nd: Node<C, S>, k: nat): Entry<C>
    requires nd.Holds(k)
  {
    nd.log[k - nd.logOffset]
  }

  /** The log from index `i` on is the same on both sides. */
  ghost predicate SameFrom<C, S>(nd: Node<C, S>, nd': Node<C, S>, i: nat) {
    && nd'.LastIndex() == nd.LastIndex() && nd.Holds(i) && nd'.Holds(i) && nd'.TermAt(i) == nd.TermAt(i)
    && forall k: nat :: i < k <= nd.LastIndex() ==> EntryAt(nd', k) == EntryAt(nd, k)
  }

  /** A snapshot of an applied, not yet compacted index compacts exactly through it; any other is ignored. */
  lemma SnapshotCompacts<C, S>(nd: Node<C, S>, index: nat, data: Option<S>)
    ensures var nd' := TakeSnapshot(nd, index, data);
      if nd.logOffset < index <= nd.lastApplied && index <= nd.LastIndex()
      then
        && nd'.logOffset == index && nd'.snapshot == data && SameFrom(nd, nd', index)
        && nd' == nd.(log := nd'.log, logOffset := index, snapshot := data)
      else nd' == nd
  {
  }

  /**
   An installed snapshot beyond the commit index becomes the compacted prefix, with everything through it committed
   and applied and the snapshot queued for the service; the log after it stays exactly when its term agrees there.
   */
  lemma SnapshotInstalls<C, S>(nd: Node<C, S>, a: SnapArgs<S>)
    ensures var (nd', r) := HandleSnapshot(nd, a);
      && (a.term < nd.currentTerm ==> nd' == nd) && r.term == nd'.currentTerm
      && (a.term >= nd.currentTerm ==> nd'.currentTerm == a.term && nd'.role == Follower)
      && (a.term >= nd.currentTerm && a.lastIncludedIndex <= nd.commitIndex ==>
            nd' == nd.(currentTerm := a.term, voteFor := nd'.voteFor, role := Follower))
      && nd'.voteFor == (if a.term > nd.currentTerm then None else nd.voteFor)
      && (a.term >= nd.currentTerm && a.lastIncludedIndex > nd.commitIndex ==>
            && nd'.logOffset == nd'.commitIndex == nd'.lastApplied == a.lastIncludedIndex
            && nd'.snapshot == a.data
            && nd'.pending == Some(Pending(a.data, a.lastIncludedTerm, a.lastIncludedIndex))
            && if nd.Holds(a.lastIncludedIndex) && nd.TermAt(a.lastIncludedIndex) == a.lastIncludedTerm
               then SameFrom(nd, nd', a.lastIncludedIndex)
               else |nd'.log| == 1 && nd'.log[0].term == a.lastIncludedTerm)
  {
  }

  /** The applier hands over a queued snapshot first, then each committed command in turn, and rests only when done. */
  lemma ApplierHandsOver<C, S>(nd: Node<C, S>)
    requires nd.pending.None? && nd.lastApplied < nd.commitIndex ==> nd.Holds(nd.lastApplied + 1)
    ensures var (nd', msg) := ApplierTurn(nd);
      && (msg == None <==> nd.pending == None && nd.lastApplied >= nd.commitIndex)
      && (msg == None ==> nd' == nd)
      && (nd.pending.Some? ==>
            nd' == nd.(pending := None)
                && msg == Some(Restore(nd.pending.value.index, nd.pending.value.term, nd.pending.value.data)))
      && (nd.pending.None? && msg.Some? ==>
            && nd' == nd.(lastApplied := nd.lastApplied + 1)
            && msg.value == Command(nd.lastApplied + 1, nd.log[nd.lastApplied + 1 - nd.logOffset].cmd))
  {
  }

  /** A restart keeps what was persisted and starts as a follower with the compacted prefix applied. */
  lemma RestartKeeps<C, S>(nd: Node<C, S>)
    ensures var nd' := Boot(nd.n, nd.me, ToPersist(nd));
      && nd'.currentTerm == nd.currentTerm && nd'.voteFor == nd.voteFor && nd'.log == nd.log
      && nd'.logOffset == nd.logOffset && nd'.snapshot == nd.snapshot && nd'.role == Follower
      && nd'.commitIndex == nd'.lastApplied == nd.logOffset && nd'.n == nd.n && nd'.me == nd.me && nd'.pending == None
  {
  }
}
