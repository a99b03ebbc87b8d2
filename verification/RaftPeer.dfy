/**
 The Raft struct as it runs: fields updated in place under the lock, loops over slices, and an
 explicit persister.  Every method is proved to do to the fields what the corresponding function
 of `RaftNode` says, and to leave on disk exactly what a restart would need (`Durable`).
 */
module RaftPeer {
  import opened Common
  import opened TermLogs
  import opened RaftNode

  class Raft<C, S> {
    const n: nat
    const me: nat

    var currentTerm: nat
    var voteFor: Option<nat>
    var role: Role
    var log: Log<C>
    var logOffset: nat
    var commitIndex: nat
    var lastApplied: nat
    const nextIndex: array<nat>
    const matchIndex: array<nat>
    var snapshot: Option<S>
    var pending: Option<Pending<S>>

    /** What was last saved, if anything was. */
    var persister: Option<Persisted<C, S>>

    ghost function View(): Node<C, S>
      reads this, nextIndex, matchIndex
    {
      Node(n, me, currentTerm, voteFor, role, log, logOffset, commitIndex, lastApplied,
           nextIndex[..], matchIndex[..], snapshot, pending)
    }

    ghost predicate Valid()
      reads this
    {
      me < n && nextIndex.Length == n && matchIndex.Length == n && nextIndex != matchIndex && |log| > 0
    }

    /** A crash at this point loses nothing that must survive: reading the disk gives back the current state. */
    ghost predicate Durable()
      reads this
    {
      ReadPersist(persister) == Persisted(currentTerm, voteFor, log, logOffset, snapshot)
    }

    static function ReadPersist(saved: Option<Persisted<C, S>>): Persisted<C, S> {
      match saved
      case None => FirstBoot()
      case Some(p) => p
    }

    method Persist()
      modifies this`persister
      ensures Durable()
    {
      persister := Some(Persisted(currentTerm, voteFor, log, logOffset, snapshot));
    }

    constructor Make(n: nat, me: nat, saved: Option<Persisted<C, S>>)
      requires me < n && |ReadPersist(saved).log| > 0
      ensures Valid() && Durable() && fresh(nextIndex) && fresh(matchIndex)
      ensures persister == saved && View() == Boot(n, me, ReadPersist(saved))
    {
      this.n, this.me := n, me;
      currentTerm, role, log, voteFor := 0, Follower, [Entry(0, None)], None;
      commitIndex, lastApplied, logOffset := 0, 0, 0;
      nextIndex := new nat[n](_ => 0);
      matchIndex := new nat[n](_ => 0);
      snapshot, pending := None, None;
      persister := saved;
      new;
      if saved.Some? {
        currentTerm, voteFor, log := saved.value.currentTerm, saved.value.voteFor, saved.value.log;
        logOffset, snapshot := saved.value.logOffset, saved.value.snapshot;
      }
      commitIndex := logOffset;
      lastApplied := logOffset;
    }

    // -------------------------------------------------------------- elections

    method RequestVote(a: VoteArgs) returns (reply: VoteReply)
      requires Valid() && Durable()
      modifies this
      ensures Valid() && Durable()
      ensures (View(), reply) == HandleVote(old(View()), a)
    {
      if a.term < currentTerm {
        return VoteReply(currentTerm, false);
      }
      if a.term > currentTerm {
        currentTerm, voteFor, role := a.term, None, Follower;
        Persist();
      }
      var upToDate := CandidateLogIsUpToDate(a);
      if (voteFor == None || voteFor == Some(a.candidate)) && upToDate {
        voteFor := Some(a.candidate);
        Persist();
        return VoteReply(currentTerm, true);
      }
      return VoteReply(currentTerm, false);
    }

    method CandidateLogIsUpToDate(a: VoteArgs) returns (ok: bool)
      requires Valid()
      ensures ok == LogIsUpToDate(View(), a)
    {
      var myLastIndex := logOffset + |log| - 1;
      var myLastTerm := log[|log| - 1].term;
      if a.lastLogTerm != myLastTerm {
        return a.lastLogTerm > myLastTerm;
      }
      return a.lastLogIndex >= myLastIndex;
    }

    method BeginElectionLocked() returns (args: VoteArgs)
      requires Valid() && Durable()
      modifies this
      ensures Valid() && Durable()
      ensures (View(), args) == BeginElection(old(View()))
    {
      role := Candidate;
      currentTerm := currentTerm + 1;
      voteFor := Some(me);
      Persist();
      args := VoteArgs(currentTerm, me, logOffset + |log| - 1, log[|log| - 1].term);
    }

    method InitLeader()
      requires Valid() && Durable()
      modifies this`role, nextIndex, matchIndex
      ensures Valid() && Durable()
      ensures View() == LeaderInit(old(View()))
    {
      role := Leader;
      var last := logOffset + |log| - 1;
      for peer := 0 to n
        invariant role == Leader
        invariant forall p :: 0 <= p < peer ==> nextIndex[p] == last + 1 && matchIndex[p] == 0
      {
        nextIndex[peer] := last + 1;
        matchIndex[peer] := 0;
      }
      matchIndex[me] := last;
      nextIndex[me] := last + 1;
      assert nextIndex[..] == LeaderInit(old(View())).nextIndex;
      assert matchIndex[..] == LeaderInit(old(View())).matchIndex;
    }

    /** A vote reply for the candidacy of `electionTerm`; `supporters` is that candidacy's running count. */
    method HandleVoteReply(supporters: set<nat>, peer: nat, electionTerm: nat, r: VoteReply)
      returns (supporters': set<nat>)
      requires Valid() && Durable()
      modifies this, nextIndex, matchIndex
      ensures Valid() && Durable()
      ensures (View(), supporters') == OnVoteReply(old(View()), supporters, peer, electionTerm, r)
    {
      supporters' := supporters;
      if r.term > currentTerm {
        currentTerm, voteFor, role := r.term, None, Follower;
        Persist();
        return;
      }
      if role != Candidate || currentTerm != electionTerm {
        return;
      }
      if r.granted {
        supporters' := supporters + {peer};
        if |supporters'| >= n / 2 + 1 {
          InitLeader();
        }
      }
    }

    // -------------------------------------------------------------- replication

    method FollowTerm(t: nat)
      requires Valid() && Durable() && t >= currentTerm
      modifies this`currentTerm, this`voteFor, this`role, this`persister
      ensures Valid() && Durable()
      ensures View() == Follow(old(View()), t)
    {
      if t > currentTerm {
        currentTerm, voteFor := t, None;
        Persist();
      }
      role := Follower;
    }

    /** The conflicting run of terms a rejection reports. */
    method FirstIndexOfRun(prev: nat, x: nat) returns (firstIndex: nat)
      requires Valid() && logOffset <= prev < logOffset + |log|
      ensures firstIndex == RunStart(View(), prev, x)
    {
      firstIndex := prev;
      while firstIndex > logOffset && log[firstIndex - 1 - logOffset].term == x
        invariant logOffset <= firstIndex <= prev
        invariant RunStart(View(), firstIndex, x) == RunStart(View(), prev, x)
        decreases firstIndex
      {
        firstIndex := firstIndex - 1;
      }
    }

    method StoreEntries(prev: nat, entries: Log<C>)
      requires Valid() && Durable() && logOffset <= prev < logOffset + |log|
      modifies this`log, this`persister
      ensures Valid() && Durable()
      ensures log == MergeEntries(old(log), prev + 1 - logOffset, entries)
    {
      ghost var log0 := log;
      var i := 0;
      while i < |entries|
        invariant 0 <= i <= |entries| && log == log0 && prev + 1 + i <= logOffset + |log|
        invariant Valid() && Durable()
        invariant MergeEntries(log0, prev + 1 + i - logOffset, entries[i..]) == MergeEntries(log0,
            prev + 1 - logOffset, entries)
      {
        var at := prev + 1 + i - logOffset;
        if at >= |log| {
          log := log + entries[i..];
          Persist();
          break;
        }
        if log[at].term != entries[i].term {
          log := log[..at] + entries[i..];
          Persist();
          break;
        }
        assert entries[i..][1..] == entries[i + 1..];
        i := i + 1;
      }
    }

    method AppendEntry(a: AppendArgs<C>) returns (reply: AppendReply)
      requires Valid() && Durable()
      modifies this
      ensures Valid() && Durable()
      ensures (View(), reply) == HandleAppend(old(View()), a)
    {
      if a.term < currentTerm {
        return AppendReply(currentTerm, false, Some(0), 0, 0);
      }
      FollowTerm(a.term);
      if a.prevLogIndex < logOffset {
        return AppendReply(currentTerm, false, None, 0, logOffset + 1);
      }
      if a.prevLogIndex > logOffset + |log| - 1 {
        return AppendReply(currentTerm, false, None, 0, logOffset + |log|);
      }
      var x := log[a.prevLogIndex - logOffset].term;
      if x != a.prevLogTerm {
        var first := FirstIndexOfRun(a.prevLogIndex, x);
        return AppendReply(currentTerm, false, Some(x), first, logOffset + |log|);
      }
      StoreEntries(a.prevLogIndex, a.entries);
      var newCommitIndex := Min(a.leaderCommit, a.prevLogIndex + |a.entries|);
      if newCommitIndex > commitIndex {
        commitIndex := newCommitIndex;
      }
      return AppendReply(currentTerm, true, Some(0), 0, 0);
    }

    method Start(c: C) returns (index: int, term: nat, isLeader: bool)
      requires Valid() && Durable()
      modifies this, nextIndex, matchIndex
      ensures Valid() && Durable()
      ensures View() == StartCommand(old(View()), c)
      ensures isLeader == (old(role) == Leader) && term == old(currentTerm)
      ensures index == if isLeader then View().LastIndex() else -1
    {
      term := currentTerm;
      if role != Leader {
        return -1, term, false;
      }
      log := log + [Entry(term, Some(c))];
      index := logOffset + |log| - 1;
      matchIndex[me] := index;
      nextIndex[me] := index + 1;
      Persist();
      return index, term, true;
    }

    method BeginHeartbeat(peer: nat) returns (args: AppendArgs<C>)
      requires Valid() && peer < n && nextIndex[peer] > 0 && logOffset <= nextIndex[peer] - 1 < logOffset + |log|
      ensures args == BeginAppend(View(), peer)
    {
      var next := nextIndex[peer];
      args := AppendArgs(currentTerm, me, next - 1, log[next - 1 - logOffset].term, log[next - logOffset..],
          commitIndex);
    }

    /** How many peers are known to hold index `i`. */
    method CountAccepted(i: nat) returns (accepted: nat)
      requires Valid()
      ensures accepted == CountAtLeast(matchIndex[..], i)
    {
      accepted := 0;
      for peer := 0 to n
        invariant accepted == CountAtLeast(matchIndex[..peer], i)
      {
        assert matchIndex[..peer + 1][..peer] == matchIndex[..peer];
        if matchIndex[peer] >= i {
          accepted := accepted + 1;
        }
      }
      assert matchIndex[..n] == matchIndex[..];
    }

    method PushForwardLocked()
      requires Valid() && Durable() && logOffset <= commitIndex
      modifies this`commitIndex
      ensures Valid() && Durable()
      ensures View() == PushForward(old(View()))
    {
      ghost var v := View();
      var i := logOffset + |log| - 1;
      while i > commitIndex
        invariant View() == v && i <= v.LastIndex()
        invariant CommitPoint(v, i) == CommitPoint(v, v.LastIndex())
        decreases i - commitIndex
      {
        if log[i - logOffset].term == currentTerm {
          var accepted := CountAccepted(i);
          if accepted >= n / 2 + 1 {
            commitIndex := i;
            break;
          }
        }
        i := i - 1;
      }
    }

    /** The last retained index holding term `x`, if any. */
    method LastIndexOfTerm(x: nat) returns (found: Option<nat>)
      requires Valid()
      ensures found == LastOfTerm(View(), View().LastIndex(), x)
    {
      var i := logOffset + |log| - 1;
      while i >= logOffset
        invariant logOffset - 1 <= i <= View().LastIndex()
        invariant LastOfTerm(View(), i, x) == LastOfTerm(View(), View().LastIndex(), x)
      {
        if log[i - logOffset].term == x {
          return Some(i);
        }
        i := i - 1;
      }
      return None;
    }

    method AdvancePeer(peer: nat, matched: nat)
      requires Valid() && peer < n
      modifies nextIndex, matchIndex
      ensures Valid() && View() == Advance(old(View()), peer, matched)
    {
      if matched > matchIndex[peer] {
        matchIndex[peer] := matched;
      }
      if matched + 1 > nextIndex[peer] {
        nextIndex[peer] := matched + 1;
      }
    }

    method LowerPeer(peer: nat, r: AppendReply)
      requires Valid() && peer < n
      modifies nextIndex
      ensures Valid() && View() == old(View()).(nextIndex := old(nextIndex[..])[peer := BackUp(old(View()), r)])
    {
      match r.xTerm
      case None => nextIndex[peer] := r.xLen;
      case Some(x) =>
        var last := LastIndexOfTerm(x);
        nextIndex[peer] := if last.Some? then last.value + 1 else r.xIndex;
    }

    method HandleAppendReply(peer: nat, a: AppendArgs<C>, r: AppendReply)
      requires Valid() && Durable() && peer < n && logOffset <= commitIndex
      modifies this, nextIndex, matchIndex
      ensures Valid() && Durable()
      ensures View() == OnAppendReply(old(View()), peer, a, r)
    {
      if r.term > currentTerm {
        currentTerm, role, voteFor := r.term, Follower, None;
        Persist();
        return;
      }
      if role != Leader || currentTerm != a.term {
        return;
      }
      if r.success {
        AdvancePeer(peer, a.prevLogIndex + |a.entries|);
        PushForwardLocked();
        return;
      }
      if nextIndex[peer] != a.prevLogIndex + 1 || nextIndex[peer] <= matchIndex[peer] + 1 {
        return;
      }
      LowerPeer(peer, r);
    }

    // -------------------------------------------------------------- compaction

    method Snapshot(index: nat, data: Option<S>)
      requires Valid() && Durable()
      modifies this
      ensures Valid() && Durable()
      ensures View() == TakeSnapshot(old(View()), index, data)
    {
      if index <= logOffset || index > lastApplied || index > logOffset + |log| - 1 {
        return;
      }
      var snapshotTerm := log[index - logOffset].term;
      var firstRetained := index - logOffset + 1;
      log := [Entry(snapshotTerm, None)] + log[firstRetained..];
      logOffset := index;
      snapshot := data;
      Persist();
    }

    method BeginInstallSnapshot() returns (args: SnapArgs<S>)
      requires Valid()
      ensures args == BeginSnapshot(View())
    {
      args := SnapArgs(currentTerm, me, logOffset, log[0].term, snapshot);
    }

    method InstallSnapshot(a: SnapArgs<S>) returns (reply: SnapReply)
      requires Valid() && Durable()
      modifies this
      ensures Valid() && Durable()
      ensures (View(), reply) == HandleSnapshot(old(View()), a)
    {
      if a.term < currentTerm {
        return SnapReply(currentTerm);
      }
      FollowTerm(a.term);
      reply := SnapReply(currentTerm);
      if a.lastIncludedIndex <= commitIndex {
        return;
      }
      InstallNewer(a);
    }

    /** Replace the compacted prefix, keeping the suffix after it when it matches. */
    method InstallNewer(a: SnapArgs<S>)
      requires Valid() && a.lastIncludedIndex > commitIndex
      modifies this
      ensures Valid() && Durable()
      ensures View() == Install(old(View()), a)
    {
      var retainSuffix := logOffset <= a.lastIncludedIndex <= logOffset + |log| - 1
                          && log[a.lastIncludedIndex - logOffset].term == a.lastIncludedTerm;
      var newLog := [Entry(a.lastIncludedTerm, None)];
      if retainSuffix {
        newLog := newLog + log[a.lastIncludedIndex - logOffset + 1..];
      }
      log := newLog;
      logOffset := a.lastIncludedIndex;
      snapshot := a.data;
      commitIndex := a.lastIncludedIndex;
      lastApplied := a.lastIncludedIndex;
      pending := Some(Pending(a.data, a.lastIncludedTerm, a.lastIncludedIndex));
      Persist();
    }

    method HandleSnapshotReply(peer: nat, a: SnapArgs<S>, r: SnapReply)
      requires Valid() && Durable() && peer < n
      modifies this, nextIndex, matchIndex
      ensures Valid() && Durable()
      ensures View() == OnSnapReply(old(View()), peer, a, r)
    {
      if r.term > currentTerm {
        currentTerm, role, voteFor := r.term, Follower, None;
        Persist();
        return;
      }
      if role != Leader || currentTerm != a.term {
        return;
      }
      AdvancePeer(peer, a.lastIncludedIndex);
    }

    // -------------------------------------------------------------- applying

    method ApplyNext() returns (msg: Option<ApplyMsg<C, S>>)
      requires Valid() && Durable()
      requires pending.None? && lastApplied < commitIndex ==> View().Holds(lastApplied + 1)
      modifies this`pending, this`lastApplied
      ensures Valid() && Durable()
      ensures (View(), msg) == ApplierTurn(old(View()))
    {
      if pending.Some? {
        msg := Some(Restore(pending.value.index, pending.value.term, pending.value.data));
        pending := None;
      } else if lastApplied < commitIndex {
        lastApplied := lastApplied + 1;
        msg := Some(Command(lastApplied, log[lastApplied - logOffset].cmd));
      } else {
        msg := None;
      }
    }
  }
}
