/**
 One Raft peer: its fields, its RPC arguments and replies, and what every region it executes under
 its lock does to those fields.  `log[0]` stands for the entry covered by the latest snapshot, so
 logical index `i` lives at `log[i - logOffset]`.
 */
module RaftNode {
  import opened Common
  import opened TermLogs

  datatype Role = Leader | Candidate | Follower

  /** A snapshot received from the leader and not yet handed to the service. */
  datatype Pending<S> = Pending(data: Option<S>, term: nat, index: nat)

  datatype Node<C, S> = Node(
    n: nat,
    me: nat,
    currentTerm: nat,
    voteFor: Option<nat>,
    role: Role,
    log: Log<C>,
    logOffset: nat,
    commitIndex: nat,
    lastApplied: nat,
    nextIndex: seq<nat>,
    matchIndex: seq<nat>,
    snapshot: Option<S>,
    pending: Option<Pending<S>>)
  {
    function LastIndex(): int {
      logOffset + |log| - 1
    }

    predicate Holds(i: int) {
      logOffset <= i <= LastIndex()
    }

    function TermAt(i: int): nat
      requires Holds(i)
    {
      log[i - logOffset].term
    }
  }

  datatype VoteArgs = VoteArgs(term: nat, candidate: nat, lastLogIndex: nat, lastLogTerm: nat)
  datatype VoteReply = VoteReply(term: nat, granted: bool)

  datatype AppendArgs<C> = AppendArgs(
    term: nat, leader: nat, prevLogIndex: nat, prevLogTerm: nat, entries: Log<C>, leaderCommit: nat)

  /** `xTerm` is the conflicting term; `None` asks the leader to use `xLen` instead. */
  datatype AppendReply = AppendReply(term: nat, success: bool, xTerm: Option<nat>, xIndex: nat, xLen: nat)

  datatype SnapArgs<S> = SnapArgs(term: nat, leader: nat, lastIncludedIndex: nat, lastIncludedTerm: nat,
      data: Option<S>)
  datatype SnapReply = SnapReply(term: nat)

  datatype ApplyMsg<C, S> =
    | Command(index: nat, cmd: Option<C>)
    | Restore(index: nat, term: nat, data: Option<S>)

  /** What survives a crash. */
  datatype Persisted<C, S> = Persisted(currentTerm: nat, voteFor: Option<nat>, log: Log<C>, logOffset: nat,
      snapshot: Option<S>)

  function ToPersist<C, S>(nd: Node<C, S>): Persisted<C, S> {
    Persisted(nd.currentTerm, nd.voteFor, nd.log, nd.logOffset, nd.snapshot)
  }

  // ---------------------------------------------------------------- starting up

  function FirstBoot<C, S>(): Persisted<C, S> {
    Persisted(0, None, [Entry(0, None)], 0, None)
  }

  function Boot<C, S>(n: nat, me: nat, saved: Persisted<C, S>): Node<C, S> {
    Node(n, me, saved.currentTerm, saved.voteFor, Follower, saved.log, saved.logOffset,
         saved.logOffset, saved.logOffset, seq(n, _ => 0), seq(n, _ => 0), saved.snapshot, None)
  }

  // ---------------------------------------------------------------- elections

  function StepDown<C, S>(nd: Node<C, S>, t: nat): Node<C, S> {
    nd.(currentTerm := t, voteFor := None, role := Follower)
  }

  function BeginElection<C, S>(nd: Node<C, S>): (Node<C, S>, VoteArgs)
    requires |nd.log| > 0
  {
    var t := nd.currentTerm + 1;
    (nd.(role := Candidate, currentTerm := t, voteFor := Some(nd.me)),
     VoteArgs(t, nd.me, nd.LastIndex(), nd.TermAt(nd.LastIndex())))
  }

  predicate LogIsUpToDate<C, S>(nd: Node<C, S>, a: VoteArgs)
    requires |nd.log| > 0
  {
    var mine := nd.TermAt(nd.LastIndex());
    if a.lastLogTerm != mine then a.lastLogTerm > mine else a.lastLogIndex >= nd.LastIndex()
  }

  function HandleVote<C, S>(nd: Node<C, S>, a: VoteArgs): (Node<C, S>, VoteReply)
    requires |nd.log| > 0
  {
    if a.term < nd.currentTerm then (nd, VoteReply(nd.currentTerm, false))
    else
      var nd1 := if a.term > nd.currentTerm then StepDown(nd, a.term) else nd;
      if (nd1.voteFor == None || nd1.voteFor == Some(a.candidate)) && LogIsUpToDate(nd1, a)
      then (nd1.(voteFor := Some(a.candidate)), VoteReply(nd1.currentTerm, true))
      else (nd1, VoteReply(nd1.currentTerm, false))
  }

  function LeaderInit<C, S>(nd: Node<C, S>): Node<C, S>
    requires |nd.log| > 0
  {
    var last := nd.LastIndex();
    nd.(role := Leader,
    nextIndex := seq(nd.n, _ => last + 1),
    matchIndex := seq(nd.n, p => if p == nd.me then last else 0))
  }

  predicate Enough(votes: nat, n: nat) {
    votes >= n / 2 + 1
  }

  /** `votes` are the peers whose grants were counted for the candidacy in `electionTerm`. */
  function OnVoteReply<C, S>(nd: Node<C, S>, votes: set<nat>, peer: nat, electionTerm: nat, r: VoteReply)
    : (Node<C, S>, set<nat>)
    requires |nd.log| > 0
  {
    if r.term > nd.currentTerm then (StepDown(nd, r.term), votes)
    else if nd.role != Candidate || nd.currentTerm != electionTerm || !r.granted then (nd, votes)
    else
      var v := votes + {peer};
      (if Enough(|v|, nd.n) then LeaderInit(nd) else nd, v)
  }

  // ---------------------------------------------------------------- log replication

  /** The first index of the run of term `x` that ends at `i`, looking no further than the snapshot. */
  function RunStart<C, S>(nd: Node<C, S>, i: nat, x: nat): (r: nat)
    requires nd.Holds(i)
    ensures nd.logOffset <= r <= i
    decreases i
  {
    if i > nd.logOffset && nd.TermAt(i - 1) == x then RunStart(nd, i - 1, x) else i
  }

  /** Keep agreeing entries, cut at the first conflict, append what is missing. */
  function MergeEntries<C>(log: Log<C>, at: nat, entries: Log<C>): Log<C>
    requires at <= |log|
    decreases |entries|
  {
    if |entries| == 0 then log
    else if at >= |log| then log + entries
    else if log[at].term != entries[0].term then log[..at] + entries
    else MergeEntries(log, at + 1, entries[1..])
  }

  function Min(a: nat, b: nat): nat {
    if a < b then a else b
  }

  function Max(a: nat, b: nat): nat {
    if a < b then b else a
  }

  /** Recognising the sender as leader of its term. */
  function Follow<C, S>(nd: Node<C, S>, t: nat): Node<C, S> {
    (if t > nd.currentTerm then nd.(currentTerm := t, voteFor := None) else nd).(role := Follower)
  }

  function Accept<C, S>(nd: Node<C, S>, a: AppendArgs<C>): Node<C, S>
    requires nd.Holds(a.prevLogIndex)
  {
    nd.(log := MergeEntries(nd.log, a.prevLogIndex + 1 - nd.logOffset, a.entries),
    commitIndex := Max(nd.commitIndex, Min(a.leaderCommit, a.prevLogIndex + |a.entries|)))
  }

  function HandleAppend<C, S>(nd: Node<C, S>, a: AppendArgs<C>): (Node<C, S>, AppendReply)
    requires |nd.log| > 0
  {
    if a.term < nd.currentTerm then (nd, AppendReply(nd.currentTerm, false, Some(0), 0, 0))
    else
      var nd1 := Follow(nd, a.term);
      if a.prevLogIndex < nd1.logOffset then
        (nd1, AppendReply(nd1.currentTerm, false, None, 0, nd1.logOffset + 1))
      else if a.prevLogIndex > nd1.LastIndex() then
        (nd1, AppendReply(nd1.currentTerm, false, None, 0, nd1.LastIndex() + 1))
      else if nd1.TermAt(a.prevLogIndex) != a.prevLogTerm then
        var x := nd1.TermAt(a.prevLogIndex);
        (nd1, AppendReply(nd1.currentTerm, false, Some(x), RunStart(nd1, a.prevLogIndex, x), nd1.LastIndex() + 1))
      else
        (Accept(nd1, a), AppendReply(nd1.currentTerm, true, Some(0), 0, 0))
  }

  function StartCommand<C, S>(nd: Node<C, S>, c: C): Node<C, S>
    requires nd.me < |nd.nextIndex| && nd.me < |nd.matchIndex|
  {
    if nd.role != Leader then nd
    else
      var log := nd.log + [Entry(nd.currentTerm, Some(c))];
      var last := nd.logOffset + |log| - 1;
      nd.(log := log, matchIndex := nd.matchIndex[nd.me := last], nextIndex := nd.nextIndex[nd.me := last + 1])
  }

  /** The append request for a peer whose next index lies above the snapshot. */
  function BeginAppend<C, S>(nd: Node<C, S>, peer: nat): AppendArgs<C>
    requires peer < |nd.nextIndex| && nd.nextIndex[peer] > 0 && nd.Holds(nd.nextIndex[peer] - 1)
  {
    var next := nd.nextIndex[peer];
    AppendArgs(nd.currentTerm, nd.me, next - 1, nd.TermAt(next - 1), nd.log[next - nd.logOffset..], nd.commitIndex)
  }

  /** The last retained index at or below `i` holding term `x`. */
  function LastOfTerm<C, S>(nd: Node<C, S>, i: int, x: nat): (r: Option<nat>)
    requires nd.logOffset - 1 <= i <= nd.LastIndex()
    ensures r.Some? ==> nd.logOffset <= r.value <= i && nd.TermAt(r.value) == x
    decreases i - nd.logOffset + 1
  {
    if i < nd.logOffset then None
    else if nd.TermAt(i) == x then Some(i)
    else LastOfTerm(nd, i - 1, x)
  }

  /** Where the leader probes next after a rejection. */
  function BackUp<C, S>(nd: Node<C, S>, r: AppendReply): nat
    requires |nd.log| > 0
  {
    match r.xTerm
    case None => r.xLen
    case Some(x) =>
      match LastOfTerm(nd, nd.LastIndex(), x)
      case Some(i) => i + 1
      case None => r.xIndex
  }

  function Advance<C, S>(nd: Node<C, S>, peer: nat, matched: nat): Node<C, S>
    requires peer < |nd.nextIndex| && peer < |nd.matchIndex|
  {
    nd.(matchIndex := nd.matchIndex[peer := Max(nd.matchIndex[peer], matched)],
    nextIndex := nd.nextIndex[peer := Max(nd.nextIndex[peer], matched + 1)])
  }

  function OnAppendReply<C, S>(nd: Node<C, S>, peer: nat, a: AppendArgs<C>, r: AppendReply): Node<C, S>
    requires peer < |nd.nextIndex| && peer < |nd.matchIndex|
    requires |nd.log| > 0 && nd.logOffset <= nd.commitIndex
  {
    if r.term > nd.currentTerm then StepDown(nd, r.term)
    else if nd.role != Leader || nd.currentTerm != a.term then nd
    else if r.success then PushForward(Advance(nd, peer, a.prevLogIndex + |a.entries|))
    else if nd.nextIndex[peer] != a.prevLogIndex + 1 || nd.nextIndex[peer] <= nd.matchIndex[peer] + 1 then nd
    else nd.(nextIndex := nd.nextIndex[peer := BackUp(nd, r)])
  }

  // ---------------------------------------------------------------- commitment

  function CountAtLeast(matched: seq<nat>, i: nat): (c: nat)
    ensures c <= |matched|
  {
    if |matched| == 0 then 0
    else CountAtLeast(matched[..|matched| - 1], i) + if matched[|matched| - 1] >= i then 1 else 0
  }

  /** The peers known to have index `x`. */
  ghost function AtLeast(matched: seq<nat>, x: nat): set<nat> {
    set p: nat | p < |matched| && matched[p] >= x
  }

  lemma {:induction false} CountIsSize(matched: seq<nat>, x: nat)
    ensures CountAtLeast(matched, x) == |AtLeast(matched, x)|
  {
    if |matched| > 0 {
      var n := |matched| - 1;
      CountIsSize(matched[..n], x);
      if matched[n] >= x {
        assert AtLeast(matched, x) == AtLeast(matched[..n], x) + {n};
      } else {
        assert AtLeast(matched, x) == AtLeast(matched[..n], x);
      }
    }
  }

  predicate MayCommit<C, S>(nd: Node<C, S>, i: nat)
    requires nd.Holds(i)
  {
    nd.TermAt(i) == nd.currentTerm && Enough(CountAtLeast(nd.matchIndex, i), nd.n)
  }

  /** The highest index in `(commitIndex, i]` that may be committed, or `commitIndex`. */
  function CommitPoint<C, S>(nd: Node<C, S>, i: int): nat
    requires nd.logOffset <= nd.commitIndex && i <= nd.LastIndex()
    decreases i - nd.commitIndex
  {
    if i <= nd.commitIndex then nd.commitIndex
    else if MayCommit(nd, i) then i
    else CommitPoint(nd, i - 1)
  }

  /**
   The new commit index is the largest index of the current term that a majority has, if there is one past the old.
   */
  lemma {:induction false} CommitPointIsLargest<C, S>(nd: Node<C, S>, i: int)
    requires nd.logOffset <= nd.commitIndex && i <= nd.LastIndex()
    ensures var r := CommitPoint(nd, i);
      && r >= nd.commitIndex && (r > nd.commitIndex ==> r <= i && MayCommit(nd, r))
      && forall k: nat :: r < k <= i ==> !MayCommit(nd, k)
    decreases i - nd.commitIndex
  {
    if i > nd.commitIndex && !MayCommit(nd, i) {
      CommitPointIsLargest(nd, i - 1);
    }
  }

  function PushForward<C, S>(nd: Node<C, S>): Node<C, S>
    requires nd.logOffset <= nd.commitIndex
  {
    nd.(commitIndex := CommitPoint(nd, nd.LastIndex()))
  }

  // ---------------------------------------------------------------- compaction

  /** Cut the log so that index `i`, holding term `t`, becomes the snapshot slot. */
  function CutAt<C>(log: Log<C>, at: nat, t: nat): Log<C>
    requires at < |log|
  {
    [Entry(t, None)] + log[at + 1..]
  }

  function TakeSnapshot<C, S>(nd: Node<C, S>, index: nat, data: Option<S>): Node<C, S> {
    if index <= nd.logOffset || index > nd.lastApplied || index > nd.LastIndex() then nd
    else nd.(log := CutAt(nd.log, index - nd.logOffset, nd.TermAt(index)), logOffset := index, snapshot := data)
  }

  function BeginSnapshot<C, S>(nd: Node<C, S>): SnapArgs<S>
    requires |nd.log| > 0
  {
    SnapArgs(nd.currentTerm, nd.me, nd.logOffset, nd.TermAt(nd.logOffset), nd.snapshot)
  }

  predicate RetainsSuffix<C, S>(nd: Node<C, S>, a: SnapArgs<S>) {
    nd.Holds(a.lastIncludedIndex) && nd.TermAt(a.lastIncludedIndex) == a.lastIncludedTerm
  }

  function Install<C, S>(nd: Node<C, S>, a: SnapArgs<S>): Node<C, S> {
    nd.(log := if RetainsSuffix(nd, a) then CutAt(nd.log, a.lastIncludedIndex - nd.logOffset, a.lastIncludedTerm)
               else [Entry(a.lastIncludedTerm, None)],
    logOffset := a.lastIncludedIndex,
    snapshot := a.data,
    commitIndex := a.lastIncludedIndex,
    lastApplied := a.lastIncludedIndex,
    pending := Some(Pending(a.data, a.lastIncludedTerm, a.lastIncludedIndex)))
  }

  function HandleSnapshot<C, S>(nd: Node<C, S>, a: SnapArgs<S>): (Node<C, S>, SnapReply) {
    if a.term < nd.currentTerm then (nd, SnapReply(nd.currentTerm))
    else
      var nd1 := Follow(nd, a.term);
      (if a.lastIncludedIndex <= nd1.commitIndex then nd1 else Install(nd1, a), SnapReply(nd1.currentTerm))
  }

  function OnSnapReply<C, S>(nd: Node<C, S>, peer: nat, a: SnapArgs<S>, r: SnapReply): Node<C, S>
    requires peer < |nd.nextIndex| && peer < |nd.matchIndex|
  {
    if r.term > nd.currentTerm then StepDown(nd, r.term)
    else if nd.role != Leader || nd.currentTerm != a.term then nd
    else Advance(nd, peer, a.lastIncludedIndex)
  }

  // ---------------------------------------------------------------- applying

  /** One turn of the applier: the message it takes out of the node, if any. */
  function ApplierTurn<C, S>(nd: Node<C, S>): (Node<C, S>, Option<ApplyMsg<C, S>>)
    requires nd.pending.None? && nd.lastApplied < nd.commitIndex ==> nd.Holds(nd.lastApplied + 1)
  {
    match nd.pending
    case Some(p) => (nd.(pending := None), Some(Restore(p.index, p.term, p.data)))
    case None =>
      if nd.lastApplied < nd.commitIndex then
        var i := nd.lastApplied + 1;
        (nd.(lastApplied := i), Some(Command(i, nd.log[i - nd.logOffset].cmd)))
      else (nd, None)
  }
}
