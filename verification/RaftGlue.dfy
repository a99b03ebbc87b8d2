/**
 How a running cluster relates to its history: every field of every server and every message in the
 network, expressed through the logical logs, votes, reigns and acknowledgements of a history.
 */
module RaftGlue {
  import opened Common
  import opened TermLogs
  import opened HistorySteps
  import opened RaftNode
  import opened RaftSystem

  // ---------------------------------------------------------------- the meaning of a log prefix

  /** The machine's state after executing entries `1..i`. */
  ghost function Replay<C, S, R>(m: Machine<C, S, R>, l: Log<C>, i: nat): S
    requires i < |l|
  {
    if i == 0 then m.init
    else match l[i].cmd
         case None => Replay(m, l, i - 1)
         case Some(c) => m.step(Replay(m, l, i - 1), c).0
  }

  lemma {:induction false} ReplayAgrees<C, S, R>(m: Machine<C, S, R>, a: Log<C>, b: Log<C>, i: nat)
    requires i < |a| && i < |b| && a[..i + 1] == b[..i + 1]
    ensures Replay(m, a, i) == Replay(m, b, i)
  {
    if i > 0 {
      assert a[..i + 1][i] == b[..i + 1][i];
      assert a[..i] == a[..i + 1][..i] && b[..i] == b[..i + 1][..i];
      ReplayAgrees(m, a, b, i - 1);
    }
  }

  lemma ReplayPrefix<C, S, R>(m: Machine<C, S, R>, a: Log<C>, b: Log<C>, p: Log<C>, i: nat)
    requires i < |p| && p <= a && p <= b
    ensures Replay(m, a, i) == Replay(m, b, i) && a[i] == b[i]
  {
    assert a[..i + 1] == p[..i + 1] == b[..i + 1];
    assert a[i] == p[i] == b[i];
    ReplayAgrees(m, a, b, i);
  }

  // ---------------------------------------------------------------- compaction

  /** A logical log with everything up to `off` compacted away. */
  ghost function Compacted<C>(l: Log<C>, off: nat): Log<C>
    requires off < |l|
  {
    [Entry(l[off].term, None)] + l[off + 1..]
  }

  /** Indexing the compacted log is indexing the logical one. */
  lemma CompactedAt<C>(l: Log<C>, off: nat, i: nat)
    requires off <= i < |l|
    ensures |Compacted(l, off)| == |l| - off
    ensures Compacted(l, off)[i - off].term == l[i].term
    ensures i > off ==> Compacted(l, off)[i - off] == l[i]
  {
  }

  lemma CompactedAgain<C>(l: Log<C>, off: nat, i: nat)
    requires off <= i < |l|
    ensures i - off < |Compacted(l, off)|
    ensures CutAt(Compacted(l, off), i - off, l[i].term) == Compacted(l, i)
  {
  }

  // ---------------------------------------------------------------- requests

  ghost predicate AppendOk<C>(h: History<C>, a: AppendArgs<C>) {
    && a.term in h.reign && h.reign[a.term].leader == a.leader
    && a.prevLogIndex + |a.entries| < |h.reign[a.term].log|
    && a.prevLogTerm == h.reign[a.term].log[a.prevLogIndex].term
    && a.entries == h.reign[a.term].log[a.prevLogIndex + 1..a.prevLogIndex + |a.entries| + 1]
    && a.leaderCommit < |h.reign[a.term].log|
    && CommittedBy(h, Through(h, a.term, a.leaderCommit), a.term)
  }

  ghost predicate SnapOk<C, S, R>(m: Machine<C, S, R>, h: History<C>, a: SnapArgs<S>) {
    && a.term in h.reign && h.reign[a.term].leader == a.leader
    && 0 < a.lastIncludedIndex < |h.reign[a.term].log|
    && a.lastIncludedTerm == h.reign[a.term].log[a.lastIncludedIndex].term
    && CommittedBy(h, Through(h, a.term, a.lastIncludedIndex), a.term)
    && a.data == Some(Replay(m, h.reign[a.term].log, a.lastIncludedIndex))
  }

  lemma AppendOkStays<C>(h: History<C>, k: History<C>, a: AppendArgs<C>)
    requires Continues(h, k) && AppendOk(h, a)
    ensures AppendOk(k, a)
  {
    assert ReignGrows(h, k, a.term);
    CommittedStays(h, k, Through(h, a.term, a.leaderCommit), a.term, a.term);
    assert Through(k, a.term, a.leaderCommit) == Through(h, a.term, a.leaderCommit);
  }

  lemma SnapOkStays<C, S, R>(m: Machine<C, S, R>, h: History<C>, k: History<C>, a: SnapArgs<S>)
    requires Continues(h, k) && SnapOk(m, h, a)
    ensures SnapOk(m, k, a)
  {
    assert ReignGrows(h, k, a.term);
    var i := a.lastIncludedIndex;
    CommittedStays(h, k, Through(h, a.term, i), a.term, a.term);
    assert Through(k, a.term, i) == Through(h, a.term, i);
    ReplayAgrees(m, h.reign[a.term].log, k.reign[a.term].log, i);
  }

  // ---------------------------------------------------------------- a server

  ghost predicate ShapeOk<C, S>(h: History<C>, sv: Server<C, S>, i: nat) {
    && Shape(h) && i < h.n && sv.node.n == h.n && sv.node.me == i
    && |sv.node.nextIndex| == |sv.node.matchIndex| == |sv.workers| == h.n
  }

  /** The retained log is the logical one compacted at `logOffset`, and the four indexes are in order. */
  ghost predicate LogOk<C, S>(h: History<C>, nd: Node<C, S>, i: nat)
    requires Shape(h) && i < h.n
  {
    && nd.currentTerm == h.term[i]
    && nd.logOffset <= nd.lastApplied <= nd.commitIndex < |h.log[i]|
    && nd.log == Compacted(h.log[i], nd.logOffset)
  }

  ghost predicate CommitOk<C, S>(h: History<C>, nd: Node<C, S>, i: nat)
    requires Shape(h) && i < h.n
  {
    nd.commitIndex < |h.log[i]| && CommittedBy(h, h.log[i][..nd.commitIndex + 1], h.term[i])
  }

  ghost predicate BallotOk<C, S>(h: History<C>, nd: Node<C, S>, i: nat)
    requires Shape(h) && i < h.n
  {
    match nd.voteFor
    case None => (h.term[i], i) !in h.vote
    case Some(c) => Voted(h, h.term[i], i, c)
  }

  ghost predicate RoleOk<C, S>(h: History<C>, sv: Server<C, S>, i: nat)
    requires Shape(h) && i < h.n
  {
    && (sv.node.role == Candidate ==>
          && (h.term[i], i) in h.cand && h.cand[(h.term[i], i)] == h.log[i]
          && i in sv.votes && sv.votes <= Voters(h, h.term[i], i)
          && !(h.term[i] in h.reign && h.reign[h.term[i]].leader == i))
    && (sv.node.role == Leader ==> Leads(h, i))
  }

  /** What a leader believes about peer `p`. */
  ghost predicate PeerOk<C, S>(h: History<C>, sv: Server<C, S>, i: nat, p: nat)
    requires ShapeOk(h, sv, i) && p < h.n
  {
    var t := h.term[i];
    && sv.node.matchIndex[p] <= Ack(h, t, p)
    && if p == i then sv.node.matchIndex[p] + 1 == sv.node.nextIndex[p] == |h.log[i]|
       else
         && 1 <= sv.node.nextIndex[p] <= |h.log[i]|
         && (sv.node.matchIndex[p] == 0 || sv.node.nextIndex[p] == sv.node.matchIndex[p] + 1)
         && (sv.workers[p].AwaitAppend? && sv.workers[p].append.term == t ==>
             sv.node.nextIndex[p] == sv.workers[p].append.prevLogIndex + 1)
         && (sv.workers[p].AwaitSnap? && sv.workers[p].snap.term == t ==>
             sv.node.nextIndex[p] <= sv.workers[p].snap.lastIncludedIndex)
  }

  ghost predicate PeersOk<C, S>(h: History<C>, sv: Server<C, S>, i: nat)
    requires ShapeOk(h, sv, i)
  {
    sv.node.role == Leader ==> forall p: nat :: p < h.n ==> PeerOk(h, sv, i, p)
  }

  ghost predicate WorkerOk<C, S, R>(m: Machine<C, S, R>, h: History<C>, sv: Server<C, S>, i: nat, p: nat)
    requires ShapeOk(h, sv, i) && p < h.n
  {
    match sv.workers[p]
    case Idle => true
    case AwaitAppend(a) => a.leader == i && p != i && AppendOk(h, a)
    case AwaitSnap(a) => a.leader == i && p != i && SnapOk(m, h, a)
  }

  ghost predicate WorkersOk<C, S, R>(m: Machine<C, S, R>, h: History<C>, sv: Server<C, S>, i: nat)
    requires ShapeOk(h, sv, i)
  {
    forall p: nat :: p < h.n ==> WorkerOk(m, h, sv, i, p)
  }

  ghost predicate SnapshotOk<C, S, R>(m: Machine<C, S, R>, h: History<C>, nd: Node<C, S>, i: nat)
    requires Shape(h) && i < h.n
  {
    && (nd.logOffset > 0 ==> nd.logOffset < |h.log[i]| && nd.snapshot == Some(Replay(m, h.log[i], nd.logOffset)))
    && (nd.logOffset == 0 ==> nd.snapshot == None)
  }

  /** The index the reader will have reached once it has taken the message the applier is offering. */
  ghost function Reached<C, S>(sv: Server<C, S>): nat {
    match sv.outbox
    case None => sv.svc.index
    case Some(msg) => msg.index
  }

  ghost predicate OutboxOk<C, S, R>(m: Machine<C, S, R>, l: Log<C>, sv: Server<C, S>) {
    match sv.outbox
    case None => true
    case Some(Command(i, c)) => i == sv.svc.index + 1 && i < |l| && c == l[i].cmd && c.Some?
    case Some(Restore(i, _, d)) => sv.svc.index < i < |l| && d == Some(Replay(m, l, i))
  }

  ghost predicate PendingOk<C, S, R>(m: Machine<C, S, R>, l: Log<C>, sv: Server<C, S>) {
    match sv.node.pending
    case None => Reached(sv) == sv.node.lastApplied
    case Some(p) =>
      Reached(sv) < p.index == sv.node.lastApplied == sv.node.logOffset && p.index < |l|
          && p.data == Some(Replay(m, l, p.index))
  }

  /** The service holds the replay of what it has consumed; the stream into it has no gap and no repeat. */
  ghost predicate ServiceOk<C, S, R>(m: Machine<C, S, R>, l: Log<C>, sv: Server<C, S>) {
    && sv.svc.index <= Reached(sv)
    && sv.svc.index < |l| && sv.svc.state == Replay(m, l, sv.svc.index)
    && OutboxOk(m, l, sv) && PendingOk(m, l, sv)
  }

  ghost predicate ServerGlue<C, S, R>(m: Machine<C, S, R>, h: History<C>, sv: Server<C, S>, i: nat) {
    && ShapeOk(h, sv, i)
    && LogOk(h, sv.node, i) && CommitOk(h, sv.node, i)
    && BallotOk(h, sv.node, i) && RoleOk(h, sv, i)
    && PeersOk(h, sv, i) && WorkersOk(m, h, sv, i)
    && SnapshotOk(m, h, sv.node, i) && ServiceOk(m, h.log[i], sv)
  }

  // ---------------------------------------------------------------- messages and answers

  /** A rejection of `a` that its sender may still act on. */
  ghost predicate RejectOk<C>(h: History<C>, a: AppendArgs<C>, r: AppendReply)
    requires a.term in h.reign
  {
    match r.xTerm
    case None => 1 <= r.xLen && (r.xLen <= a.prevLogIndex || a.prevLogIndex + 1 < r.xLen <= |h.reign[a.term].log|)
    case Some(x) =>
      && x in h.reign && a.prevLogIndex < |h.reign[x].log| && h.reign[x].log[a.prevLogIndex].term == x
      && x != a.prevLogTerm && 1 <= r.xIndex <= a.prevLogIndex
  }

  ghost predicate MsgGlue<C, S, R>(m: Machine<C, S, R>, h: History<C>, msg: Message<C, S>)
    requires Shape(h)
  {
    match msg
    case VoteReq(dst, a) =>
      && (a.term, a.candidate) in h.cand && |h.cand[(a.term, a.candidate)]| == a.lastLogIndex + 1
      && h.cand[(a.term, a.candidate)][a.lastLogIndex].term == a.lastLogTerm
    case VoteRep(src, a, r) => src < h.n && (r.granted ==> Voted(h, a.term, src, a.candidate))
    case AppendReq(dst, a) => dst != a.leader && AppendOk(h, a)
    case AppendRep(src, a, r) =>
      && src < h.n && src != a.leader && AppendOk(h, a) && r.term >= a.term
      && (r.success ==> Ack(h, a.term, src) >= a.prevLogIndex + |a.entries|)
      && (!r.success && r.term == a.term ==> RejectOk(h, a, r))
    case SnapReq(dst, a) => dst != a.leader && SnapOk(m, h, a)
    case SnapRep(src, a, r) =>
      && src < h.n && src != a.leader && SnapOk(m, h, a) && r.term >= a.term
      && (r.term == a.term ==> Ack(h, a.term, src) >= a.lastIncludedIndex)
  }

  /** Index `i` of term `t` was chosen, and the answer is that of the entry at or below it. */
  ghost predicate Explains<C, S, R>(m: Machine<C, S, R>, h: History<C>, t: nat, i: nat, a: Answer<C, R>) {
    && Chosen(h, t, i) && 0 < a.index <= i
    && h.reign[t].log[a.index].cmd == Some(a.cmd)
    && a.result == m.step(Replay(m, h.reign[t].log, a.index - 1), a.cmd).1
  }

  ghost predicate AnswerGlue<C, S, R>(m: Machine<C, S, R>, h: History<C>, a: Answer<C, R>) {
    exists t: nat, i: nat :: Explains(m, h, t, i, a)
  }

  ghost predicate Glued<C, S, R>(m: Machine<C, S, R>, h: History<C>, s: System<C, S, R>) {
    && Sound(h) && |s.servers| == h.n
    && (forall i: nat :: i < h.n ==> ServerGlue(m, h, s.servers[i], i))
    && (forall msg :: msg in s.net ==> MsgGlue(m, h, msg))
    && (forall a :: a in s.answers ==> AnswerGlue(m, h, a))
  }

  // ---------------------------------------------------------------- what other servers' steps leave alone

  lemma AckStays<C>(h: History<C>, k: History<C>, t: nat, j: nat)
    requires Continues(h, k)
    ensures Ack(h, t, j) <= Ack(k, t, j)
  {
    assert AckGrows(h, k, t, j);
  }

  lemma RejectStays<C>(h: History<C>, k: History<C>, a: AppendArgs<C>, r: AppendReply)
    requires Continues(h, k) && a.term in h.reign && a.term in k.reign && RejectOk(h, a, r)
    ensures RejectOk(k, a, r)
  {
    assert ReignGrows(h, k, a.term);
    if r.xTerm.Some? { assert ReignGrows(h, k, r.xTerm.value); }
  }

  lemma MsgStays<C, S, R>(m: Machine<C, S, R>, h: History<C>, k: History<C>, msg: Message<C, S>)
    requires Continues(h, k) && MsgGlue(m, h, msg)
    ensures MsgGlue(m, k, msg)
  {
    match msg
    case VoteReq(_, a) => assert CandStays(h, k, a.term, a.candidate);
    case VoteRep(src, a, _) => assert VoteStays(h, k, a.term, src);
    case AppendReq(_, a) => AppendOkStays(h, k, a);
    case AppendRep(src, a, r) =>
      AppendOkStays(h, k, a);
      AckStays(h, k, a.term, src);
      if !r.success && r.term == a.term { RejectStays(h, k, a, r); }
    case SnapReq(_, a) => SnapOkStays(m, h, k, a);
    case SnapRep(src, a, _) => SnapOkStays(m, h, k, a); AckStays(h, k, a.term, src);
  }

  lemma AnswerStays<C, S, R>(m: Machine<C, S, R>, h: History<C>, k: History<C>, a: Answer<C, R>)
    requires Continues(h, k) && AnswerGlue(m, h, a)
    ensures AnswerGlue(m, k, a)
  {
    var t: nat, i: nat :| Explains(m, h, t, i, a);
    ChosenStays(h, k, t, i);
    assert ReignGrows(h, k, t);
    ReplayAgrees(m, h.reign[t].log, k.reign[t].log, a.index - 1);
    assert Explains(m, k, t, i, a);
  }

  ghost predicate NoNewVote<C>(h: History<C>, k: History<C>, t: nat, j: nat) {
    (t, j) in k.vote ==> (t, j) in h.vote
  }

  ghost predicate NoNewReign<C>(h: History<C>, k: History<C>, t: nat, j: nat) {
    t in k.reign && k.reign[t].leader == j ==> t in h.reign && k.reign[t].log == h.reign[t].log
  }

  /** Server `j` kept its term, its log and, if it led, its reign. */
  ghost predicate Steady<C>(h: History<C>, k: History<C>, j: nat) {
    && Continues(h, k) && j < h.n && k.term[j] == h.term[j] && k.log[j] == h.log[j]
    && (forall t: nat :: NoNewReign(h, k, t, j))
  }

  /** Nothing that concerns server `j` itself changed. */
  ghost predicate Undisturbed<C>(h: History<C>, k: History<C>, j: nat) {
    Steady(h, k, j) && forall t: nat :: NoNewVote(h, k, t, j)
  }

  lemma UndisturbedTrans<C>(a: History<C>, b: History<C>, c: History<C>, j: nat)
    requires Undisturbed(a, b, j) && Undisturbed(b, c, j)
    ensures Undisturbed(a, c, j)
  {
    ContinuesTrans(a, b, c);
    forall t: nat ensures NoNewVote(a, c, t, j) { assert NoNewVote(a, b, t, j) && NoNewVote(b, c, t, j); }
    forall t: nat ensures NoNewReign(a, c, t, j) {
      assert NoNewReign(a, b, t, j) && NoNewReign(b, c, t, j);
      assert ReignGrows(b, c, t);
    }
  }

  lemma RoleStays<C, S>(h: History<C>, k: History<C>, sv: Server<C, S>, j: nat)
    requires Steady(h, k, j) && RoleOk(h, sv, j)
    ensures RoleOk(k, sv, j)
  {
    var t := h.term[j];
    assert CandStays(h, k, t, j) && NoNewReign(h, k, t, j) && ReignGrows(h, k, t);
    if sv.node.role == Candidate {
      forall p | p in sv.votes ensures p in Voters(k, t, j) {
        assert p in Voters(h, t, j);
        assert VoteStays(h, k, t, p);
      }
    }
  }

  lemma WorkersStay<C, S, R>(m: Machine<C, S, R>, h: History<C>, k: History<C>, sv: Server<C, S>, j: nat)
    requires Continues(h, k) && ShapeOk(h, sv, j) && WorkersOk(m, h, sv, j)
    ensures WorkersOk(m, k, sv, j)
  {
    forall p: nat | p < k.n ensures WorkerOk(m, k, sv, j, p) {
      assert WorkerOk(m, h, sv, j, p);
      match sv.workers[p]
      case Idle =>
      case AwaitAppend(a) => AppendOkStays(h, k, a);
      case AwaitSnap(a) => SnapOkStays(m, h, k, a);
    }
  }

  lemma PeersStay<C, S>(h: History<C>, k: History<C>, sv: Server<C, S>, j: nat)
    requires Steady(h, k, j) && ShapeOk(h, sv, j) && PeersOk(h, sv, j)
    ensures PeersOk(k, sv, j)
  {
    if sv.node.role == Leader {
      forall p: nat | p < k.n ensures PeerOk(k, sv, j, p) {
        assert PeerOk(h, sv, j, p);
        AckStays(h, k, h.term[j], p);
      }
    }
  }

  lemma BallotStays<C, S>(h: History<C>, k: History<C>, nd: Node<C, S>, j: nat)
    requires Undisturbed(h, k, j) && BallotOk(h, nd, j)
    ensures BallotOk(k, nd, j)
  {
    assert NoNewVote(h, k, h.term[j], j) && VoteStays(h, k, h.term[j], j);
  }

  lemma ServerStays<C, S, R>(m: Machine<C, S, R>, h: History<C>, k: History<C>, sv: Server<C, S>, j: nat)
    requires Undisturbed(h, k, j) && ServerGlue(m, h, sv, j)
    ensures ServerGlue(m, k, sv, j)
  {
    CommittedStays(h, k, h.log[j][..sv.node.commitIndex + 1], h.term[j], h.term[j]);
    BallotStays(h, k, sv.node, j);
    RoleStays(h, k, sv, j);
    PeersStay(h, k, sv, j);
    WorkersStay(m, h, k, sv, j);
  }

  ghost predicate OthersUndisturbed<C>(h: History<C>, k: History<C>, i: nat) {
    Continues(h, k) && forall j: nat :: j < h.n && j != i ==> Undisturbed(h, k, j)
  }

  lemma OthersTrans<C>(a: History<C>, b: History<C>, c: History<C>, i: nat)
    requires OthersUndisturbed(a, b, i) && OthersUndisturbed(b, c, i)
    ensures OthersUndisturbed(a, c, i)
  {
    ContinuesTrans(a, b, c);
    forall j: nat | j < a.n && j != i ensures Undisturbed(a, c, j) { UndisturbedTrans(a, b, c, j); }
  }

  lemma OthersSame<C>(h: History<C>, i: nat)
    requires Shape(h)
    ensures OthersUndisturbed(h, h, i)
  {
  }

  /** A step of server `i` from `h` to `k` keeps the whole cluster glued. */
  lemma StepGlued<C, S, R>(m: Machine<C, S, R>, h: History<C>, k: History<C>, s: System<C, S, R>,
                           i: nat, sv: Server<C, S>, out: seq<Message<C, S>>)
    requires Glued(m, h, s) && i < h.n && Sound(k) && OthersUndisturbed(h, k, i)
    requires ServerGlue(m, k, sv, i)
    requires forall msg :: msg in out ==> MsgGlue(m, k, msg)
    ensures Glued(m, k, Put(s, i, sv, out))
  {
    var s' := Put(s, i, sv, out);
    forall j: nat | j < k.n ensures ServerGlue(m, k, s'.servers[j], j) {
      if j != i { ServerStays(m, h, k, s.servers[j], j); }
    }
    forall msg | msg in s'.net ensures MsgGlue(m, k, msg) {
      if msg in s.net { MsgStays(m, h, k, msg); }
    }
    forall a | a in s'.answers ensures AnswerGlue(m, k, a) {
      AnswerStays(m, h, k, a);
    }
  }
}
