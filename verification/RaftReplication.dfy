/** Log replication, commitment and snapshots of the running cluster follow the history. */
module RaftReplication {
  import opened Common
  import opened TermLogs
  import opened HistorySteps
  import opened RaftNode
  import opened RaftSystem
  import opened RaftGlue
  import opened RaftElections

  // ---------------------------------------------------------------- what depends only on a shared prefix

  /** The service and the applier look no further than `lastApplied`. */
  lemma ServiceStays<C, S, R>(m: Machine<C, S, R>, l: Log<C>, l': Log<C>, p: Log<C>, sv: Server<C, S>,
                              sv': Server<C, S>)
    requires ServiceOk(m, l, sv) && p <= l && p <= l' && sv.node.lastApplied < |p|
    requires sv'.svc == sv.svc && sv'.outbox == sv.outbox
    requires sv'.node.pending == sv.node.pending && sv'.node.lastApplied == sv.node.lastApplied
        && sv'.node.logOffset == sv.node.logOffset
    ensures ServiceOk(m, l', sv')
  {
    ReplayPrefix(m, l, l', p, sv.svc.index);
    ReplayPrefix(m, l, l', p, Reached(sv));
    ReplayPrefix(m, l, l', p, sv.node.lastApplied);
  }

  lemma SnapshotStays<C, S, R>(m: Machine<C, S, R>, h: History<C>, k: History<C>, p: Log<C>, nd: Node<C, S>,
                               nd': Node<C, S>, i: nat)
    requires Shape(h) && Shape(k) && i < h.n && i < k.n && SnapshotOk(m, h, nd, i)
    requires p <= h.log[i] && p <= k.log[i] && nd.logOffset < |p|
    requires nd'.logOffset == nd.logOffset && nd'.snapshot == nd.snapshot
    ensures SnapshotOk(m, k, nd', i)
  {
    if nd.logOffset > 0 {
      ReplayPrefix(m, h.log[i], k.log[i], p, nd.logOffset);
    }
  }

  // ---------------------------------------------------------------- a new command

  lemma ExtendOthers<C>(h: History<C>, i: nat, c: C)
    requires Sound(h) && Leads(h, i)
    ensures OthersUndisturbed(h, Extend(h, i, c), i)
  {
    ExtendSound(h, i, c);
    forall j: nat | j < h.n && j != i ensures Undisturbed(h, Extend(h, i, c), j) {
      forall t: nat ensures NoNewReign(h, Extend(h, i, c), t, j) {}
    }
  }

  lemma ExtendPeers<C, S, R>(m: Machine<C, S, R>, h: History<C>, sv: Server<C, S>, i: nat, c: C)
    requires ServerGlue(m, h, sv, i) && sv.node.role == Leader && Continues(h, Extend(h, i, c))
    ensures PeersOk(Extend(h, i, c), sv.(node := StartCommand(sv.node, c)), i)
  {
    var k := Extend(h, i, c);
    var sv' := sv.(node := StartCommand(sv.node, c));
    forall p: nat | p < k.n ensures PeerOk(k, sv', i, p) {
      assert PeerOk(h, sv, i, p);
      AckStays(h, k, h.term[i], p);
    }
  }

  lemma ExtendLog<C, S, R>(m: Machine<C, S, R>, h: History<C>, k: History<C>, sv: Server<C, S>, sv': Server<C, S>,
                           i: nat, e: Entry<C>)
    requires ServerGlue(m, h, sv, i) && Continues(h, k) && k.term[i] == h.term[i] && k.log[i] == h.log[i] + [e]
    requires sv' == sv.(node := sv'.node) && sv'.node.log == sv.node.log + [e]
    requires sv'.node == sv.node.(log := sv'.node.log, nextIndex := sv'.node.nextIndex,
        matchIndex := sv'.node.matchIndex)
    ensures LogOk(k, sv'.node, i) && CommitOk(k, sv'.node, i) && SnapshotOk(m, k, sv'.node, i)
        && ServiceOk(m, k.log[i], sv')
  {
    var l, l' := h.log[i], k.log[i];
    assert l <= l' && l'[..sv.node.commitIndex + 1] == l[..sv.node.commitIndex + 1];
    CommittedStays(h, k, l[..sv.node.commitIndex + 1], h.term[i], k.term[i]);
    assert Compacted(l', sv.node.logOffset) == Compacted(l, sv.node.logOffset) + [e];
    ServiceStays(m, l, l', l, sv, sv');
    SnapshotStays(m, h, k, l, sv.node, sv'.node, i);
  }

  lemma StartGlue<C, S, R>(m: Machine<C, S, R>, h: History<C>, sv: Server<C, S>, i: nat, c: C)
    requires Sound(h) && ServerGlue(m, h, sv, i) && sv.node.role == Leader
    ensures Sound(Extend(h, i, c)) && OthersUndisturbed(h, Extend(h, i, c), i)
    ensures ServerGlue(m, Extend(h, i, c), sv.(node := StartCommand(sv.node, c)), i)
  {
    var k := Extend(h, i, c);
    ExtendSound(h, i, c);
    ExtendOthers(h, i, c);
    var sv' := sv.(node := StartCommand(sv.node, c));
    ExtendLog(m, h, k, sv, sv', i, Entry(h.term[i], Some(c)));
    ExtendPeers(m, h, sv, i, c);
    WorkersStay(m, h, k, sv, i);
    forall p: nat | p < k.n ensures WorkerOk(m, k, sv', i, p) { assert WorkerOk(m, k, sv, i, p); }
  }

  // ---------------------------------------------------------------- commitment

  /** An index the leader may commit was chosen. */
  lemma MayCommitChosen<C, S, R>(m: Machine<C, S, R>, h: History<C>, sv: Server<C, S>, i: nat, x: nat)
    requires Sound(h) && ServerGlue(m, h, sv, i) && sv.node.role == Leader
    requires sv.node.commitIndex < x && sv.node.Holds(x) && MayCommit(sv.node, x)
    ensures Chosen(h, h.term[i], x)
  {
    var t := h.term[i];
    ViewAt(h, sv.node, i, sv.node.commitIndex);
    ViewAt(h, sv.node, i, x);
    assert ReignOk(h, t) && EntryOk(h.reign[t], t, x);
    CountIsSize(sv.node.matchIndex, x);
    forall p | p in AtLeast(sv.node.matchIndex, x) ensures p in Acked(h, t, x) {
      assert PeerOk(h, sv, i, p);
    }
    SubsetSize(AtLeast(sv.node.matchIndex, x), Acked(h, t, x));
  }

  lemma MayCommitCommitted<C, S, R>(m: Machine<C, S, R>, h: History<C>, sv: Server<C, S>, i: nat, x: nat)
    requires Sound(h) && ServerGlue(m, h, sv, i) && sv.node.role == Leader
    requires sv.node.commitIndex < x && sv.node.Holds(x) && MayCommit(sv.node, x)
    ensures x < |h.log[i]| && CommittedBy(h, h.log[i][..x + 1], h.term[i])
  {
    MayCommitChosen(m, h, sv, i, x);
    assert h.log[i][..x + 1] == Through(h, h.term[i], x);
  }

  lemma CommitPointOk<C, S, R>(m: Machine<C, S, R>, h: History<C>, sv: Server<C, S>, i: nat)
    requires Sound(h) && ServerGlue(m, h, sv, i) && sv.node.role == Leader
    ensures var c := CommitPoint(sv.node, sv.node.LastIndex());
      sv.node.commitIndex <= c < |h.log[i]| && CommittedBy(h, h.log[i][..c + 1], h.term[i])
  {
    CommitPointIsLargest(sv.node, sv.node.LastIndex());
    var c := CommitPoint(sv.node, sv.node.LastIndex());
    if c != sv.node.commitIndex { MayCommitCommitted(m, h, sv, i, c); }
  }

  lemma PushGlue<C, S, R>(m: Machine<C, S, R>, h: History<C>, sv: Server<C, S>, i: nat)
    requires Sound(h) && ServerGlue(m, h, sv, i) && sv.node.role == Leader
    ensures ServerGlue(m, h, sv.(node := PushForward(sv.node)), i)
  {
    CommitPointOk(m, h, sv, i);
    var sv' := sv.(node := PushForward(sv.node));
    ServiceStays(m, h.log[i], h.log[i], h.log[i], sv, sv');
    forall p: nat | p < h.n ensures PeerOk(h, sv', i, p) { assert PeerOk(h, sv, i, p); }
    forall p: nat | p < h.n ensures WorkerOk(m, h, sv', i, p) { assert WorkerOk(m, h, sv, i, p); }
  }

  // ---------------------------------------------------------------- sending

  /** A change to the replication bookkeeping of one peer. */
  lemma PeerGlue<C, S, R>(m: Machine<C, S, R>, h: History<C>, sv: Server<C, S>, sv': Server<C, S>, i: nat, p: nat)
    requires ServerGlue(m, h, sv, i) && p < h.n && ShapeOk(h, sv', i)
    requires sv' == sv.(node := sv'.node, workers := sv'.workers)
    requires sv'.node == sv.node.(nextIndex := sv'.node.nextIndex, matchIndex := sv'.node.matchIndex)
    requires sv'.workers == sv.workers[p := sv'.workers[p]]
    requires sv'.node.nextIndex == sv.node.nextIndex[p := sv'.node.nextIndex[p]]
    requires sv'.node.matchIndex == sv.node.matchIndex[p := sv'.node.matchIndex[p]]
    requires WorkerOk(m, h, sv', i, p) && (sv.node.role == Leader ==> PeerOk(h, sv', i, p))
    ensures ServerGlue(m, h, sv', i)
  {
    ServiceStays(m, h.log[i], h.log[i], h.log[i], sv, sv');
    forall q: nat | q < h.n ensures WorkerOk(m, h, sv', i, q) { assert WorkerOk(m, h, sv, i, q); }
    if sv.node.role == Leader {
      forall q: nat | q < h.n ensures PeerOk(h, sv', i, q) { assert PeerOk(h, sv, i, q); }
    }
  }

  lemma SendInBounds<C, S, R>(m: Machine<C, S, R>, h: History<C>, sv: Server<C, S>, i: nat, p: nat)
    requires ServerGlue(m, h, sv, i) && sv.node.role == Leader && p < h.n && p != i
    ensures CanSend(sv, p)
  {
    assert PeerOk(h, sv, i, p);
    ViewAt(h, sv.node, i, sv.node.commitIndex);
  }

  lemma SendAppendOk<C, S>(h: History<C>, sv: Server<C, S>, i: nat, p: nat)
    requires ShapeOk(h, sv, i) && LogOk(h, sv.node, i) && CommitOk(h, sv.node, i) && Leads(h, i) && p < h.n && p != i
        && CanSend(sv, p)
    requires sv.node.logOffset < sv.node.nextIndex[p] <= |h.log[i]|
    ensures AppendOk(h, BeginAppend(sv.node, p))
  {
  }

  lemma SendSnapOk<C, S, R>(m: Machine<C, S, R>, h: History<C>, sv: Server<C, S>, i: nat, p: nat)
    requires ServerGlue(m, h, sv, i) && sv.node.role == Leader && p < h.n && p != i && |sv.node.log| > 0
    requires sv.node.nextIndex[p] <= sv.node.logOffset
    ensures SnapOk(m, h, BeginSnapshot(sv.node))
  {
    assert PeerOk(h, sv, i, p);
    var off := sv.node.logOffset;
    ViewAt(h, sv.node, i, off);
    assert h.log[i][..off + 1] <= h.log[i][..sv.node.commitIndex + 1];
    CommittedPrefix(h, h.log[i][..off + 1], h.log[i][..sv.node.commitIndex + 1], h.term[i], h.term[i]);
  }

  lemma SendGlue<C, S, R>(m: Machine<C, S, R>, h: History<C>, sv: Server<C, S>, i: nat, p: nat)
    requires ServerGlue(m, h, sv, i) && sv.node.role == Leader && p < h.n && p != i && CanSend(sv, p)
    ensures ServerGlue(m, h, Send(sv, p).0, i) && MsgGlue(m, h, Send(sv, p).1)
  {
    assert PeerOk(h, sv, i, p);
    if sv.node.nextIndex[p] <= sv.node.logOffset {
      SendSnapOk(m, h, sv, i, p);
    } else {
      SendAppendOk(h, sv, i, p);
    }
    PeerGlue(m, h, sv, Send(sv, p).0, i, p);
  }

  lemma IdleGlue<C, S, R>(m: Machine<C, S, R>, h: History<C>, sv: Server<C, S>, i: nat, p: nat)
    requires ServerGlue(m, h, sv, i) && p < h.n
    ensures ServerGlue(m, h, sv.(workers := sv.workers[p := Idle]), i)
  {
    if sv.node.role == Leader { assert PeerOk(h, sv, i, p); }
    PeerGlue(m, h, sv, sv.(workers := sv.workers[p := Idle]), i, p);
  }
}
