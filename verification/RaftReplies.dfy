/** What the leader makes of replies, and what the applier, the service and a restart do. */
module RaftReplies {
  import opened Common
  import opened TermLogs
  import opened HistorySteps
  import opened RaftNode
  import opened RaftSystem
  import opened RaftGlue
  import opened RaftElections
  import opened RaftReplication

  // ---------------------------------------------------------------- append replies

  /** If the leader holds the conflicting term at all, its last such index lies below the probe. */
  lemma LastOfTermBelowProbe<C, S>(h: History<C>, nd: Node<C, S>, i: nat, a: AppendArgs<C>, r: AppendReply, y: nat)
    requires Reigns(h) && Leads(h, i) && LogOk(h, nd, i) && h.term[i] == a.term && AppendOk(h, a)
    requires r.xTerm.Some? && RejectOk(h, a, r) && nd.Holds(y) && nd.TermAt(y) == r.xTerm.value
    ensures y < a.prevLogIndex
  {
    var x := r.xTerm.value;
    var l := h.reign[a.term].log;
    ViewAt(h, nd, i, nd.commitIndex);
    ViewAt(h, nd, i, y);
    assert ReignOk(h, a.term) && ReignOk(h, x);
    if a.prevLogIndex <= y { BelowTerm(h, l, a.prevLogIndex, y); }
  }

  lemma BelowTerm<C>(h: History<C>, l: Log<C>, j: nat, y: nat)
    requires Grounded(h, l) && j <= y < |l| && 0 < y
    ensures l[y].term in h.reign && j < |h.reign[l[y].term].log| && l[j] == h.reign[l[y].term].log[j]
  {
    assert GroundedAt(h, l, y);
    assert l[..y + 1][j] == l[j];
  }

  /**
   Fast backup: the next probe stays within `1..lastLogIndex+1`, and it is strictly lower than the
   rejected one unless the follower had already compacted the probed index.
   */
  lemma BackUpInRange<C, S>(h: History<C>, nd: Node<C, S>, i: nat, a: AppendArgs<C>, r: AppendReply)
    requires Reigns(h) && Leads(h, i) && LogOk(h, nd, i) && |nd.log| > 0 && h.term[i] == a.term && AppendOk(h, a)
        && RejectOk(h, a, r)
    ensures 1 <= BackUp(nd, r) <= |h.log[i]|
    ensures r.xTerm.Some? || r.xLen <= a.prevLogIndex ==> BackUp(nd, r) <= a.prevLogIndex
  {
    if r.xTerm.Some? {
      var y := LastOfTerm(nd, nd.LastIndex(), r.xTerm.value);
      if y.Some? { LastOfTermBelowProbe(h, nd, i, a, r, y.value); }
    }
  }

  lemma AdvanceGlue<C, S, R>(m: Machine<C, S, R>, h: History<C>, sv: Server<C, S>, i: nat, p: nat, x: nat)
    requires ServerGlue(m, h, sv, i) && sv.node.role == Leader && p < h.n && p != i && sv.workers[p].Idle?
    requires Ack(h, h.term[i], p) >= x && x < |h.log[i]| && sv.node.nextIndex[p] <= x + 1
    ensures ServerGlue(m, h, sv.(node := Advance(sv.node, p, x)), i)
  {
    assert PeerOk(h, sv, i, p);
    PeerGlue(m, h, sv, sv.(node := Advance(sv.node, p, x)), i, p);
  }

  lemma BackUpGlue<C, S, R>(m: Machine<C, S, R>, h: History<C>, sv: Server<C, S>, i: nat, p: nat, next: nat)
    requires ServerGlue(m, h, sv, i) && sv.node.role == Leader && p < h.n && p != i && sv.workers[p].Idle?
    requires 1 <= next <= |h.log[i]| && sv.node.nextIndex[p] > sv.node.matchIndex[p] + 1
    ensures ServerGlue(m, h, sv.(node := sv.node.(nextIndex := sv.node.nextIndex[p := next])), i)
  {
    assert PeerOk(h, sv, i, p);
    PeerGlue(m, h, sv, sv.(node := sv.node.(nextIndex := sv.node.nextIndex[p := next])), i, p);
  }

  lemma AckedInLog<C, S, R>(m: Machine<C, S, R>, h: History<C>, sv: Server<C, S>, i: nat, a: AppendArgs<C>)
    requires ServerGlue(m, h, sv, i) && sv.node.role == Leader && AppendOk(h, a) && a.term == h.term[i]
    ensures a.prevLogIndex + |a.entries| < |h.log[i]|
  {
  }

  lemma AppendAckGlue<C, S, R>(m: Machine<C, S, R>, h: History<C>, sv: Server<C, S>, i: nat, p: nat, a: AppendArgs<C>)
    requires Sound(h) && ServerGlue(m, h, sv, i) && sv.node.role == Leader && p < h.n && p != i && sv.workers[p].Idle?
    requires AppendOk(h, a) && a.term == h.term[i] && sv.node.nextIndex[p] == a.prevLogIndex + 1
    requires Ack(h, a.term, p) >= a.prevLogIndex + |a.entries|
    ensures ServerGlue(m, h, sv.(node := PushForward(Advance(sv.node, p, a.prevLogIndex + |a.entries|))), i)
  {
    var x := a.prevLogIndex + |a.entries|;
    AckedInLog(m, h, sv, i, a);
    AdvanceGlue(m, h, sv, i, p, x);
    var sv1 := sv.(node := Advance(sv.node, p, x));
    assert sv1.node.role == Leader && sv1.(node := PushForward(sv1.node)) == sv.(node := PushForward(sv1.node));
    PushGlue(m, h, sv1, i);
  }

  lemma RejectionGlue<C, S, R>(m: Machine<C, S, R>, h: History<C>, sv: Server<C, S>, i: nat, p: nat, a: AppendArgs<C>,
                               r: AppendReply)
    requires Sound(h) && ServerGlue(m, h, sv, i) && sv.node.role == Leader && p < h.n && p != i && sv.workers[p].Idle?
    requires |sv.node.log| > 0 && AppendOk(h, a) && a.term == h.term[i] && RejectOk(h, a, r)
    requires sv.node.nextIndex[p] > sv.node.matchIndex[p] + 1
    ensures ServerGlue(m, h, sv.(node := sv.node.(nextIndex := sv.node.nextIndex[p := BackUp(sv.node, r)])), i)
  {
    BackUpInRange(h, sv.node, i, a, r);
    BackUpGlue(m, h, sv, i, p, BackUp(sv.node, r));
  }

  lemma AppendRepGlue<C, S, R>(m: Machine<C, S, R>, h: History<C>, sv: Server<C, S>, i: nat, p: nat, a: AppendArgs<C>,
                               r: AppendReply) returns (k: History<C>)
    requires Sound(h) && ServerGlue(m, h, sv, i) && |sv.node.log| > 0 && p < h.n && sv.workers[p] == AwaitAppend(a)
    requires MsgGlue(m, h, AppendRep(p, a, r))
    ensures Sound(k) && OthersUndisturbed(h, k, i) && k.reign == h.reign
    ensures ServerGlue(m, k, sv.(node := OnAppendReply(sv.node, p, a, r), workers := sv.workers[p := Idle]), i)
  {
    k := h;
    OthersSame(h, i);
    assert WorkerOk(m, h, sv, i, p);
    var sv1 := sv.(workers := sv.workers[p := Idle]);
    IdleGlue(m, h, sv, i, p);
    if r.term > h.term[i] {
      StepDownGlue(m, h, sv1, i, r.term);
      k := SeeTerm(h, i, r.term);
    } else if sv.node.role == Leader && h.term[i] == a.term {
      assert PeerOk(h, sv, i, p);
      AppendLeadingGlue(m, h, sv1, i, p, a, r);
    }
  }

  /** A leader hears about an append of its own term. */
  lemma AppendLeadingGlue<C, S, R>(m: Machine<C, S, R>, h: History<C>, sv: Server<C, S>, i: nat, p: nat,
                                   a: AppendArgs<C>, r: AppendReply)
    requires Sound(h) && ServerGlue(m, h, sv, i) && |sv.node.log| > 0 && p < h.n && p != i && sv.workers[p].Idle?
    requires sv.node.role == Leader && a.term == h.term[i] && r.term <= h.term[i] && AppendOk(h, a)
    requires sv.node.nextIndex[p] == a.prevLogIndex + 1 && MsgGlue(m, h, AppendRep(p, a, r))
    ensures ServerGlue(m, h, sv.(node := OnAppendReply(sv.node, p, a, r)), i)
  {
    LeadingReplyCases(sv.node, p, a, r);
    assert sv.(node := sv.node) == sv;
    if r.success {
      AppendAckGlue(m, h, sv, i, p, a);
    } else if sv.node.nextIndex[p] > sv.node.matchIndex[p] + 1 {
      RejectionGlue(m, h, sv, i, p, a, r);
    }
  }

  lemma LeadingReplyCases<C, S>(nd: Node<C, S>, p: nat, a: AppendArgs<C>, r: AppendReply)
    requires p < |nd.nextIndex| && p < |nd.matchIndex| && |nd.log| > 0 && nd.logOffset <= nd.commitIndex
    requires nd.role == Leader && nd.currentTerm == a.term && r.term <= a.term && nd.nextIndex[p] == a.prevLogIndex + 1
    ensures OnAppendReply(nd, p, a, r) ==
            if r.success then PushForward(Advance(nd, p, a.prevLogIndex + |a.entries|))
            else if nd.nextIndex[p] > nd.matchIndex[p] + 1 then nd.(nextIndex := nd.nextIndex[p := BackUp(nd, r)])
            else nd
  {
  }

  lemma SnapRepGlue<C, S, R>(m: Machine<C, S, R>, h: History<C>, sv: Server<C, S>, i: nat, p: nat, a: SnapArgs<S>,
                             r: SnapReply) returns (k: History<C>)
    requires Sound(h) && ServerGlue(m, h, sv, i) && p < h.n && sv.workers[p] == AwaitSnap(a)
    requires MsgGlue(m, h, SnapRep(p, a, r))
    ensures Sound(k) && OthersUndisturbed(h, k, i) && k.reign == h.reign
    ensures ServerGlue(m, k, sv.(node := OnSnapReply(sv.node, p, a, r), workers := sv.workers[p := Idle]), i)
  {
    k := h;
    OthersSame(h, i);
    assert WorkerOk(m, h, sv, i, p);
    var sv1 := sv.(workers := sv.workers[p := Idle]);
    IdleGlue(m, h, sv, i, p);
    if r.term > h.term[i] {
      StepDownGlue(m, h, sv1, i, r.term);
      k := SeeTerm(h, i, r.term);
    } else if sv.node.role == Leader && h.term[i] == a.term {
      assert PeerOk(h, sv, i, p);
      AdvanceGlue(m, h, sv1, i, p, a.lastIncludedIndex);
    }
  }

  // ---------------------------------------------------------------- the applier and the service

  /** Changing only what the applier and the reader own. */
  lemma ServiceGlue<C, S, R>(m: Machine<C, S, R>, h: History<C>, sv: Server<C, S>, sv': Server<C, S>, i: nat)
    requires ServerGlue(m, h, sv, i)
    requires sv' == sv.(node := sv'.node, outbox := sv'.outbox, svc := sv'.svc)
    requires sv'.node == sv.node.(lastApplied := sv'.node.lastApplied, pending := sv'.node.pending)
    requires sv.node.logOffset <= sv'.node.lastApplied <= sv.node.commitIndex
    requires ServiceOk(m, h.log[i], sv')
    ensures ServerGlue(m, h, sv', i)
  {
    if sv.node.role == Leader {
      forall p: nat | p < h.n ensures PeerOk(h, sv', i, p) { assert PeerOk(h, sv, i, p); }
    }
    forall p: nat | p < h.n ensures WorkerOk(m, h, sv', i, p) { assert WorkerOk(m, h, sv, i, p); }
  }

  lemma ApplyGlue<C, S, R>(m: Machine<C, S, R>, h: History<C>, sv: Server<C, S>, i: nat)
    requires Sound(h) && ServerGlue(m, h, sv, i) && sv.outbox.None?
    requires sv.node.pending.None? && sv.node.lastApplied < sv.node.commitIndex ==>
        sv.node.Holds(sv.node.lastApplied + 1)
    ensures ServerGlue(m, h, sv.(node := ApplierTurn(sv.node).0, outbox := ApplierTurn(sv.node).1), i)
  {
    var sv' := sv.(node := ApplierTurn(sv.node).0, outbox := ApplierTurn(sv.node).1);
    if sv.node.pending.None? && sv.node.lastApplied < sv.node.commitIndex {
      var x := sv.node.lastApplied + 1;
      ViewAt(h, sv.node, i, x);
      assert ServerOk(h, i);
      CommandsPresent(h, h.log[i], x);
    }
    ServiceGlue(m, h, sv, sv', i);
  }

  lemma ReceiveGlue<C, S, R>(m: Machine<C, S, R>, h: History<C>, sv: Server<C, S>, i: nat)
    requires ServerGlue(m, h, sv, i) && sv.outbox.Some?
    ensures ServerGlue(m, h, Consume(m, sv), i)
  {
    ServiceGlue(m, h, sv, Consume(m, sv), i);
  }

  lemma ReceiveAnswers<C, S, R>(m: Machine<C, S, R>, h: History<C>, sv: Server<C, S>, i: nat, a: Answer<C, R>)
    requires Reigns(h) && ServerGlue(m, h, sv, i) && sv.outbox.Some? && a in AnswersOf(m, sv)
    ensures AnswerGlue(m, h, a)
  {
    var l := h.log[i];
    var p := l[..sv.node.commitIndex + 1];
    CommittedRooted(h, p, h.term[i]);
    var t: nat, x: nat :| t <= h.term[i] && Chosen(h, t, x) && p <= Through(h, t, x);
    var r := h.reign[t].log;
    PrefixTrans(p, Through(h, t, x), r);
    ReplayPrefix(m, l, r, p, a.index);
    ReplayPrefix(m, l, r, p, a.index - 1);
    assert Explains(m, h, t, x, a);
  }

  lemma CompactGlue<C, S, R>(m: Machine<C, S, R>, h: History<C>, sv: Server<C, S>, i: nat)
    requires ServerGlue(m, h, sv, i)
    ensures ServerGlue(m, h, sv.(node := TakeSnapshot(sv.node, sv.svc.index, Some(sv.svc.state)),
        svc := sv.svc.(mayCompact := false)), i)
  {
    var nd := TakeSnapshot(sv.node, sv.svc.index, Some(sv.svc.state));
    var sv' := sv.(node := nd, svc := sv.svc.(mayCompact := false));
    var x := sv.svc.index;
    if nd != sv.node {
      ViewAt(h, sv.node, i, sv.node.commitIndex);
      ViewAt(h, sv.node, i, x);
      CompactedAgain(h.log[i], sv.node.logOffset, x);
    }
    if sv.node.role == Leader {
      forall p: nat | p < h.n ensures PeerOk(h, sv', i, p) { assert PeerOk(h, sv, i, p); }
    }
    forall p: nat | p < h.n ensures WorkerOk(m, h, sv', i, p) { assert WorkerOk(m, h, sv, i, p); }
  }

  lemma RestartGlue<C, S, R>(m: Machine<C, S, R>, h: History<C>, sv: Server<C, S>, i: nat)
    requires ServerGlue(m, h, sv, i)
    ensures ServerGlue(m, h, Reboot(m, sv), i)
  {
  }
}
