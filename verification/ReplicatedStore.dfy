/**
 The replicated key/value server: its committed operations are a history of one store, so its clerk's verdicts hold.
 */
module ReplicatedStore {
  import opened Common
  import opened VersionedStore
  import opened Clerks
  import opened RaftSystem
  import opened RaftTheorems
  import opened StartedOnce
  import opened ReplicatedService

  /** The machine the replicated server runs: DoOp on a versioned map. */
  function StoreMachine(): Machine<Request, Store, Reply> {
    Machine(map[], (st, q) => Execute(st, q))
  }

  ghost function StoreAt(ops: seq<Op<Request>>): Store {
    Fold(OnRequests(StoreMachine()), ops)
  }

  /** The operations of a list with their results when executed in order. */
  ghost function HistoryOf(ops: seq<Op<Request>>): (h: seq<Done>)
    ensures |h| == |ops|
  {
    if |ops| == 0 then []
    else
      var front, op := ops[..|ops| - 1], ops[|ops| - 1];
      HistoryOf(front) + [Done(op.req, Execute(StoreAt(front), op.req).1)]
  }

  lemma {:induction false} HistoryAt(ops: seq<Op<Request>>, i: nat)
    requires i < |ops|
    ensures HistoryOf(ops)[i] == Done(ops[i].req, Execute(StoreAt(ops[..i]), ops[i].req).1)
    decreases |ops|
  {
    var front := ops[..|ops| - 1];
    if i < |front| {
      HistoryAt(front, i);
      assert front[..i] == ops[..i];
    }
  }

  lemma {:induction false} HistoryIsLegal(ops: seq<Op<Request>>)
    ensures Legal(HistoryOf(ops)) && StoreAfter(HistoryOf(ops)) == StoreAt(ops)
    decreases |ops|
  {
    if |ops| > 0 {
      var front, op := ops[..|ops| - 1], ops[|ops| - 1];
      HistoryIsLegal(front);
      LegalGrows(HistoryOf(front), Done(op.req, Execute(StoreAt(front), op.req).1));
    }
  }

  /** Where an operation is in the list, if it is. */
  ghost function Place(ops: seq<Op<Request>>, op: Option<Op<Request>>): (r: Option<nat>)
    ensures r.Some? ==> r.value < |ops| && op == Some(ops[r.value])
    ensures op.Some? && op.value in ops ==> r.Some?
  {
    if |ops| == 0 then None
    else if op == Some(ops[|ops| - 1]) then Some(|ops| - 1)
    else Place(ops[..|ops| - 1], op)
  }

  ghost function Places(ops: seq<Op<Request>>, tries: seq<Option<Op<Request>>>): seq<Option<nat>> {
    seq(|tries|, k requires 0 <= k < |tries| => Place(ops, tries[k]))
  }

  /**
   The attempts of one Put call: the operation each made on the server it reached, if any.  Operations of
   different attempts differ, and an answer other than ErrWrongLeader is the result Submit returned for it.
   */
  ghost predicate Tries(done: seq<Completed<Request, Reply>>, q: Request, rpcs: seq<Rpc>,
                        tries: seq<Option<Op<Request>>>) {
    && q.Put? && |tries| == |rpcs|
    && (forall k: nat :: k < |tries| && tries[k].Some? ==> tries[k].value.req == q)
    && (forall k: nat, m: nat :: k < |tries| && m < |tries| && k != m && tries[k].Some? ==> tries[k] != tries[m])
    && (forall k: nat :: k < |tries| ==> Answers(done, rpcs[k], tries[k]))
  }

  ghost predicate Answers(done: seq<Completed<Request, Reply>>, rpc: Rpc, op: Option<Op<Request>>) {
    rpc.Answer? && rpc.err != ErrWrongLeader ==> op.Some? && Completed(op.value, PutR(rpc.err)) in done
  }

  /** Submit's results are those of the history. */
  lemma AnsweredAt(ops: seq<Op<Request>>, x: nat, op: Op<Request>, r: Reply)
    requires NoRepeats(ops) && ResultAt(StoreMachine(), ops, x, op, r)
    ensures Place(ops, Some(op)) == Some(x - 1) && HistoryOf(ops)[x - 1] == Done(op.req, r)
  {
    HistoryAt(ops, x - 1);
  }

  lemma TriesAreAttempts(done: seq<Completed<Request, Reply>>, ops: seq<Op<Request>>, q: Request, rpcs: seq<Rpc>,
                         tries: seq<Option<Op<Request>>>)
    requires NoRepeats(ops) && Tries(done, q, rpcs, tries)
    requires forall c :: c in done ==> HasResult(StoreMachine(), ops, c)
    ensures Attempts(HistoryOf(ops), q, rpcs, Places(ops, tries))
  {
    var at, h := Places(ops, tries), HistoryOf(ops);
    forall k: nat | k < |at| && at[k].Some? ensures at[k].value < |h| && h[at[k].value].q == q {
      HistoryAt(ops, at[k].value);
    }
    forall k: nat | k < |at| ensures Honest(h, rpcs[k], at[k]) {
      assert Answers(done, rpcs[k], tries[k]);
      if rpcs[k].Answer? && rpcs[k].err != ErrWrongLeader {
        var c := Completed(tries[k].value, PutR(rpcs[k].err));
        assert HasResult(StoreMachine(), ops, c);
        var x: nat :| ResultAt(StoreMachine(), ops, x, c.op, c.result);
        AnsweredAt(ops, x, c.op, c.result);
      }
    }
  }

  /** The call's operation is at position `x` of the list, and its result is what the requests before it call for. */
  ghost predicate AnsweredThere(ops: seq<Op<Request>>, x: nat, c: Completed<Request, Reply>) {
    x < |ops| && ops[x] == c.op && HistoryOf(ops)[x] == Done(c.op.req, c.result) && AnsweredRight(HistoryOf(ops), x)
  }

  ghost predicate HasPlace(ops: seq<Op<Request>>, c: Completed<Request, Reply>) {
    exists x: nat :: AnsweredThere(ops, x, c)
  }

  lemma NeverRefused(st: Store, q: Request)
    ensures !WrongGroup(Execute(st, q).1)
  {
  }

  lemma CompletedThere(ops: seq<Op<Request>>, c: Completed<Request, Reply>) returns (x: nat)
    requires NoRepeats(ops) && HasResult(StoreMachine(), ops, c)
    ensures AnsweredThere(ops, x, c)
  {
    var y: nat :| ResultAt(StoreMachine(), ops, y, c.op, c.result);
    x := y - 1;
    AnsweredAt(ops, y, c.op, c.result);
    HistoryAt(ops, x);
    NeverRefused(StoreAt(ops[..x]), ops[x].req);
    HistoryIsLegal(ops);
    ReadsLastWrite(HistoryOf(ops), x);
  }

  /**
   What calls to the replicated server return.  In every run there is one list of committed operations, none twice,
   that explains every replica, and every completed call has its place in it: a Get returned the value of the last
   successful Put of its key before it, with their number as version, or ErrNoKey when there was none; a Put succeeded
   exactly when it named that number.
   */
  lemma ReplicatedCallsAnsweredRight(n: nat, run: seq<Cluster<Request, Store, Reply>>) returns (ops: seq<Op<Request>>)
    requires IsService(StoreMachine(), n, run)
    ensures NoRepeats(ops) && StateExplained(OnRequests(StoreMachine()), ops, run[|run| - 1].raft)
    ensures forall c :: c in run[|run| - 1].completed ==> HasPlace(ops, c)
  {
    ops := SubmitIsLinearizable(StoreMachine(), n, run);
    forall c | c in run[|run| - 1].completed ensures HasPlace(ops, c) {
      var x := CompletedThere(ops, c);
    }
  }

  /**
   In every run of the replicated server there is one list of committed operations, none twice, that explains
   every replica, and against it the clerk's verdicts are true: a Put that returned OK took effect exactly once
   in the whole run, and one that returned ErrVersion never did.
   */
  lemma ReplicatedVerdictsAreTrue(n: nat, run: seq<Cluster<Request, Store, Reply>>, q: Request, rpcs: seq<Rpc>,
                                  tries: seq<Option<Op<Request>>>, verdict: Err) returns (ops: seq<Op<Request>>)
    requires IsService(StoreMachine(), n, run)
    requires Tries(run[|run| - 1].completed, q, rpcs, tries) && Grounded(rpcs, verdict)
    ensures NoRepeats(ops) && StateExplained(OnRequests(StoreMachine()), ops, run[|run| - 1].raft)
    ensures verdict == OK ==> ExactlyOneEffect(HistoryOf(ops), Places(ops, tries))
    ensures verdict == ErrVersion ==> NoEffect(HistoryOf(ops), Places(ops, tries))
  {
    ops := SubmitIsLinearizable(StoreMachine(), n, run);
    HistoryIsLegal(ops);
    TriesAreAttempts(run[|run| - 1].completed, ops, q, rpcs, tries);
    VerdictsAreTrue(HistoryOf(ops), q, rpcs, Places(ops, tries), verdict);
  }
}
