/**
 The requests the shard groups execute in a run are a history of one versioned store, so clerk verdicts hold across
 shard moves.
 */
module ShardHistory {
  import opened Common
  import opened VersionedStore
  import opened ShardGroup
  import opened ShardMigration
  import opened ShardTheorems
  import opened Clerks

  /** The client requests executed in the first `n` events, in order, with their results. */
  ghost function HistoryOf(kf: KeyMap, first: Config, run: seq<Sys>, events: seq<Event>, n: nat): seq<Done>
    requires IsRun(kf, first, run, events) && n <= |events|
  {
    if n == 0 then []
    else
      var h, e := HistoryOf(kf, first, run, events, n - 1), events[n - 1];
      if e.ClientOp? then h + [Done(e.q, DoClient(kf, run[n - 1].groups[e.gid], e.q).1)] else h
  }

  lemma {:induction false} HistoryFollows(kf: KeyMap, first: Config, run: seq<Sys>, events: seq<Event>,
                                          truths: seq<Store>, n: nat)
    requires IsRun(kf, first, run, events) && n <= |events| && |truths| == |run| && truths[0] == map[]
    requires forall i :: 0 <= i < |events| ==> Effect(kf, run[i], events[i], truths[i], truths[i + 1])
    ensures Legal(HistoryOf(kf, first, run, events, n)) && StoreAfter(HistoryOf(kf, first, run, events, n)) == truths[n]
    decreases n
  {
    if n > 0 {
      HistoryFollows(kf, first, run, events, truths, n - 1);
      var h, e := HistoryOf(kf, first, run, events, n - 1), events[n - 1];
      assert Effect(kf, run[n - 1], e, truths[n - 1], truths[n]);
      if e.ClientOp? {
        LegalGrows(h, Done(e.q, DoClient(kf, run[n - 1].groups[e.gid], e.q).1));
      }
    }
  }

  /** Every run of the sharded service, migrations included, executes a legal history of one versioned store. */
  lemma ShardedHistoryIsLegal(kf: KeyMap, first: Config, run: seq<Sys>, events: seq<Event>)
    requires IsRun(kf, first, run, events)
    ensures Legal(HistoryOf(kf, first, run, events, |events|))
  {
    var truths := RefinesOneMap(kf, first, run, events);
    HistoryFollows(kf, first, run, events, truths, |events|);
  }

  /**
   So a sharded Put that returns OK took effect exactly once in the whole run, and one that returns ErrVersion never
   did.
   */
  lemma ShardedVerdictsAreTrue(kf: KeyMap, first: Config, run: seq<Sys>, events: seq<Event>, q: Request,
                               rpcs: seq<Rpc>, at: seq<Option<nat>>, verdict: Err)
    requires IsRun(kf, first, run, events)
    requires Attempts(HistoryOf(kf, first, run, events, |events|), q, rpcs, at) && Grounded(rpcs, verdict)
    ensures verdict == OK ==> ExactlyOneEffect(HistoryOf(kf, first, run, events, |events|), at)
    ensures verdict == ErrVersion ==> NoEffect(HistoryOf(kf, first, run, events, |events|), at)
  {
    ShardedHistoryIsLegal(kf, first, run, events);
    VerdictsAreTrue(HistoryOf(kf, first, run, events, |events|), q, rpcs, at, verdict);
  }
}
