/** A run in which a second controller initialises after a configuration change, and panics. */
module ShardInit {
  import opened Common
  import opened VersionedStore
  import opened ShardGroup
  import opened ShardMigration

  /** One more event. */
  lemma GoOn(kf: KeyMap, first: Config, run: seq<Sys>, events: seq<Event>, e: Event)
    returns (run': seq<Sys>, events': seq<Event>)
    requires IsRun(kf, first, run, events) && Enabled(kf, Now(run, events), e)
    ensures IsRun(kf, first, run', events') && Now(run', events') == Perform(kf, first, Now(run, events), e)
  {
    run', events' := run + [Perform(kf, first, Now(run, events), e)], events + [e];
  }

  lemma {:induction false} NoMoves(a: Config, b: Config, s: nat)
    requires a.shards == b.shards && s <= |a.shards|
    ensures Moves(a, b, s) == []
  {
    if s > 0 { NoMoves(a, b, s - 1); }
  }

  function Second(first: Config): Config {
    first.(num := 2)
  }

  /** The state the events so far have led to. */
  function Now(run: seq<Sys>, events: seq<Event>): Sys
    requires |run| == |events| + 1
  {
    run[|events|]
  }

  /** The first controller records the first configuration in one key, then in the other. */
  lemma CurrentInitialised(kf: KeyMap, first: Config) returns (run: seq<Sys>, events: seq<Event>)
    requires IsFirst(first)
    ensures IsRun(kf, first, run, events)
    ensures var y := Now(run, events);
      && y.current == Register(Some(first), 1) && y.next == Register(None, 0) && |y.puts| == 1
      && y.ctrls == map[0 := InitCurrent(first, 0)]
  {
    run := [Sys(map[GID1 := Initial(GID1)], Register(None, 0), Register(None, 0), map[], [], [], [], [])];
    events := [];
    run, events := GoOn(kf, first, run, events, InitConfig(0));
    run, events := GoOn(kf, first, run, events, ExecPut(Cas(Current, first, 0, 0)));
  }

  lemma Initialised(kf: KeyMap, first: Config) returns (run: seq<Sys>, events: seq<Event>)
    requires IsFirst(first)
    ensures IsRun(kf, first, run, events)
    ensures var y := Now(run, events);
      y.current == y.next == Register(Some(first), 1) && |y.puts| == 2 && y.ctrls == map[0 := Idle]
  {
    run, events := CurrentInitialised(kf, first);
    run, events := GoOn(kf, first, run, events, InitGoesOn(0));
    run, events := GoOn(kf, first, run, events, ExecPut(Cas(Next, first, 0, 1)));
    run, events := GoOn(kf, first, run, events, InitGoesOn(0));
  }

  /** It chooses the second configuration and records it as the next one. */
  lemma GoalChosen(kf: KeyMap, first: Config) returns (run: seq<Sys>, events: seq<Event>)
    requires IsFirst(first)
    ensures IsRun(kf, first, run, events)
    ensures var y := Now(run, events);
      && y.current == y.next == Register(Some(first), 1) && |y.puts| == 3 && Cas(Next, Second(first), 1, 2) in y.puts
      && y.ctrls == map[0 := PutNext(Job(first, Second(first), 1), 1, 2)]
  {
    run, events := Initialised(kf, first);
    run, events := GoOn(kf, first, run, events, Change(0, Second(first)));
    run, events := GoOn(kf, first, run, events, SeeNext(0));
  }

  lemma GoalGranted(kf: KeyMap, first: Config) returns (run: seq<Sys>, events: seq<Event>)
    requires IsFirst(first)
    ensures IsRun(kf, first, run, events)
    ensures var y := Now(run, events);
      && y.current == Register(Some(first), 1) && |y.puts| == 3 && Cas(Next, Second(first), 1, 2) in y.granted
      && y.ctrls == map[0 := PutNext(Job(first, Second(first), 1), 1, 2)]
  {
    run, events := GoalChosen(kf, first);
    run, events := GoOn(kf, first, run, events, ExecPut(Cas(Next, Second(first), 1, 2)));
  }

  lemma NextRecorded(kf: KeyMap, first: Config) returns (run: seq<Sys>, events: seq<Event>)
    requires IsFirst(first)
    ensures IsRun(kf, first, run, events)
    ensures var y := Now(run, events);
      && y.current == Register(Some(first), 1) && |y.puts| == 3
      && y.ctrls == map[0 := StartChange(Job(first, Second(first), 1))]
  {
    run, events := GoalGranted(kf, first);
    run, events := GoOn(kf, first, run, events, NextGranted(0));
  }

  /** No shard moves, so it goes straight through the phases and publishes. */
  lemma Installed(kf: KeyMap, first: Config) returns (run: seq<Sys>, events: seq<Event>)
    requires IsFirst(first)
    ensures IsRun(kf, first, run, events)
    ensures var y := Now(run, events);
      && y.current == Register(Some(first), 1) && |y.puts| == 3
      && y.ctrls == map[0 := Installing(Job(first, Second(first), 1), [], [], 0)]
  {
    run, events := NextRecorded(kf, first);
    NoMoves(first, Second(first), |first.shards|);
    run, events := GoOn(kf, first, run, events, Proceed(0));
  }

  lemma Published(kf: KeyMap, first: Config) returns (run: seq<Sys>, events: seq<Event>)
    requires IsFirst(first)
    ensures IsRun(kf, first, run, events)
    ensures Now(run, events).current == Register(Some(Second(first)), 2) && 1 !in Now(run, events).ctrls
  {
    run, events := Installed(kf, first);
    run, events := GoOn(kf, first, run, events, Proceed(0));
    run, events := GoOn(kf, first, run, events, Proceed(0));
    run, events := GoOn(kf, first, run, events, ExecPut(Cas(Current, Second(first), 1, 3)));
  }

  /** A second controller initialising with the same first configuration then panics. */
  lemma LateInitPanics(kf: KeyMap, first: Config) returns (run: seq<Sys>, events: seq<Event>)
    requires IsFirst(first)
    ensures IsRun(kf, first, run, events) && CtrlOf(Now(run, events), 1) == Panicked
  {
    run, events := Published(kf, first);
    run, events := GoOn(kf, first, run, events, InitConfig(1));
    run, events := GoOn(kf, first, run, events, InitPanics(1));
  }
}
