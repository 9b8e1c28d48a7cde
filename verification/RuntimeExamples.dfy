/** Runs of two workers in which something goes wrong. */
module RuntimeExamples {
  import opened Runtime
  import opened RuntimeEffects
  import opened RuntimeInvariant
  import opened RuntimeTheorems

  /** In this run each fiber has one wake source, but handles on finished tasks may be used. */
  ghost predicate SourceRun(s: State, es: seq<Event>)
    requires Run(s, es)
    decreases |es|
  {
    es == [] || (OneSource(s, es[0]) && SourceRun(Apply(s, es[0]), es[1..]))
  }

  /** Runs grow at the end. */
  lemma {:induction false} Extend(s: State, es: seq<Event>, e: Event)
    requires Run(s, es) && Possible(Exec(s, es), e)
    ensures Run(s, es + [e]) && Exec(s, es + [e]) == Apply(Exec(s, es), e)
    ensures Ruled(s, es) && OneWakeSource(Exec(s, es), e) ==> Ruled(s, es + [e])
    ensures SourceRun(s, es) && OneSource(Exec(s, es), e) ==> SourceRun(s, es + [e])
    decreases |es|
  {
    if es == [] {
      assert es + [e] == [e];
      assert [e][1..] == [];
    } else {
      assert (es + [e])[1..] == es[1..] + [e];
      Extend(Apply(s, es[0]), es[1..], e);
    }
  }

  const START: State := Init(2, false)

  datatype Kind = Any | OneSourceOnly | RuleKept

  /** A run from the start to a given state, and what its clients keep to. */
  ghost predicate LeadsTo(es: seq<Event>, s: State, kind: Kind) {
    && Visited(s, 2, false, es)
    && (kind == OneSourceOnly ==> SourceRun(START, es)) && (kind == RuleKept ==> Ruled(START, es))
  }

  ghost predicate StepsTo(s: State, e: Event, s': State, kind: Kind) {
    && Possible(s, e) && Apply(s, e) == s'
    && (kind == OneSourceOnly ==> OneSource(s, e)) && (kind == RuleKept ==> OneWakeSource(s, e))
  }

  lemma Next(es: seq<Event>, s: State, e: Event, s': State, kind: Kind) returns (es': seq<Event>)
    requires LeadsTo(es, s, kind) && StepsTo(s, e, s', kind)
    ensures LeadsTo(es', s', kind)
  {
    Extend(START, es, e);
    es' := es + [e];
  }

  /** Two workers, and tasks without registrations or timers. */
  function Two(queue: seq<Entry>, status: map<Task, Status>, active: int, first: Pc, second: Pc): State {
    State(queue, status, {}, multiset{}, multiset{}, map[], 0, 0, active, [first, second], [NoFiber, NoFiber],
          [false, false], false, map[], {}, {}, false)
  }

  lemma StartIsTwo()
    ensures START == Two([], map[], 0, Top, Top)
  {
  }

  lemma FirstOfOne(s: State, t: Task, w: int)
    requires s.queue == [Entry(t, -1)] && (t in s.status ==> s.status[t] != EXEC)
    ensures FirstEligible(s.queue, s.status, w) == 0 && RemoveAt(s.queue, 0) == []
  {
  }

  lemma FirstOfTwo(s: State, t: Task, w: int)
    requires s.queue == [Entry(t, -1), Entry(t, -1)] && (t in s.status ==> s.status[t] != EXEC)
    ensures FirstEligible(s.queue, s.status, w) == 0 && RemoveAt(s.queue, 0) == [Entry(t, -1)]
  {
  }

  // ---------------------------------------------------------------- two wake sources

  lemma QueuedOnce() returns (es: seq<Event>)
    ensures LeadsTo(es, Two([Entry(7, -1)], map[7 := INIT], 0, Top, Top), Any)
  {
    StartIsTwo();
    es := Next([], Two([], map[], 0, Top, Top), Submit(7, -1, false),
               Two([Entry(7, -1)], map[7 := INIT], 0, Top, Top), Any);
  }

  lemma QueuedTwice() returns (es: seq<Event>)
    ensures LeadsTo(es, Two([Entry(7, -1), Entry(7, -1)], map[7 := INIT], 0, Top, Top), Any)
  {
    es := QueuedOnce();
    es := Next(es, Two([Entry(7, -1)], map[7 := INIT], 0, Top, Top), Wake(7, -1),
               Two([Entry(7, -1), Entry(7, -1)], map[7 := INIT], 0, Top, Top), Any);
  }

  lemma PickedOnce() returns (es: seq<Event>)
    ensures LeadsTo(es, Two([Entry(7, -1)], map[7 := INIT], 1, Picked(7), Top), Any)
  {
    es := QueuedTwice();
    FirstOfTwo(Two([Entry(7, -1), Entry(7, -1)], map[7 := INIT], 0, Top, Top), 7, 0);
    es := Next(es, Two([Entry(7, -1), Entry(7, -1)], map[7 := INIT], 0, Top, Top), Pick(0),
               Two([Entry(7, -1)], map[7 := INIT], 1, Picked(7), Top), Any);
  }

  lemma PickedTwice() returns (es: seq<Event>)
    ensures LeadsTo(es, Two([], map[7 := INIT], 2, Picked(7), Picked(7)), Any)
  {
    es := PickedOnce();
    FirstOfOne(Two([Entry(7, -1)], map[7 := INIT], 1, Picked(7), Top), 7, 1);
    es := Next(es, Two([Entry(7, -1)], map[7 := INIT], 1, Picked(7), Top), Pick(1),
               Two([], map[7 := INIT], 2, Picked(7), Picked(7)), Any);
  }

  lemma EnteredOnce() returns (es: seq<Event>)
    ensures LeadsTo(es, Two([], map[7 := EXEC], 2, Running(7), Picked(7)), Any)
  {
    es := PickedTwice();
    es := Next(es, Two([], map[7 := INIT], 2, Picked(7), Picked(7)), SwapIn(0),
               Two([], map[7 := EXEC], 2, Running(7), Picked(7)), Any);
  }

  /** Without the rule the guarantee is gone: two queued wake-ups of one fiber let two workers pick it,
      and the second swapIn finds it in EXEC. */
  lemma TwoWakeSourcesAbort() returns (es: seq<Event>, s: State)
    ensures Visited(s, 2, false, es) && s.aborted
  {
    es := EnteredOnce();
    s := Two([], map[7 := EXEC], 2, Running(7), Picked(7)).(aborted := true);
    es := Next(es, Two([], map[7 := EXEC], 2, Running(7), Picked(7)), SwapIn(1), s, Any);
  }

  // ---------------------------------------------------------------- stopping early

  lemma Held(s: State, t: Task)
    requires s.waits == multiset{} && s.timers == multiset{} && s.sleeps == map[] && |s.workers| == 2
    ensures var (a, b) := (Of(s.workers[0], t), Of(s.workers[1], t));
            && CountOf(s, t).picked == a.picked + b.picked && CountOf(s, t).batch == a.batch + b.batch
            && CountOf(s, t).running == a.running + b.running && CountOf(s, t).out == a.out + b.out
    ensures CountOf(s, t).waits == CountOf(s, t).asleep == CountOf(s, t).timers == 0
  {
    var ws := s.workers;
    var one := ws[..1];
    assert one == [ws[0]] && one[..0] == [] && Total([], t) == Tally(0, 0, 0, 0);
    assert Total(one, t) == Of(ws[0], t);
    assert Wakers(s.sleeps, t) == {};
  }

  function Asked(s: State): State { s.(stopRequested := true) }

  lemma Submitted() returns (es: seq<Event>)
    ensures LeadsTo(es, Two([Entry(7, -1)], map[7 := INIT], 0, Top, Top), RuleKept)
  {
    StartIsTwo();
    es := Next([], Two([], map[], 0, Top, Top), Submit(7, -1, false),
               Two([Entry(7, -1)], map[7 := INIT], 0, Top, Top), RuleKept);
  }

  lemma StopRequested() returns (es: seq<Event>)
    ensures LeadsTo(es, Asked(Two([Entry(7, -1)], map[7 := INIT], 0, Top, Top)), RuleKept)
  {
    es := Submitted();
    es := Next(es, Two([Entry(7, -1)], map[7 := INIT], 0, Top, Top), RequestStop,
               Asked(Two([Entry(7, -1)], map[7 := INIT], 0, Top, Top)), RuleKept);
  }

  lemma PickedAfterStop() returns (es: seq<Event>)
    ensures LeadsTo(es, Asked(Two([], map[7 := INIT], 1, Picked(7), Top)), RuleKept)
  {
    es := StopRequested();
    FirstOfOne(Asked(Two([Entry(7, -1)], map[7 := INIT], 0, Top, Top)), 7, 0);
    es := Next(es, Asked(Two([Entry(7, -1)], map[7 := INIT], 0, Top, Top)), Pick(0),
               Asked(Two([], map[7 := INIT], 1, Picked(7), Top)), RuleKept);
  }

  lemma RunningAfterStop() returns (es: seq<Event>)
    ensures LeadsTo(es, Asked(Two([], map[7 := EXEC], 1, Running(7), Top)), RuleKept)
  {
    es := PickedAfterStop();
    es := Next(es, Asked(Two([], map[7 := INIT], 1, Picked(7), Top)), SwapIn(0),
               Asked(Two([], map[7 := EXEC], 1, Running(7), Top)), RuleKept);
  }

  lemma ReadyAndCounted() returns (es: seq<Event>)
    ensures LeadsTo(es, Asked(Two([], map[7 := READY], 1, Out(7), Top)), RuleKept)
  {
    es := RunningAfterStop();
    Held(Asked(Two([], map[7 := EXEC], 1, Running(7), Top)), 7);
    es := Next(es, Asked(Two([], map[7 := EXEC], 1, Running(7), Top)), YieldReady(0),
               Asked(Two([], map[7 := READY], 1, Out(7), Top)), RuleKept);
  }

  lemma ReadyAndUncounted() returns (es: seq<Event>)
    ensures LeadsTo(es, Asked(Two([], map[7 := READY], 0, Back(7), Top)), RuleKept)
  {
    es := ReadyAndCounted();
    es := Next(es, Asked(Two([], map[7 := READY], 1, Out(7), Top)), Decrement(0),
               Asked(Two([], map[7 := READY], 0, Back(7), Top)), RuleKept);
  }

  /** What stopping() reads is not enough with two workers: worker 1 sees an empty queue and no active worker
      while worker 0 has counted itself out but not yet put its READY fiber back. */
  lemma TwoWorkersStopEarly() returns (es: seq<Event>, s: State)
    ensures Reached(s, 2, false, es) && Stopping(s) && 7 in s.status && !Settled(s, 7)
  {
    es := ReadyAndUncounted();
    s := Asked(Two([], map[7 := READY], 0, Back(7), Top));
    Unsettled(s, 7);
  }

  lemma Unsettled(s: State, t: Task)
    requires t in s.status && !Finished(s.status[t]) && t !in s.parked && t !in s.withdrawn
    ensures !Settled(s, t)
  {
  }

  // ---------------------------------------------------------------- a stale handle

  /** Callback 1 is with worker 0, which runs it on a fiber of its own. */
  function First(queue: seq<Entry>, st: Status, cbs: set<Task>, active: int, first: Pc, cbFiber: CbFiber): State {
    Two(queue, map[1 := st], active, first, Top).(cbs := cbs, cbFibers := [cbFiber, NoFiber])
  }

  lemma FirstQueued() returns (es: seq<Event>)
    ensures LeadsTo(es, First([Entry(1, -1)], INIT, {1}, 0, Top, NoFiber), OneSourceOnly)
  {
    StartIsTwo();
    es := Next([], Two([], map[], 0, Top, Top), Submit(1, -1, true),
               First([Entry(1, -1)], INIT, {1}, 0, Top, NoFiber), OneSourceOnly);
  }

  lemma FirstPicked() returns (es: seq<Event>)
    ensures LeadsTo(es, First([], INIT, {1}, 1, Picked(1), NoFiber), OneSourceOnly)
  {
    es := FirstQueued();
    FirstOfOne(First([Entry(1, -1)], INIT, {1}, 0, Top, NoFiber), 1, 0);
    es := Next(es, First([Entry(1, -1)], INIT, {1}, 0, Top, NoFiber), Pick(0),
               First([], INIT, {1}, 1, Picked(1), NoFiber), OneSourceOnly);
  }

  lemma FirstRuns() returns (es: seq<Event>)
    ensures LeadsTo(es, First([], EXEC, {}, 1, Running(1), InUse), OneSourceOnly)
  {
    es := FirstPicked();
    assert First([], INIT, {1}, 1, Picked(1), NoFiber).cbs - {1} == {};
    es := Next(es, First([], INIT, {1}, 1, Picked(1), NoFiber), SwapIn(0),
               First([], EXEC, {}, 1, Running(1), InUse), OneSourceOnly);
  }

  lemma FirstEnds() returns (es: seq<Event>)
    ensures LeadsTo(es, First([], TERM, {}, 1, Out(1), InUse), OneSourceOnly)
  {
    es := FirstRuns();
    Held(First([], EXEC, {}, 1, Running(1), InUse), 1);
    es := Next(es, First([], EXEC, {}, 1, Running(1), InUse), Finish(0, false),
               First([], TERM, {}, 1, Out(1), InUse), OneSourceOnly);
  }

  lemma FirstOut() returns (es: seq<Event>)
    ensures LeadsTo(es, First([], TERM, {}, 0, Back(1), InUse), OneSourceOnly)
  {
    es := FirstEnds();
    es := Next(es, First([], TERM, {}, 1, Out(1), InUse), Decrement(0),
               First([], TERM, {}, 0, Back(1), InUse), OneSourceOnly);
  }

  lemma FirstThrough() returns (es: seq<Event>)
    ensures LeadsTo(es, First([], TERM, {}, 0, Top, Spare(1)), OneSourceOnly)
  {
    es := FirstOut();
    es := Next(es, First([], TERM, {}, 0, Back(1), InUse), Post(0),
               First([], TERM, {}, 0, Top, Spare(1)), OneSourceOnly);
  }

  /** Callback 2 comes next, */
  function Second(queue: seq<Entry>, active: int, first: Pc): State {
    Two(queue, map[1 := TERM, 2 := INIT], active, first, Top).(cbs := {2}, cbFibers := [Spare(1), NoFiber])
  }

  lemma SecondQueued() returns (es: seq<Event>)
    ensures LeadsTo(es, Second([Entry(2, -1)], 0, Top), OneSourceOnly)
  {
    es := FirstThrough();
    assert map[1 := TERM][2 := INIT] == map[1 := TERM, 2 := INIT];
    es := Next(es, First([], TERM, {}, 0, Top, Spare(1)), Submit(2, -1, true),
               Second([Entry(2, -1)], 0, Top), OneSourceOnly);
  }

  lemma SecondPicked() returns (es: seq<Event>)
    ensures LeadsTo(es, Second([], 1, Picked(2)), OneSourceOnly)
  {
    es := SecondQueued();
    FirstOfOne(Second([Entry(2, -1)], 0, Top), 2, 0);
    es := Next(es, Second([Entry(2, -1)], 0, Top), Pick(0), Second([], 1, Picked(2)), OneSourceOnly);
  }

  /** and is given the fiber that was callback 1's. */
  function Handed2(queue: seq<Entry>, st: Status, active: int, first: Pc, second: Pc, cbFiber: CbFiber): State {
    Two(queue, map[1 := TERM, 2 := st], active, first, second).(cbFibers := [cbFiber, NoFiber], heirs := map[1 := 2])
  }

  lemma SecondSwapsIn(s: State)
    requires s == Second([], 1, Picked(2))
    ensures Possible(s, SwapIn(0)) && Apply(s, SwapIn(0)) == Handed2([], EXEC, 1, Running(2), Top, InUse)
  {
    assert SubWorkers(s.workers, 1, 2) == s.workers && SubQueue(s.queue, 1, 2) == [];
    assert SubWaits(s.waits, 1, 2) == multiset{} && SubMap(s.sleeps, 1, 2) == map[];
    assert SubMap(s.heirs, 1, 2)[1 := 2] == map[1 := 2] && s.cbs - {2} == {};
  }

  lemma SecondRuns() returns (es: seq<Event>)
    ensures LeadsTo(es, Handed2([], EXEC, 1, Running(2), Top, InUse), OneSourceOnly)
  {
    es := SecondPicked();
    SecondSwapsIn(Second([], 1, Picked(2)));
    es := Next(es, Second([], 1, Picked(2)), SwapIn(0), Handed2([], EXEC, 1, Running(2), Top, InUse), OneSourceOnly);
  }

  lemma SecondYields() returns (es: seq<Event>)
    ensures LeadsTo(es, Handed2([], READY, 1, Out(2), Top, InUse), OneSourceOnly)
  {
    es := SecondRuns();
    Held(Handed2([], EXEC, 1, Running(2), Top, InUse), 2);
    es := Next(es, Handed2([], EXEC, 1, Running(2), Top, InUse), YieldReady(0),
               Handed2([], READY, 1, Out(2), Top, InUse), OneSourceOnly);
  }

  lemma SecondOut() returns (es: seq<Event>)
    ensures LeadsTo(es, Handed2([], READY, 0, Back(2), Top, InUse), OneSourceOnly)
  {
    es := SecondYields();
    es := Next(es, Handed2([], READY, 1, Out(2), Top, InUse), Decrement(0),
               Handed2([], READY, 0, Back(2), Top, InUse), OneSourceOnly);
  }

  lemma SecondWaits() returns (es: seq<Event>)
    ensures LeadsTo(es, Handed2([Entry(2, -1)], READY, 0, Top, Top, NoFiber), OneSourceOnly)
  {
    es := SecondOut();
    es := Next(es, Handed2([], READY, 0, Back(2), Top, InUse), Post(0),
               Handed2([Entry(2, -1)], READY, 0, Top, Top, NoFiber), OneSourceOnly);
  }

  /** Nothing is outstanding of task 1, */
  lemma NothingOfOne(s: State)
    requires s.waits == multiset{} && s.timers == multiset{} && s.sleeps == map[]
    requires s.workers == [Top, Top] && s.queue == [Entry(2, -1)]
    ensures Tokens(s, 1) == Own(s, 1) == 0
  {
    Held(s, 1);
    QueuedPush([], Entry(2, -1), 1);
    assert s.queue == [] + [Entry(2, -1)];
  }

  /** and its handle means task 2. */
  lemma HandleMeansTwo(s: State)
    requires s == Handed2([Entry(2, -1)], READY, 0, Top, Top, NoFiber)
    ensures Possible(s, Wake(1, -1))
    ensures Apply(s, Wake(1, -1)) == Handed2([Entry(2, -1), Entry(2, -1)], READY, 0, Top, Top, NoFiber)
  {
    assert Heir(s, 1) == 2 && s.queue + [Entry(2, -1)] == [Entry(2, -1), Entry(2, -1)];
    assert s.parked - {2} == s.parked && s.withdrawn - {2} == s.withdrawn;
  }

  lemma OneSourceOfOne(s: State)
    requires Tokens(s, 1) == Own(s, 1) == 0
    ensures OneSource(s, Wake(1, -1))
  {
  }

  lemma HandleStep(s: State, s': State)
    requires s == Handed2([Entry(2, -1)], READY, 0, Top, Top, NoFiber)
    requires s' == Handed2([Entry(2, -1), Entry(2, -1)], READY, 0, Top, Top, NoFiber)
    ensures StepsTo(s, Wake(1, -1), s', OneSourceOnly)
  {
    NothingOfOne(s);
    OneSourceOfOne(s);
    HandleMeansTwo(s);
  }

  lemma HandleUsed(es0: seq<Event>, s: State, s': State) returns (es: seq<Event>)
    requires LeadsTo(es0, s, OneSourceOnly) && StepsTo(s, Wake(1, -1), s', OneSourceOnly)
    ensures LeadsTo(es, s', OneSourceOnly)
  {
    es := Next(es0, s, Wake(1, -1), s', OneSourceOnly);
  }

  lemma HandleScheduled() returns (es: seq<Event>)
    ensures LeadsTo(es, Handed2([Entry(2, -1), Entry(2, -1)], READY, 0, Top, Top, NoFiber), OneSourceOnly)
  {
    es := SecondWaits();
    var s := Handed2([Entry(2, -1)], READY, 0, Top, Top, NoFiber);
    var s' := Handed2([Entry(2, -1), Entry(2, -1)], READY, 0, Top, Top, NoFiber);
    HandleStep(s, s');
    es := HandleUsed(es, s, s');
  }

  lemma HandlePicked() returns (es: seq<Event>)
    ensures LeadsTo(es, Handed2([Entry(2, -1)], READY, 1, Picked(2), Top, NoFiber), OneSourceOnly)
  {
    es := HandleScheduled();
    FirstOfTwo(Handed2([Entry(2, -1), Entry(2, -1)], READY, 0, Top, Top, NoFiber), 2, 0);
    es := Next(es, Handed2([Entry(2, -1), Entry(2, -1)], READY, 0, Top, Top, NoFiber), Pick(0),
               Handed2([Entry(2, -1)], READY, 1, Picked(2), Top, NoFiber), OneSourceOnly);
  }

  lemma BothPicked() returns (es: seq<Event>)
    ensures LeadsTo(es, Handed2([], READY, 2, Picked(2), Picked(2), NoFiber), OneSourceOnly)
  {
    es := HandlePicked();
    FirstOfOne(Handed2([Entry(2, -1)], READY, 1, Picked(2), Top, NoFiber), 2, 1);
    es := Next(es, Handed2([Entry(2, -1)], READY, 1, Picked(2), Top, NoFiber), Pick(1),
               Handed2([], READY, 2, Picked(2), Picked(2), NoFiber), OneSourceOnly);
  }

  lemma OneEntered() returns (es: seq<Event>)
    ensures LeadsTo(es, Handed2([], EXEC, 2, Running(2), Picked(2), NoFiber), OneSourceOnly)
  {
    es := BothPicked();
    es := Next(es, Handed2([], READY, 2, Picked(2), Picked(2), NoFiber), SwapIn(0),
               Handed2([], EXEC, 2, Running(2), Picked(2), NoFiber), OneSourceOnly);
  }

  /** One wake source for each fiber is not enough: the worker has given the fiber of callback 1, which is
      through, to callback 2; whoever still holds on to it and schedules it schedules task 2, which is queued
      already. Two workers pick it, and the second swapIn finds it in EXEC. */
  lemma StaleHandleAborts() returns (es: seq<Event>, s: State)
    ensures Visited(s, 2, false, es) && SourceRun(START, es) && s.aborted
  {
    es := OneEntered();
    s := Handed2([], EXEC, 2, Running(2), Picked(2), NoFiber).(aborted := true);
    es := Next(es, Handed2([], EXEC, 2, Running(2), Picked(2), NoFiber), SwapIn(1), s, OneSourceOnly);
  }
}
