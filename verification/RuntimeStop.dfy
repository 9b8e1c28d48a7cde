/** When workers stop: not before stop() was called, and exactly when there is nothing left that `stopping` can see. */
module RuntimeStop {
  import opened Counting
  import opened Runtime
  import opened RuntimeEffects
  import opened RuntimeInvariant
  import opened RuntimeTheorems
  import opened RuntimeDrain

  /** stop() was called in this run. */
  ghost predicate Asked(es: seq<Event>) { exists i :: 0 <= i < |es| && es[i].RequestStop? }

  lemma AskedStep(s: State, e: Event)
    requires Possible(s, e)
    ensures Apply(s, e).stopRequested <==> s.stopRequested || e.RequestStop?
  {
    if ByWorker(e) { WorkersDoNotAsk(s, e, e.w); }
  }

  lemma WorkersDoNotAsk(s: State, e: Event, w: nat)
    requires Possible(s, e) && ByWorker(e) && e.w == w
    ensures Apply(s, e).stopRequested == s.stopRequested
  {
  }

  lemma {:induction false} AskedRun(s: State, es: seq<Event>)
    requires Run(s, es)
    ensures Exec(s, es).stopRequested <==> s.stopRequested || Asked(es)
    decreases |es|
  {
    if es != [] {
      AskedStep(s, es[0]);
      AskedRun(Apply(s, es[0]), es[1..]);
      if i :| 0 <= i < |es[1..]| && es[1..][i].RequestStop? { assert es[i+1].RequestStop?; }
      if i :| 0 <= i < |es| && es[i].RequestStop? { if i > 0 { assert es[1..][i-1].RequestStop?; } }
    }
  }

  // ---------------------------------------------------------------- not before

  lemma {:induction false} NotAskedRun(s: State, es: seq<Event>)
    requires Run(s, es) && !s.stopRequested && !Asked(es) && !Stopped(s)
    ensures !Stopped(Exec(s, es))
    decreases |es|
  {
    if es != [] {
      StaysOn(s, es[0]);
      assert !es[0].RequestStop?;
      AskedStep(s, es[0]);
      forall i | 0 <= i < |es[1..]| ensures !es[1..][i].RequestStop? { assert es[1..][i] == es[i+1]; }
      NotAskedRun(Apply(s, es[0]), es[1..]);
    }
  }

  /** While stop() has not been called, no idle fiber ends and no worker leaves its loop, in any run. */
  lemma NobodyLeavesEarly(s: State, n: nat, caller: bool, es: seq<Event>)
    requires Visited(s, n, caller, es) && !Asked(es)
    ensures forall w :: 0 <= w < |s.workers| ==> !s.workers[w].Exited?
    ensures forall w :: 0 <= w < |s.idleDone| ==> !s.idleDone[w]
  {
    NotAskedRun(Init(n, caller), es);
  }

  lemma NotStartedStep(s: State, e: Event, w: nat)
    requires Possible(s, e) && At(s, w) && s.workers[w].NotStarted? && !s.stopRequested
    ensures At(Apply(s, e), w) && Apply(s, e).workers[w].NotStarted?
  {
    if !ByWorker(e) { ClientsLeaveWorkers(s, e); }
    else if e.SwapIn? { SwapInLeaves(s, e.w, w); }
    else { OneMoves(s, e, e.w); }
  }

  lemma SwapInLeaves(s: State, v: nat, w: nat)
    requires Possible(s, SwapIn(v)) && At(s, w) && s.workers[w].NotStarted?
    ensures At(Apply(s, SwapIn(v)), w) && Apply(s, SwapIn(v)).workers[w].NotStarted?
  {
  }

  lemma {:induction false} NotStartedRun(s: State, es: seq<Event>, w: nat)
    requires Run(s, es) && At(s, w) && s.workers[w].NotStarted? && !s.stopRequested && !Asked(es)
    ensures At(Exec(s, es), w) && Exec(s, es).workers[w].NotStarted?
    decreases |es|
  {
    if es != [] {
      NotStartedStep(s, es[0], w);
      assert !es[0].RequestStop?;
      AskedStep(s, es[0]);
      forall i | 0 <= i < |es[1..]| ensures !es[1..][i].RequestStop? { assert es[1..][i] == es[i+1]; }
      NotStartedRun(Apply(s, es[0]), es[1..], w);
    }
  }

  lemma StartedStep(s: State, e: Event, w: nat)
    requires Possible(s, e) && At(s, w) && !s.workers[w].NotStarted?
    ensures At(Apply(s, e), w) && !Apply(s, e).workers[w].NotStarted?
  {
    if !ByWorker(e) { ClientsLeaveWorkers(s, e); }
    else if e.SwapIn? { SwapInStarted(s, e.w, w); }
    else if e.Post? { PostMoves(s, e.w); }
    else if Switches(e) { SwitchMoves(s, e, e.w); }
    else if Hauls(e) { HaulMoves(s, e, e.w); }
    else { IdleMoves(s, e, e.w); }
  }

  lemma SwapInStarted(s: State, v: nat, w: nat)
    requires Possible(s, SwapIn(v)) && At(s, w) && !s.workers[w].NotStarted?
    ensures At(Apply(s, SwapIn(v)), w) && !Apply(s, SwapIn(v)).workers[w].NotStarted?
  {
  }

  lemma {:induction false} StartedRun(s: State, es: seq<Event>, w: nat)
    requires Run(s, es) && At(s, w) && !s.workers[w].NotStarted?
    ensures At(Exec(s, es), w) && !Exec(s, es).workers[w].NotStarted?
    decreases |es|
  {
    if es != [] {
      StartedStep(s, es[0], w);
      StartedRun(Apply(s, es[0]), es[1..], w);
    }
  }

  /** The calling thread works on the queue only in stop(): until then its worker has not started, in any run; the
      scheduler's own threads work from the beginning. */
  lemma CallerWorksInStop(s: State, n: nat, caller: bool, es: seq<Event>, w: nat)
    requires Visited(s, n, caller, es) && w < n
    ensures At(s, w) && (caller && w == 0 && !Asked(es) ==> s.workers[w].NotStarted?)
    ensures !(caller && w == 0) ==> !s.workers[w].NotStarted?
  {
    var start := Init(n, caller);
    if start.workers[w].NotStarted? {
      if !Asked(es) { NotStartedRun(start, es, w); } else { SizeRun(start, es); }
    } else {
      StartedRun(start, es, w);
    }
  }

  lemma {:induction false} SizeRun(s: State, es: seq<Event>)
    requires Run(s, es)
    ensures |Exec(s, es).workers| == |s.workers|
    decreases |es|
  {
    if es != [] {
      WorkersStay(s, es[0]);
      SizeRun(Apply(s, es[0]), es[1..]);
    }
  }

  // ---------------------------------------------------------------- exactly when

  /** A worker in its idle fiber has not ended it. */
  predicate IdleLives(s: State, v: nat) {
    At(s, v) && v < |s.idleDone| && (s.workers[v].Idle? || s.workers[v].Batch?) ==> !s.idleDone[v]
  }

  lemma LivesElsewhere(s: State, s': State, w: nat, v: nat)
    requires IdleLives(s, v) && MovesOne(s, s', w) && v != w
    requires |s'.idleDone| == |s.idleDone| && (v < |s.idleDone| ==> s'.idleDone[v] == s.idleDone[v])
    ensures IdleLives(s', v)
  {
  }

  lemma LivesSwitch(s: State, e: Event, w: nat)
    requires Possible(s, e) && Switches(e) && e.w == w
    ensures IdleLives(Apply(s, e), w)
  {
    match e
    case Skip(_) => assert IdleLives(Apply(s, Skip(w)), w);
    case YieldReady(_) => assert IdleLives(Apply(s, YieldReady(w)), w);
    case YieldHold(_) => assert IdleLives(Apply(s, YieldHold(w)), w);
    case Finish(_, except) => assert IdleLives(Apply(s, Finish(w, except)), w);
    case Decrement(_) => assert IdleLives(Apply(s, Decrement(w)), w);
  }

  lemma LivesHaul(s: State, e: Event, w: nat)
    requires Possible(s, e) && (Hauls(e) || Idles(e)) && e.w == w && IdleLives(s, w)
    ensures IdleLives(Apply(s, e), w)
  {
    match e
    case Pick(_) => assert IdleLives(Apply(s, Pick(w)), w);
    case Expire(_, due) => assert IdleLives(Apply(s, Expire(w, due)), w);
    case Flush(_) => assert IdleLives(Apply(s, Flush(w)), w);
    case Start(_) => assert IdleLives(Apply(s, Start(w)), w);
    case PickNone(_) => assert IdleLives(Apply(s, PickNone(w)), w);
    case StopCheck(_) => assert IdleLives(Apply(s, StopCheck(w)), w);
    case Leave(_) => assert IdleLives(Apply(s, Leave(w)), w);
  }

  lemma LivesSwapIn(s: State, w: nat, v: nat)
    requires Possible(s, SwapIn(w)) && IdleLives(s, v)
    ensures IdleLives(Apply(s, SwapIn(w)), v)
  {
  }

  lemma LivesStep(s: State, e: Event, v: nat)
    requires Possible(s, e) && IdleLives(s, v)
    ensures IdleLives(Apply(s, e), v)
  {
    if !ByWorker(e) { ClientsLeaveWorkers(s, e); }
    else if e.SwapIn? { LivesSwapIn(s, e.w, v); }
    else if e.Post? { PostMoves(s, e.w); if e.w != v { LivesElsewhere(s, Apply(s, e), e.w, v); } }
    else if Switches(e) {
      SwitchMoves(s, e, e.w);
      if e.w == v { LivesSwitch(s, e, v); } else { LivesElsewhere(s, Apply(s, e), e.w, v); }
    } else if Hauls(e) {
      HaulMoves(s, e, e.w);
      if e.w == v { LivesHaul(s, e, v); } else { LivesElsewhere(s, Apply(s, e), e.w, v); }
    } else {
      IdleMoves(s, e, e.w);
      if e.w == v { LivesHaul(s, e, v); } else { LivesElsewhere(s, Apply(s, e), e.w, v); }
    }
  }

  lemma {:induction false} LivesRun(s: State, es: seq<Event>, v: nat)
    requires Run(s, es) && IdleLives(s, v)
    ensures IdleLives(Exec(s, es), v)
    decreases |es|
  {
    if es != [] {
      LivesStep(s, es[0], v);
      LivesRun(Apply(s, es[0]), es[1..], v);
    }
  }

  /** Nothing is left that shows: no timer, no registration or trigger under way, no entry, no worker with a task. */
  predicate NothingShows(s: State) {
    && s.timers == multiset{} && s.waits == multiset{} && s.triggers == 0 && s.queue == []
    && forall w :: 0 <= w < |s.workers| ==> !s.workers[w].Picked? && !s.workers[w].Running? && !s.workers[w].Out?
  }

  lemma {:induction false} ActiveNone(ws: seq<Pc>)
    ensures Active(ws) == 0 <==> forall w :: 0 <= w < |ws| ==> !IsActive(ws[w])
  {
    if ws != [] { ActiveNone(ws[..|ws|-1]); }
  }

  lemma StoppingExactly(s: State, n: nat, caller: bool, es: seq<Event>)
    requires Visited(s, n, caller, es)
    ensures Stopping(s) <==> Asked(es) && NothingShows(s)
  {
    VisitedSane(s, n, caller, es);
    AskedRun(Init(n, caller), es);
    ActiveNone(s.workers);
    assert s.waits != multiset{} ==> |s.waits| > 0;
  }

  /** The stop test of an idle fiber ends it exactly if stop() was called before and nothing is left that shows; and
      exactly then stop() does not enter the loop at all. */
  lemma StopsExactly(s: State, n: nat, caller: bool, es: seq<Event>, w: nat)
    requires Visited(s, n, caller, es)
    ensures Possible(s, StopCheck(w)) ==>
              (Apply(s, StopCheck(w)).idleDone[w] <==> Asked(es) && NothingShows(s))
    ensures Possible(s, Start(w)) ==> (Apply(s, Start(w)).workers[w].Exited? <==> Asked(es) && NothingShows(s))
  {
    StoppingExactly(s, n, caller, es);
    LivesRun(Init(n, caller), es, w);
  }

  /** A worker leaves its loop exactly when it finds nothing to pick after its idle fiber has ended, or, called from
      stop(), never enters it. */
  lemma LeavesExactly(s: State, n: nat, caller: bool, es: seq<Event>, e: Event, w: nat)
    requires Visited(s, n, caller, es) && Possible(s, e) && At(s, w) && !s.workers[w].Exited?
    ensures At(Apply(s, e), w)
    ensures Apply(s, e).workers[w].Exited?
       <==> (e == PickNone(w) && s.idleDone[w]) || (e == Start(w) && Asked(es) && NothingShows(s))
  {
    if !ByWorker(e) { ClientsLeaveWorkers(s, e); }
    else if e.SwapIn? { SwapInStaysIn(s, e.w, w); }
    else {
      OneMoves(s, e, e.w);
      if e.w == w { OwnLeave(s, e, w); }
      if e.Start? { StopsExactly(s, n, caller, es, e.w); }
    }
  }

  lemma OwnLeave(s: State, e: Event, w: nat)
    requires Possible(s, e) && ByWorker(e) && !e.SwapIn? && e.w == w && At(Apply(s, e), w)
    ensures Apply(s, e).workers[w].Exited? ==> e.PickNone? || e.Start?
    ensures e.PickNone? ==> Apply(s, e).workers[w] == if s.idleDone[w] then Exited else Idle
  {
    if e.Post? { PostMoves(s, w); }
    else if Switches(e) { SwitchMoves(s, e, w); }
    else if Hauls(e) { HaulMoves(s, e, w); }
    else { IdleMoves(s, e, w); }
  }

  lemma SwapInStaysIn(s: State, v: nat, w: nat)
    requires Possible(s, SwapIn(v)) && At(s, w) && !s.workers[w].Exited?
    ensures At(Apply(s, SwapIn(v)), w) && !Apply(s, SwapIn(v)).workers[w].Exited?
  {
  }
}
