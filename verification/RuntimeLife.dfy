/** The life of a task and of a worker: how states follow each other, and when a worker stops. */
module RuntimeLife {
  import opened Runtime
  import opened RuntimeEffects
  import opened RuntimeInvariant
  import opened RuntimeTheorems
  import opened RuntimeDrain

  // ---------------------------------------------------------------- the states of a task

  /** The step brings the task into being. */
  predicate Makes(e: Event, t: Task) {
    ((e.Submit? || e.RegisterCb? || e.AddTimer?) && e.t == t) || (e.Sleep? && e.c == t)
  }

  /** The step is that of a worker which stands like this to the task. */
  predicate Enters(s: State, e: Event, t: Task) {
    e.SwapIn? && At(s, e.w) && s.workers[e.w] == Picked(t)
  }

  predicate Runs(s: State, e: Event, t: Task) {
    (e.YieldReady? || e.Finish?) && At(s, e.w) && s.workers[e.w] == Running(t)
  }

  predicate EndsTurn(s: State, e: Event, t: Task) {
    e.Post? && At(s, e.w) && s.workers[e.w] == Back(t)
  }

  /** From one state of the machine to the next: a task is made INIT; swapIn makes it EXEC; READY, TERM and EXCEPT it
      becomes by its own leave; and the worker it has left makes it HOLD unless it is one of these. */
  predicate Changes(s: State, e: Event, s': State, t: Task) {
    if t !in s.status then (t in s'.status <==> Makes(e, t)) && (t in s'.status ==> s'.status[t] == INIT)
    else
      t in s'.status && s'.status[t] ==
        if Enters(s, e, t) then EXEC
        else if Runs(s, e, t) then (if e.YieldReady? then READY else if e.except then EXCEPT else TERM)
        else if EndsTurn(s, e, t) && s.status[t] !in {READY, TERM, EXCEPT} then HOLD
        else s.status[t]
  }

  lemma LifeStep(s: State, e: Event, t: Task)
    requires Loose(s, t) && Possible(s, e) && !Apply(s, e).aborted
    ensures Changes(s, e, Apply(s, e), t)
  {
    if e.SwapIn? { LifeSwapIn(s, e.w, t); }
    else if e.Post? { LifePost(s, e.w, t); }
    else if Switches(e) { LifeSwitch(s, e, e.w, t); }
    else if Hauls(e) { LifeHaul(s, e, e.w, t); }
    else if Idles(e) { LifeIdle(s, e, e.w, t); }
    else if Sets(e) { LifeSet(s, e, t); }
    else { LifePush(s, e, t); }
  }

  lemma LifeSwapIn(s: State, w: nat, t: Task)
    requires Possible(s, SwapIn(w)) && !Apply(s, SwapIn(w)).aborted
    ensures Changes(s, SwapIn(w), Apply(s, SwapIn(w)), t)
  {
    SwapInFields(s, w);
  }

  lemma LifePost(s: State, w: nat, t: Task)
    requires Possible(s, Post(w))
    ensures Changes(s, Post(w), Apply(s, Post(w)), t)
  {
    PostFields(s, w);
  }

  lemma LifeSwitch(s: State, e: Event, w: nat, t: Task)
    requires Loose(s, t) && Possible(s, e) && Switches(e) && e.w == w
    ensures Changes(s, e, Apply(s, e), t)
  {
    Share(s.workers, w, t);
    match e
    case Skip(_) => assert Changes(s, e, Apply(s, Skip(w)), t);
    case YieldReady(_) => assert Changes(s, e, Apply(s, YieldReady(w)), t);
    case YieldHold(_) => assert Changes(s, e, Apply(s, YieldHold(w)), t);
    case Finish(_, except) => assert Changes(s, e, Apply(s, Finish(w, except)), t);
    case Decrement(_) => assert Changes(s, e, Apply(s, Decrement(w)), t);
  }

  lemma LifeHaul(s: State, e: Event, w: nat, t: Task)
    requires Possible(s, e) && Hauls(e) && e.w == w
    ensures Changes(s, e, Apply(s, e), t)
  {
  }

  lemma LifeIdle(s: State, e: Event, w: nat, t: Task)
    requires Possible(s, e) && Idles(e) && e.w == w
    ensures Changes(s, e, Apply(s, e), t)
  {
  }

  lemma LifeSet(s: State, e: Event, t: Task)
    requires Possible(s, e) && Sets(e)
    ensures Changes(s, e, Apply(s, e), t)
  {
  }

  lemma LifePush(s: State, e: Event, t: Task)
    requires Possible(s, e) && (Pushes(e) || e.Deliver? || e.Sleep?)
    ensures Changes(s, e, Apply(s, e), t)
  {
  }

  /** How the state of a task changes, in every run. */
  lemma LifeCycle(s: State, n: nat, caller: bool, es: seq<Event>, e: Event, t: Task)
    requires Visited(s, n, caller, es) && Possible(s, e) && !Apply(s, e).aborted
    ensures Changes(s, e, Apply(s, e), t)
  {
    VisitedSane(s, n, caller, es);
    assert Loose(s, t);
    LifeStep(s, e, t);
  }

  /** For good: a task that has returned stays TERM and one that threw stays EXCEPT, in every run of clients that
      keep to the rule of one wake source. */
  lemma {:induction false} FinishedForGood(s: State, es: seq<Event>, t: Task)
    requires Inv(s) && Run(s, es) && Ruled(s, es) && t in s.status && Finished(s.status[t])
    ensures t in Exec(s, es).status && Exec(s, es).status[t] == s.status[t]
    decreases |es|
  {
    if es != [] {
      var (e, s') := (es[0], Apply(s, es[0]));
      StepInv(s, e);
      assert Loose(s, t) && TaskInv(s, t);
      LifeStep(s, e, t);
      NotByItself(s, e, t);
      FinishedForGood(s', es[1..], t);
    }
  }

  lemma NotByItself(s: State, e: Event, t: Task)
    requires TaskInv(s, t) && Possible(s, e) && t in s.status && Finished(s.status[t])
    ensures !Enters(s, e, t) && !Runs(s, e, t)
  {
    if ByWorker(e) && At(s, e.w) { Share(s.workers, e.w, t); }
  }

  /** A task once begun is never INIT again, in any run. */
  lemma {:induction false} NeverNewAgain(s: State, es: seq<Event>, t: Task)
    requires Sane(s) && Run(s, es) && t in s.status && s.status[t] != INIT
    ensures t in Exec(s, es).status && Exec(s, es).status[t] != INIT
    decreases |es|
  {
    if es != [] {
      SaneStep(s, es[0]);
      assert Loose(s, t);
      if Apply(s, es[0]).aborted { AbortKeeps(s, es[0]); } else { LifeStep(s, es[0], t); }
      NeverNewAgain(Apply(s, es[0]), es[1..], t);
    }
  }

  lemma AbortKeeps(s: State, e: Event)
    requires Possible(s, e) && Apply(s, e).aborted
    ensures Apply(s, e).status == s.status
  {
    if !e.SwapIn? {
      if ByWorker(e) { OneMoves(s, e, e.w); } else { ClientsLeaveWorkers(s, e); }
      assert false;
    }
  }

  // ---------------------------------------------------------------- READY

  /** Where a READY fiber is to be: queued, in a hand, or still on a worker. */
  function Around(s: State, t: Task): nat {
    var c := CountOf(s, t); c.queued + c.picked + c.running + c.out
  }

  predicate ReadyOk(s: State, t: Task) { t in s.status && s.status[t] == READY ==> Around(s, t) > 0 }

  /** A step that is not its own takes a READY task from one of these places only to another. */
  lemma AroundStep(s: State, e: Event, t: Task)
    requires Possible(s, e) && !Apply(s, e).aborted && t in s.status && s.status[t] == READY
    ensures Around(Apply(s, e), t) >= Around(s, t)
  {
    Effects(s, e, t);
    if ByWorker(e) { AroundWorker(s, e, t); } else { AroundClient(s, e, t); }
  }

  lemma AroundWorker(s: State, e: Event, t: Task)
    requires Possible(s, e) && ByWorker(e) && !Apply(s, e).aborted && t in s.status && s.status[t] == READY
    ensures var d := Change(s, e, t); d.queued + d.picked + d.running + d.out >= 0
  {
    if e.SwapIn? { SwapInFields(s, e.w); }
  }

  lemma AroundClient(s: State, e: Event, t: Task)
    requires Possible(s, e) && !ByWorker(e)
    ensures var d := Change(s, e, t); d.queued >= 0 && d.picked == d.running == d.out == 0
  {
  }

  lemma AroundYield(s: State, w: nat, t: Task)
    requires Possible(s, YieldReady(w)) && s.workers[w] == Running(t)
    ensures Around(Apply(s, YieldReady(w)), t) > 0
  {
    Effects(s, YieldReady(w), t);
  }

  lemma AbortedAround(s: State, e: Event, t: Task)
    requires Possible(s, e) && Apply(s, e).aborted
    ensures Apply(s, e).status == s.status && Around(Apply(s, e), t) == Around(s, t)
  {
    AbortKeeps(s, e);
    Effects(s, e, t);
    if !e.SwapIn? {
      if ByWorker(e) { OneMoves(s, e, e.w); } else { ClientsLeaveWorkers(s, e); }
      assert false;
    }
  }

  lemma ReadyStep(s: State, e: Event, t: Task)
    requires Loose(s, t) && ReadyOk(s, t) && Possible(s, e)
    ensures ReadyOk(Apply(s, e), t)
  {
    if Apply(s, e).aborted {
      AbortedAround(s, e, t);
    } else {
      LifeStep(s, e, t);
      if e.YieldReady? && Runs(s, e, t) { AroundYield(s, e.w, t); }
      else if t in s.status && s.status[t] == READY { AroundStep(s, e, t); }
    }
  }

  lemma {:induction false} ReadyRun(s: State, es: seq<Event>, t: Task)
    requires Sane(s) && Run(s, es) && ReadyOk(s, t)
    ensures ReadyOk(Exec(s, es), t)
    decreases |es|
  {
    if es != [] {
      SaneStep(s, es[0]);
      assert Loose(s, t);
      ReadyStep(s, es[0], t);
      ReadyRun(Apply(s, es[0]), es[1..], t);
    }
  }

  /** A fiber that yields by YieldToReady gets its next turn: while it is READY it is queued, in a worker's hand, or
      still on the worker it is leaving, in every run. */
  lemma ReadyComesBack(s: State, n: nat, caller: bool, es: seq<Event>, t: Task)
    requires Visited(s, n, caller, es) && t in s.status && s.status[t] == READY
    ensures var c := CountOf(s, t); c.queued + c.picked + c.running + c.out > 0
    ensures forall w: nat :: At(s, w) && s.workers[w] == Back(t) && Possible(s, Post(w)) ==>
              Apply(s, Post(w)).queue == s.queue + [Entry(t, -1)]
  {
    InitSane(n, caller);
    ReadyRun(Init(n, caller), es, t);
  }

  // ---------------------------------------------------------------- progress

  /** What a worker can do where it stands. */
  predicate Free(s: State, w: nat)
    requires At(s, w)
  {
    match s.workers[w]
    case NotStarted => Possible(s, Start(w)) <==> s.stopRequested
    case Top => Possible(s, Pick(w)) <==> !Possible(s, PickNone(w))
    case Picked(t) =>
      && t in s.status
      && (Possible(s, Skip(w)) <==> Finished(s.status[t])) && (Possible(s, SwapIn(w)) <==> !Finished(s.status[t]))
    case Running(t) =>
      if t in s.sleeps then Possible(s, Deliver(t))
      else
        && Possible(s, YieldReady(w)) && Possible(s, YieldHold(w))
        && Possible(s, Finish(w, false)) && Possible(s, Finish(w, true))
    case Out(t) => Possible(s, Decrement(w))
    case Back(t) => Possible(s, Post(w))
    case Idle => Possible(s, StopCheck(w)) && Possible(s, Leave(w)) && Possible(s, Expire(w, []))
    case Batch(due) => Possible(s, Flush(w))
    case Exited => true
  }

  lemma FreeRunning(s: State, w: nat)
    requires Sized(s) && !s.aborted && At(s, w) && s.workers[w].Running?
    ensures Free(s, w)
  {
    assert IsRunning(s, s.workers[w].task);
  }

  lemma FreeIdle(s: State, w: nat)
    requires Sized(s) && !s.aborted && At(s, w) && s.workers[w].Idle?
    ensures Free(s, w)
  {
    var none: seq<Task> := [];
    assert multiset(none) == multiset{};
  }

  lemma FreeTop(s: State, w: nat)
    requires Sized(s) && !s.aborted && At(s, w) && s.workers[w].Top?
    ensures Free(s, w)
  {
  }

  lemma FreeHolding(s: State, w: nat)
    requires Sized(s) && !s.aborted && At(s, w) && (s.workers[w].Picked? || s.workers[w].Back?)
    requires s.workers[w].task in s.status
    ensures Free(s, w)
  {
  }

  lemma FreeElse(s: State, w: nat)
    requires Sized(s) && !s.aborted && At(s, w)
    requires s.workers[w].NotStarted? || s.workers[w].Out? || s.workers[w].Batch? || s.workers[w].Exited?
    ensures Free(s, w)
  {
  }

  /** No worker is ever stuck: in every run, unless an ASSERT has failed, each can go on where it stands, and a task
      it has picked is entered if it is not through and dropped if it is. */
  lemma NeverStuck(s: State, n: nat, caller: bool, es: seq<Event>, w: nat)
    requires Visited(s, n, caller, es) && !s.aborted && At(s, w)
    ensures Free(s, w)
  {
    VisitedSane(s, n, caller, es);
    if s.workers[w].Running? { FreeRunning(s, w); }
    else if s.workers[w].Idle? { FreeIdle(s, w); }
    else if s.workers[w].Top? { FreeTop(s, w); }
    else if s.workers[w].Picked? || s.workers[w].Back? {
      KnownInHand(s, w);
      FreeHolding(s, w);
    } else { FreeElse(s, w); }
  }

  lemma KnownInHand(s: State, w: nat)
    requires Sane(s) && At(s, w) && (s.workers[w].Picked? || s.workers[w].Back?)
    ensures s.workers[w].task in s.status
  {
    Share(s.workers, w, s.workers[w].task);
    assert Loose(s, s.workers[w].task);
  }

  /** Where a worker may go from where it stands. */
  predicate Edge(a: Pc, b: Pc) {
    match a
    case NotStarted => b.Top? || b.Exited?
    case Top => b.Picked? || b.Idle? || b.Exited?
    case Picked(t) => b == Running(t) || b.Top?
    case Running(t) => b == Out(t)
    case Out(t) => b == Back(t)
    case Back(_) => b.Top?
    case Idle => b.Batch? || b.Top?
    case Batch(_) => b.Idle?
    case Exited => false
  }

  /** Every step of a worker takes it one place further -- only a stop test that fails leaves it where it is -- and
      none of the others, except that a fiber handed on has another task's name from then on. */
  lemma WorkerCycle(s: State, e: Event, w: nat)
    requires Possible(s, e) && ByWorker(e) && !Apply(s, e).aborted && At(s, w)
    ensures At(Apply(s, e), w)
    ensures e.w == w ==>
              Edge(s.workers[w], Apply(s, e).workers[w]) || (e.StopCheck? && !Stopping(s) && Apply(s, e) == s)
    ensures e.w != w && !e.SwapIn? ==> Apply(s, e).workers[w] == s.workers[w]
  {
    if e.SwapIn? { SwapInEdge(s, e.w, w); }
    else if e.Post? { PostMoves(s, e.w); }
    else if Switches(e) { SwitchMoves(s, e, e.w); SwitchEdge(s, e, e.w); }
    else if Hauls(e) { HaulMoves(s, e, e.w); HaulEdge(s, e, e.w); }
    else { IdleMoves(s, e, e.w); IdleEdge(s, e, e.w); }
  }

  lemma SwapInEdge(s: State, v: nat, w: nat)
    requires Possible(s, SwapIn(v)) && !Apply(s, SwapIn(v)).aborted && At(s, w)
    ensures At(Apply(s, SwapIn(v)), w) && (v == w ==> Edge(s.workers[w], Apply(s, SwapIn(v)).workers[w]))
  {
    SwapInFields(s, v);
  }

  lemma SwitchEdge(s: State, e: Event, w: nat)
    requires Possible(s, e) && Switches(e) && e.w == w
    ensures At(Apply(s, e), w) && Edge(s.workers[w], Apply(s, e).workers[w])
  {
    match e
    case Skip(_) => assert Edge(s.workers[w], Apply(s, Skip(w)).workers[w]);
    case YieldReady(_) => assert Edge(s.workers[w], Apply(s, YieldReady(w)).workers[w]);
    case YieldHold(_) => assert Edge(s.workers[w], Apply(s, YieldHold(w)).workers[w]);
    case Finish(_, except) => assert Edge(s.workers[w], Apply(s, Finish(w, except)).workers[w]);
    case Decrement(_) => assert Edge(s.workers[w], Apply(s, Decrement(w)).workers[w]);
  }

  lemma HaulEdge(s: State, e: Event, w: nat)
    requires Possible(s, e) && Hauls(e) && e.w == w
    ensures At(Apply(s, e), w) && Edge(s.workers[w], Apply(s, e).workers[w])
  {
  }

  lemma IdleEdge(s: State, e: Event, w: nat)
    requires Possible(s, e) && Idles(e) && e.w == w
    ensures At(Apply(s, e), w)
    ensures Edge(s.workers[w], Apply(s, e).workers[w]) || (e.StopCheck? && !Stopping(s) && Apply(s, e) == s)
  {
  }
}
