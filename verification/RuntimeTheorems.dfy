/** What runs of the scheduler machine guarantee, for any number of workers and any interleaving: in every run,
    and in those whose clients keep to the rule of one wake source. */
module RuntimeTheorems {
  import opened Counting
  import opened Runtime
  import opened RuntimeEffects
  import opened RuntimeInvariant

  predicate OnWorker(s: State, w: nat, t: Task) {
    At(s, w) && (s.workers[w] == Running(t) || s.workers[w] == Out(t) || s.workers[w] == Back(t))
  }

  /** A state some run can reach. */
  ghost predicate Visited(s: State, n: nat, caller: bool, es: seq<Event>) {
    Run(Init(n, caller), es) && s == Exec(Init(n, caller), es)
  }

  /** A state some run of clients that keep to the rule can reach. */
  ghost predicate Reached(s: State, n: nat, caller: bool, es: seq<Event>) {
    Visited(s, n, caller, es) && Ruled(Init(n, caller), es)
  }

  lemma VisitedSane(s: State, n: nat, caller: bool, es: seq<Event>)
    requires Visited(s, n, caller, es)
    ensures Sane(s)
  {
    InitSane(n, caller);
    RunSane(Init(n, caller), es);
  }

  lemma ReachedInv(s: State, n: nat, caller: bool, es: seq<Event>)
    requires Reached(s, n, caller, es)
    ensures Inv(s)
  {
    InitInv(n, caller);
    RunInv(Init(n, caller), es);
  }

  // ---------------------------------------------------------------- exclusive execution

  lemma {:induction false} TwoShares(ws: seq<Pc>, v: nat, w: nat, t: Task)
    requires v < w < |ws|
    ensures Total(ws, t).running + Total(ws, t).out
            >= Of(ws[v], t).running + Of(ws[v], t).out + Of(ws[w], t).running + Of(ws[w], t).out
  {
    if w < |ws| - 1 {
      TwoShares(ws[..|ws|-1], v, w, t);
    } else {
      Share(ws[..|ws|-1], v, t);
    }
  }

  lemma OneWorkerOnly(s: State, v: nat, w: nat, t: Task)
    requires TaskInv(s, t) && v < w && OnWorker(s, v, t)
    ensures !OnWorker(s, w, t)
  {
    if At(s, w) { TwoShares(s.workers, v, w, t); }
  }

  /** No fiber is on two workers at once, and the ASSERTs of swapIn and reset never fire. */
  lemma ExclusiveExecution(s: State, n: nat, caller: bool, es: seq<Event>)
    requires Reached(s, n, caller, es)
    ensures forall v, w, t :: v < w && OnWorker(s, v, t) ==> !OnWorker(s, w, t)
    ensures !s.aborted
    ensures forall w: nat :: Possible(s, SwapIn(w)) ==> !Apply(s, SwapIn(w)).aborted
  {
    ReachedInv(s, n, caller, es);
    forall v, w, t | v < w && OnWorker(s, v, t) ensures !OnWorker(s, w, t) {
      assert TaskInv(s, t);
      OneWorkerOnly(s, v, w, t);
    }
    forall w: nat | Possible(s, SwapIn(w)) ensures !Apply(s, SwapIn(w)).aborted { SwapInWorks(s, w); }
  }

  /** A fiber on its way out -- yielded by YieldToHold, its wake-up perhaps already queued -- is not picked
      by any worker before the one it ran on has marked it HOLD. */
  lemma NotPickedBeforeHold(s: State, n: nat, caller: bool, es: seq<Event>, w: nat, v: nat)
    requires Reached(s, n, caller, es) && Possible(s, Pick(w))
    ensures !OnWorker(s, v, s.queue[FirstEligible(s.queue, s.status, w)].task)
  {
    ReachedInv(s, n, caller, es);
    var t := s.queue[FirstEligible(s.queue, s.status, w)].task;
    assert TaskInv(s, t);
    EligibleIsFree(s, w, v, t);
  }

  lemma EligibleIsFree(s: State, w: nat, v: nat, t: Task)
    requires TaskInv(s, t) && Possible(s, Pick(w)) && t == s.queue[FirstEligible(s.queue, s.status, w)].task
    ensures !OnWorker(s, v, t)
  {
    PickedEligible(s, w, t);
    if OnWorker(s, v, t) { Share(s.workers, v, t); }
  }

  // ---------------------------------------------------------------- conservation

  /** In how many places a task is: queued, in a worker's hand, registered, in a timer, asleep, executing with
      no wake-up out, parked without one, withdrawn, finished. */
  function Places(s: State, t: Task): nat
    requires t in s.status
  {
    var c := CountOf(s, t);
    c.queued + (c.picked + c.batch) + c.waits + c.timers + c.asleep
    + B(Own(s, t) > 0 && Tokens(s, t) == 0)
    + B(t in s.parked) + B(t in s.withdrawn)
    + B(Own(s, t) == 0 && Tokens(s, t) == 0 && Finished(s.status[t]))
  }

  /** Every submitted task is in exactly one place, in every reachable state. */
  lemma TaskConservation(s: State, n: nat, caller: bool, es: seq<Event>, t: Task)
    requires Reached(s, n, caller, es) && t in s.status
    ensures Places(s, t) == 1
  {
    ReachedInv(s, n, caller, es);
    assert TaskInv(s, t);
  }

  /** A sleeper has its wake-up outstanding until it is woken: the callback that is to wake it is in its timer,
      in a hand, queued or running. */
  lemma SleeperIsWoken(s: State, n: nat, caller: bool, es: seq<Event>, c: Task)
    requires Visited(s, n, caller, es) && c in s.sleeps
    ensures c in s.status && !Finished(s.status[c]) && Alarm(s, c) > 0
    ensures Tokens(s, s.sleeps[c]) > 0
  {
    VisitedSane(s, n, caller, es);
    assert AlarmOk(s, c) && c in Wakers(s.sleeps, s.sleeps[c]);
  }

  /** Nothing submitted is ever forgotten. */
  lemma {:induction false} SubmittedStays(s: State, es: seq<Event>, t: Task)
    requires Run(s, es) && t in s.status
    ensures t in Exec(s, es).status
    decreases |es|
  {
    if es != [] {
      StaysKnown(s, es[0], t, t);
      SubmittedStays(Apply(s, es[0]), es[1..], t);
    }
  }

  function Counted(ws: seq<Pc>): set<int> { set w | 0 <= w < |ws| && IsActive(ws[w]) }

  lemma {:induction false} CountedSet(ws: seq<Pc>)
    ensures Active(ws) == |Counted(ws)|
  {
    if ws != [] {
      var n := |ws| - 1;
      CountedSet(ws[..n]);
      assert Counted(ws) == if IsActive(ws[n]) then Counted(ws[..n]) + {n} else Counted(ws[..n]);
      if IsActive(ws[n]) { Added(Counted(ws[..n]), n); }
    }
  }

  lemma Added(s: set<int>, x: int)
    requires x !in s
    ensures |s + {x}| == |s| + 1
  {
  }

  /** In every run m_activeThreadCount is the number of workers between pick and the return of swapIn, and
      m_pendingEventCount that of the waiters registered or in the middle of being triggered. */
  lemma ActiveThreadCount(s: State, n: nat, caller: bool, es: seq<Event>)
    requires Visited(s, n, caller, es)
    ensures s.active == |set w | 0 <= w < |s.workers|
                                 && (s.workers[w].Picked? || s.workers[w].Running? || s.workers[w].Out?)|
    ensures s.pending == |s.waits| + s.triggers
  {
    VisitedSane(s, n, caller, es);
    CountedSet(s.workers);
    assert Counted(s.workers)
        == (set w | 0 <= w < |s.workers|
                    && (s.workers[w].Picked? || s.workers[w].Running? || s.workers[w].Out?));
  }

  // ---------------------------------------------------------------- no gap

  /** The step takes a queued entry of the task: a worker picks it, or its fiber becomes another task's. */
  predicate Takes(s: State, e: Event, t: Task)
    requires Possible(s, e)
  {
    || (e.Pick? && s.queue[FirstEligible(s.queue, s.status, e.w)].task == t)
    || (e.SwapIn? && HandsOn(s, e.w) && s.cbFibers[e.w].task == t)
  }

  ghost predicate Untaken(s: State, es: seq<Event>, t: Task)
    requires Run(s, es)
    decreases |es|
  {
    es == [] || (!Takes(s, es[0], t) && Untaken(Apply(s, es[0]), es[1..], t))
  }

  lemma StaysQueued(s: State, e: Event, t: Task)
    requires Possible(s, e) && CountOf(s, t).queued > 0 && !Takes(s, e, t)
    ensures CountOf(Apply(s, e), t).queued > 0
  {
    Effects(s, e, t);
  }

  lemma {:induction false} UntakenStays(s: State, es: seq<Event>, t: Task)
    requires Run(s, es) && CountOf(s, t).queued > 0 && Untaken(s, es, t)
    ensures CountOf(Exec(s, es), t).queued > 0
    decreases |es|
  {
    if es != [] {
      StaysQueued(s, es[0], t);
      UntakenStays(Apply(s, es[0]), es[1..], t);
    }
  }

  /** triggerEvent queues the waiter before it gives up its share of m_pendingEventCount, and in every run it
      stays queued until it is picked: there is no moment when neither shows it. */
  lemma NoGapAfterTrigger(s: State, n: nat, caller: bool, es: seq<Event>, t: Task, later: seq<Event>)
    requires Visited(s, n, caller, es) && Possible(s, Trigger(t))
    requires Run(Apply(s, Trigger(t)), later) && Untaken(Apply(s, Trigger(t)), later, t)
    ensures s.pending > 0 && Apply(s, Trigger(t)).pending == s.pending
    ensures CountOf(Exec(Apply(s, Trigger(t)), later), t).queued > 0
  {
    VisitedSane(s, n, caller, es);
    Effects(s, Trigger(t), t);
    SomeWaits(s.waits, t);
    UntakenStays(Apply(s, Trigger(t)), later, t);
  }

  lemma SomeWaits(m: multiset<Task>, t: Task)
    requires t in m
    ensures |m| > 0
  {
  }

  // ---------------------------------------------------------------- when stopping is right

  /** Nothing is left to do for a task. */
  predicate Settled(s: State, t: Task)
    requires t in s.status
  {
    Tokens(s, t) == 0 && (Finished(s.status[t]) || t in s.parked || t in s.withdrawn)
  }

  /** A worker carries work that none of the things `stopping` reads can show. */
  predicate OpenHand(s: State, w: nat) {
    && At(s, w)
    && (|| (s.workers[w].Batch? && s.workers[w].due != [])
        || (s.workers[w].Back? && s.workers[w].task in s.status && !Finished(s.status[s.workers[w].task])))
  }

  /** What a worker can be at when nobody is active and no hand is open. */
  predicate AtRest(s: State, pc: Pc) {
    || pc.NotStarted? || pc.Top? || pc.Idle? || pc.Exited? || (pc.Batch? && pc.due == [])
    || (pc.Back? && (pc.task in s.status ==> Finished(s.status[pc.task])))
  }

  ghost predicate Quiet(s: State) { Stopping(s) && forall w :: !OpenHand(s, w) }

  lemma {:induction false} ActiveShare(ws: seq<Pc>, w: nat)
    requires w < |ws| && IsActive(ws[w])
    ensures Active(ws) > 0
  {
    if w < |ws| - 1 { ActiveShare(ws[..|ws|-1], w); }
  }

  lemma QuietWorker(s: State, w: nat)
    requires Counters(s) && Quiet(s) && At(s, w)
    ensures AtRest(s, s.workers[w])
  {
    if IsActive(s.workers[w]) { ActiveShare(s.workers, w); }
    assert !OpenHand(s, w);
  }

  /** Workers at rest hold at most tasks that have finished. */
  lemma {:induction false} RestHolds(s: State, ws: seq<Pc>, t: Task)
    requires forall w :: 0 <= w < |ws| ==> AtRest(s, ws[w])
    ensures var a := Total(ws, t);
            a.picked == a.batch == a.running == 0 && (a.out > 0 && t in s.status ==> Finished(s.status[t]))
  {
    if ws != [] { RestHolds(s, ws[..|ws|-1], t); }
  }

  lemma QuietHolds(s: State, t: Task)
    requires Counters(s) && Quiet(s)
    ensures var c := CountOf(s, t);
            && c.queued == c.picked == c.batch == c.running == c.waits == c.timers == 0
            && (c.out > 0 && t in s.status ==> Finished(s.status[t]))
  {
    forall w | 0 <= w < |s.workers| ensures AtRest(s, s.workers[w]) { QuietWorker(s, w); }
    RestHolds(s, s.workers, t);
    assert s.waits == multiset{};
  }

  /** When all is quiet nobody sleeps or waits, in any run. */
  lemma NobodyAsleep(s: State)
    requires Sane(s) && Quiet(s)
    ensures s.sleeps == map[] && s.waits == multiset{} && s.triggers == 0
  {
    forall c ensures c !in s.sleeps {
      assert AlarmOk(s, c);
      QuietHolds(s, c);
    }
  }

  /** And every task is settled. */
  lemma NothingHeld(s: State, t: Task)
    requires Sane(s) && Quiet(s) && t in s.status
    ensures Settled(s, t)
  {
    assert Loose(s, t);
    QuietHolds(s, t);
    NobodyAsleep(s);
    assert Wakers(s.sleeps, t) == {};
  }

  lemma OpenHandUnsettled(s: State, w: nat)
    requires Inv(s) && OpenHand(s, w)
    ensures exists t :: t in s.status && !Settled(s, t)
  {
    var t := if s.workers[w].Batch? then s.workers[w].due[|s.workers[w].due|-1] else s.workers[w].task;
    Share(s.workers, w, t);
    assert TaskInv(s, t);
    assert t in s.status && !Settled(s, t);
  }

  /** What `stopping` proves when it reads everything at once: all tasks are settled exactly if no worker
      has an open hand. */
  lemma StoppingMeansDrained(s: State, n: nat, caller: bool, es: seq<Event>)
    requires Reached(s, n, caller, es) && Stopping(s)
    ensures (forall t :: t in s.status ==> Settled(s, t)) <==> (forall w :: !OpenHand(s, w))
  {
    ReachedInv(s, n, caller, es);
    if w :| OpenHand(s, w) {
      OpenHandUnsettled(s, w);
    } else {
      forall t | t in s.status ensures Settled(s, t) { NothingHeld(s, t); }
    }
  }
}
