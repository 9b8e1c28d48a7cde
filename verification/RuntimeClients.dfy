/** Fibers built from do_io, connect_with_timeout, sleep, switchTo and the yields keep to the rule of one
    wake source, so that what is proved under it holds for them without further assumption. */
module RuntimeClients {
  import opened Counting
  import opened Runtime
  import opened RuntimeEffects
  import opened RuntimeInvariant
  import opened RuntimeTheorems
  import opened RuntimeDrain

  /** The fibers that have set up their wake-up and are about to yield by YieldToHold. */
  function Armed(armed: set<Task>, s: State, e: Event): set<Task>
    requires Possible(s, e)
  {
    match e
    case Register(t) => armed + {t}
    case Sleep(t, _) => armed + {t}
    case Wake(t, _) => armed + {t}
    case YieldHold(w) => armed - {s.workers[w].task}
    case _ => armed
  }

  /** A fiber sets up one wake-up -- addEvent, a sleep, or scheduling itself, as switchTo does -- and then
      does nothing but yield by YieldToHold. Nobody else schedules it. */
  predicate Hooked(armed: set<Task>, s: State, e: Event)
    requires Possible(s, e)
  {
    match e
    case Register(t) => t !in armed
    case Sleep(t, _) => t !in armed
    case Wake(t, _) => IsRunning(s, t) && t !in armed
    case YieldReady(w) => s.workers[w].task !in armed
    case Finish(w, _) => s.workers[w].task !in armed
    case _ => true
  }

  /** It yields by YieldToHold for nothing else, and no wake-up is taken back by delEvent. */
  predicate Careful(armed: set<Task>, s: State, e: Event)
    requires Possible(s, e)
  {
    Hooked(armed, s, e) && !e.Withdraw? && (e.YieldHold? ==> s.workers[e.w].task in armed)
  }

  /** `careful` asks for more. */
  ghost predicate HookedRun(s: State, armed: set<Task>, es: seq<Event>, careful: bool)
    requires Run(s, es)
    decreases |es|
  {
    es == [] || (Hooked(armed, s, es[0]) && (careful ==> Careful(armed, s, es[0]))
                 && HookedRun(Apply(s, es[0]), Armed(armed, s, es[0]), es[1..], careful))
  }

  /** A running fiber has a wake-up outstanding only if it is about to yield for it. */
  predicate ArmedOk(s: State, armed: set<Task>, t: Task) {
    && (CountOf(s, t).running > 0 && Tokens(s, t) > 0 ==> t in armed)
    && (t in armed ==> CountOf(s, t).running > 0)
  }

  /** And one that is about to yield, or has, has its wake-up outstanding; nobody is parked without one. */
  predicate CarefulOk(s: State, armed: set<Task>, t: Task) {
    && (t in armed ==> Tokens(s, t) > 0)
    && (CountOf(s, t).out > 0 && t in s.status && s.status[t] == EXEC ==> Tokens(s, t) > 0)
    && t !in s.parked
  }

  lemma HookedKeepsRule(s: State, armed: set<Task>, e: Event)
    requires Inv(s) && (forall t :: ArmedOk(s, armed, t)) && Possible(s, e) && Hooked(armed, s, e)
    ensures OneWakeSource(s, e)
  {
    if e.Register? || e.Sleep? || e.Wake? {
      RunningKnown(s, e.t, e.t);
      assert ArmedOk(s, armed, e.t) && TaskInv(s, e.t);
    } else if e.YieldReady? || e.Finish? {
      var t := s.workers[e.w].task;
      Share(s.workers, e.w, t);
      assert ArmedOk(s, armed, t);
    }
  }

  // ---------------------------------------------------------------- every step keeps it

  lemma HookedClient(s: State, armed: set<Task>, e: Event, t: Task)
    requires TaskInv(s, t) && ArmedOk(s, armed, t) && Possible(s, e) && Hooked(armed, s, e) && !ByWorker(e)
    requires e.Wake? ==> Heir(s, e.t) == e.t
    ensures ArmedOk(Apply(s, e), Armed(armed, s, e), t)
  {
    Effects(s, e, t);
    if e.Register? || e.Sleep? || e.Wake? { RunningKnown(s, e.t, t); }
    if e.Deliver? && s.sleeps[e.c] == t { assert e.c in Wakers(s.sleeps, t); }
  }

  lemma HookedSwitch(s: State, armed: set<Task>, e: Event, w: nat, t: Task)
    requires TaskInv(s, t) && ArmedOk(s, armed, t) && Possible(s, e) && Hooked(armed, s, e) && Switches(e) && e.w == w
    ensures ArmedOk(Apply(s, e), Armed(armed, s, e), t)
  {
    SwitchEffect(s, e, w, t);
    Share(s.workers, w, t);
  }

  lemma HookedHaul(s: State, armed: set<Task>, e: Event, w: nat, t: Task)
    requires TaskInv(s, t) && ArmedOk(s, armed, t) && Possible(s, e) && (Hauls(e) || Idles(e)) && e.w == w
    ensures ArmedOk(Apply(s, e), armed, t)
  {
    HaulKeeps(s, e, w, t);
  }

  /** Moving entries between queue, hands and timers keeps what is outstanding, and who runs. */
  predicate SameHold(s: State, s': State, t: Task) {
    && Tokens(s', t) == Tokens(s, t)
    && CountOf(s', t).running == CountOf(s, t).running && CountOf(s', t).out == CountOf(s, t).out
  }

  lemma HaulKeeps(s: State, e: Event, w: nat, t: Task)
    requires Possible(s, e) && (Hauls(e) || Idles(e)) && e.w == w
    ensures SameHold(s, Apply(s, e), t)
  {
    if e.Pick? { PickEffect(s, w, t); }
    else if e.Expire? { ExpireEffect(s, e, w, t); }
    else if e.Flush? { FlushEffect(s, w, t); }
    else { IdleKeeps(s, e, w, t); }
  }

  lemma IdleKeeps(s: State, e: Event, w: nat, t: Task)
    requires Possible(s, e) && Idles(e) && e.w == w
    ensures SameHold(s, Apply(s, e), t)
  {
    WorkerEffects(s, e, w, t);
  }

  lemma HaulFields(s: State, e: Event)
    requires Possible(s, e) && (Hauls(e) || Idles(e))
    ensures Apply(s, e).status == s.status && Apply(s, e).parked == s.parked
  {
    if e.Pick? { PickFields(s, e.w); } else if e.Expire? { ExpireFields(s, e); }
    else if e.Flush? { FlushFields(s, e.w); } else { IdleFields(s, e); }
  }

  lemma PickFields(s: State, w: nat)
    requires Possible(s, Pick(w))
    ensures Apply(s, Pick(w)).status == s.status && Apply(s, Pick(w)).parked == s.parked
  {
  }

  lemma ExpireFields(s: State, e: Event)
    requires Possible(s, e) && e.Expire?
    ensures Apply(s, e).status == s.status && Apply(s, e).parked == s.parked
  {
  }

  lemma FlushFields(s: State, w: nat)
    requires Possible(s, Flush(w))
    ensures Apply(s, Flush(w)).status == s.status && Apply(s, Flush(w)).parked == s.parked
  {
  }

  lemma IdleFields(s: State, e: Event)
    requires Possible(s, e) && Idles(e)
    ensures Apply(s, e).status == s.status && Apply(s, e).parked == s.parked
  {
  }

  lemma HookedPost(s: State, armed: set<Task>, w: nat, t: Task)
    requires TaskInv(s, t) && ArmedOk(s, armed, t) && Possible(s, Post(w))
    ensures ArmedOk(Apply(s, Post(w)), armed, t)
  {
    PostEffect(s, w, t);
    Share(s.workers, w, t);
  }

  lemma HookedSwapIn(s: State, armed: set<Task>, w: nat, t: Task)
    requires Inv(s) && ArmedOk(s, armed, t) && Possible(s, SwapIn(w))
    ensures ArmedOk(Apply(s, SwapIn(w)), armed, t)
  {
    assert TaskInv(s, s.workers[w].task) && TaskInv(s, t);
    SwapInWorks(s, w);
    SwapInEffect(s, w, t);
    PickedIsFree(s, w);
  }

  lemma HookedStep(s: State, armed: set<Task>, e: Event, t: Task)
    requires Inv(s) && ArmedOk(s, armed, t) && Possible(s, e) && Hooked(armed, s, e) && OneWakeSource(s, e)
    ensures ArmedOk(Apply(s, e), Armed(armed, s, e), t)
  {
    assert TaskInv(s, t);
    if !ByWorker(e) {
      if e.Wake? { assert TaskInv(s, e.t); }
      HookedClient(s, armed, e, t);
    } else if e.SwapIn? {
      HookedSwapIn(s, armed, e.w, t);
    } else if e.Post? {
      HookedPost(s, armed, e.w, t);
    } else if Switches(e) {
      HookedSwitch(s, armed, e, e.w, t);
    } else {
      HookedHaul(s, armed, e, e.w, t);
    }
  }

  // ---------------------------------------------------------------- careful clients

  lemma CarefulClient(s: State, armed: set<Task>, e: Event, t: Task)
    requires TaskInv(s, t) && ArmedOk(s, armed, t) && CarefulOk(s, armed, t) && Possible(s, e) && Careful(armed, s, e)
    requires !ByWorker(e) && (e.Wake? ==> Heir(s, e.t) == e.t)
    ensures CarefulOk(Apply(s, e), Armed(armed, s, e), t)
  {
    if Sets(e) { CarefulSet(s, armed, e, t); } else { CarefulPush(s, armed, e, t); }
  }

  lemma CarefulSet(s: State, armed: set<Task>, e: Event, t: Task)
    requires TaskInv(s, t) && ArmedOk(s, armed, t) && CarefulOk(s, armed, t)
    requires Possible(s, e) && Sets(e) && !e.Withdraw?
    ensures CarefulOk(Apply(s, e), Armed(armed, s, e), t)
  {
    SetEffect(s, e, t);
  }

  lemma CarefulPush(s: State, armed: set<Task>, e: Event, t: Task)
    requires TaskInv(s, t) && CarefulOk(s, armed, t) && Possible(s, e) && (Pushes(e) || e.Deliver? || e.Sleep?)
    requires e.Wake? ==> Heir(s, e.t) == e.t
    ensures CarefulOk(Apply(s, e), Armed(armed, s, e), t)
  {
    if e.Deliver? { CarefulDeliver(s, armed, e.c, t); }
    else if e.Sleep? { CarefulSleep(s, armed, e.t, e.c, t); }
    else if e.Wake? { CarefulWake(s, armed, e, t); }
    else { CarefulQueue(s, armed, e, t); }
  }

  lemma CarefulDeliver(s: State, armed: set<Task>, c: Task, t: Task)
    requires CarefulOk(s, armed, t) && Possible(s, Deliver(c))
    ensures CarefulOk(Apply(s, Deliver(c)), armed, t)
  {
    DeliverEffect(s, c, t);
  }

  lemma CarefulSleep(s: State, armed: set<Task>, u: Task, c: Task, t: Task)
    requires CarefulOk(s, armed, t) && Possible(s, Sleep(u, c))
    ensures CarefulOk(Apply(s, Sleep(u, c)), armed + {u}, t)
  {
    SleepEffect(s, u, c, t);
  }

  lemma CarefulWake(s: State, armed: set<Task>, e: Event, t: Task)
    requires CarefulOk(s, armed, t) && Possible(s, e) && e.Wake? && Heir(s, e.t) == e.t
    ensures CarefulOk(Apply(s, e), armed + {e.t}, t)
  {
    PushEffect(s, e, t);
  }

  lemma CarefulQueue(s: State, armed: set<Task>, e: Event, t: Task)
    requires CarefulOk(s, armed, t) && Possible(s, e) && (e.Submit? || e.Trigger?)
    ensures CarefulOk(Apply(s, e), armed, t)
  {
    PushEffect(s, e, t);
  }

  lemma CarefulSwitch(s: State, armed: set<Task>, e: Event, w: nat, t: Task)
    requires TaskInv(s, t) && ArmedOk(s, armed, t) && CarefulOk(s, armed, t) && Possible(s, e) && Careful(armed, s, e)
    requires Switches(e) && e.w == w
    ensures CarefulOk(Apply(s, e), Armed(armed, s, e), t)
  {
    SwitchEffect(s, e, w, t);
    Share(s.workers, w, t);
  }

  lemma CarefulHaul(s: State, armed: set<Task>, e: Event, w: nat, t: Task)
    requires TaskInv(s, t) && CarefulOk(s, armed, t) && Possible(s, e) && (Hauls(e) || Idles(e)) && e.w == w
    ensures CarefulOk(Apply(s, e), armed, t)
  {
    HaulKeeps(s, e, w, t);
    HaulFields(s, e);
  }

  lemma CarefulPost(s: State, armed: set<Task>, w: nat, t: Task)
    requires TaskInv(s, t) && Possible(s, Post(w)) && CarefulOk(s, armed, t)
    requires TaskInv(s, s.workers[w].task) && CarefulOk(s, armed, s.workers[w].task)
    ensures CarefulOk(Apply(s, Post(w)), armed, t)
  {
    PostEffect(s, w, t);
    PostFields(s, w);
    Share(s.workers, w, s.workers[w].task);
  }

  lemma CarefulSwapIn(s: State, armed: set<Task>, w: nat, t: Task)
    requires Inv(s) && ArmedOk(s, armed, t) && CarefulOk(s, armed, t) && Possible(s, SwapIn(w))
    ensures CarefulOk(Apply(s, SwapIn(w)), armed, t)
  {
    assert TaskInv(s, s.workers[w].task) && TaskInv(s, t);
    SwapInWorks(s, w);
    SwapInEffect(s, w, t);
    SwapInFields(s, w);
    PickedIsFree(s, w);
  }

  lemma CarefulStep(s: State, armed: set<Task>, e: Event, t: Task)
    requires Inv(s) && (forall u :: ArmedOk(s, armed, u) && CarefulOk(s, armed, u)) && Possible(s, e)
    requires Careful(armed, s, e) && OneWakeSource(s, e)
    ensures CarefulOk(Apply(s, e), Armed(armed, s, e), t)
  {
    assert TaskInv(s, t) && ArmedOk(s, armed, t) && CarefulOk(s, armed, t);
    if !ByWorker(e) {
      if e.Wake? { assert TaskInv(s, e.t); }
      CarefulClient(s, armed, e, t);
    } else if e.SwapIn? {
      CarefulSwapIn(s, armed, e.w, t);
    } else if e.Post? {
      assert TaskInv(s, s.workers[e.w].task) && CarefulOk(s, armed, s.workers[e.w].task);
      CarefulPost(s, armed, e.w, t);
    } else if Switches(e) {
      CarefulSwitch(s, armed, e, e.w, t);
    } else {
      CarefulHaul(s, armed, e, e.w, t);
    }
  }

  // ---------------------------------------------------------------- runs

  lemma {:induction false} HookedIsRuled(s: State, armed: set<Task>, es: seq<Event>, careful: bool)
    requires Inv(s) && (forall t :: ArmedOk(s, armed, t)) && (careful ==> forall t :: CarefulOk(s, armed, t))
    requires Run(s, es) && HookedRun(s, armed, es, careful)
    ensures Ruled(s, es) && (careful ==> Exec(s, es).parked == {})
    decreases |es|
  {
    if es == [] {
      if careful { assert forall t :: CarefulOk(s, armed, t) ==> t !in s.parked; }
    } else {
      var e := es[0];
      HookedKeepsRule(s, armed, e);
      StepInv(s, e);
      forall t ensures ArmedOk(Apply(s, e), Armed(armed, s, e), t) { HookedStep(s, armed, e, t); }
      if careful {
        forall t ensures CarefulOk(Apply(s, e), Armed(armed, s, e), t) { CarefulStep(s, armed, e, t); }
      }
      HookedIsRuled(Apply(s, e), Armed(armed, s, e), es[1..], careful);
    }
  }

  lemma HookedReached(s: State, n: nat, caller: bool, es: seq<Event>, careful: bool)
    requires Visited(s, n, caller, es) && HookedRun(Init(n, caller), {}, es, careful)
    ensures Reached(s, n, caller, es) && (careful ==> s.parked == {})
  {
    InitInv(n, caller);
    InitSane(n, caller);
    forall t ensures ArmedOk(Init(n, caller), {}, t) && CarefulOk(Init(n, caller), {}, t) {
      assert Tokens(Init(n, caller), t) == Own(Init(n, caller), t) == 0;
    }
    HookedIsRuled(Init(n, caller), {}, es, careful);
  }

  /** Clients built from the hooked calls keep to the rule in every interleaving, so no fiber of theirs is ever
      on two workers and the ASSERTs of swapIn and reset hold throughout. */
  lemma HookedClientsAreExclusive(s: State, n: nat, caller: bool, es: seq<Event>)
    requires Visited(s, n, caller, es) && HookedRun(Init(n, caller), {}, es, false)
    ensures Reached(s, n, caller, es)
    ensures !s.aborted && forall v, w, t :: v < w && OnWorker(s, v, t) ==> !OnWorker(s, w, t)
  {
    HookedReached(s, n, caller, es, false);
    ExclusiveExecution(s, n, caller, es);
  }

  /** If they hold only when a wake-up is set up and take none back, none of them is ever parked: when stop() has
      returned in the caller-only configuration, every task is finished, or was cancelled with its timer. */
  lemma CarefulClientsFinish(s: State, es: seq<Event>)
    requires Visited(s, 1, true, es) && HookedRun(Init(1, true), {}, es, true)
    requires CallerOnlyRun(Init(1, true), es) && s.workers == [Exited]
    ensures forall t :: t in s.status ==> Finished(s.status[t]) || t in s.withdrawn
  {
    HookedReached(s, 1, true, es, true);
    DrainOnStop(s, es);
    forall t | t in s.status ensures Finished(s.status[t]) || t in s.withdrawn { assert Settled(s, t); }
  }
}
