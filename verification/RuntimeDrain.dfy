/** Draining, over whole runs and for any clients. */
module RuntimeDrain {
  import opened Counting
  import opened Runtime
  import opened RuntimeEffects
  import opened RuntimeInvariant
  import opened RuntimeTheorems

  /** Some worker's idle fiber has ended, or the worker has left. */
  predicate Stopped(s: State) {
    || (exists w :: 0 <= w < |s.idleDone| && s.idleDone[w])
    || (exists w :: 0 <= w < |s.workers| && s.workers[w].Exited?)
  }

  predicate Submits(e: Event) { e.Submit? || e.Wake? || e.RegisterCb? || e.AddTimer? }

  /** No stop test succeeds while a worker has an open hand, and after the first one nobody submits. */
  ghost predicate Orderly(s: State, e: Event) {
    && (Stopping(s) && (e.StopCheck? || e.Start?) ==> Quiet(s))
    && (Stopped(s) ==> !Submits(e))
  }

  ghost predicate OrderlyRun(s: State, es: seq<Event>)
    requires Run(s, es)
    decreases |es|
  {
    es == [] || (Orderly(s, es[0]) && OrderlyRun(Apply(s, es[0]), es[1..]))
  }

  /** All is at rest: no step of a client but a submission is possible. */
  ghost predicate Resting(s: State) {
    && Quiet(s) && s.waits == multiset{} && s.sleeps == map[] && s.triggers == 0
    && forall w :: 0 <= w < |s.workers| ==> AtRest(s, s.workers[w])
  }

  lemma RestClient(s: State, e: Event)
    requires Possible(s, e) && Resting(s) && !ByWorker(e) && !Submits(e)
    ensures e.RequestStop?
  {
    if e.Register? || e.Sleep? { RestNotRunning(s, e.t); }
  }

  lemma RestNotRunning(s: State, t: Task)
    requires forall w :: 0 <= w < |s.workers| ==> AtRest(s, s.workers[w])
    ensures !IsRunning(s, t)
  {
  }

  /** What a worker's step at rest changes: only where it is. */
  predicate OnlyMoves(s: State, r: State, w: nat) {
    && r.queue == s.queue && r.timers == s.timers && r.pending == s.pending && r.active == s.active
    && r.stopRequested == s.stopRequested && r.status == s.status
    && At(s, w) && |r.workers| == |s.workers| && r.workers == s.workers[w := r.workers[w]] && AtRest(r, r.workers[w])
  }

  lemma RestWorker(s: State, e: Event, w: nat)
    requires Possible(s, e) && Resting(s) && ByWorker(e) && e.w == w
    ensures OnlyMoves(s, Apply(s, e), w)
  {
    assert AtRest(s, s.workers[w]);
    if e.Expire? {
      NoneDue(e.due, s.timers);
      RestExpire(s, e, w);
    } else if e.Flush? {
      RestFlush(s, w);
    } else if e.Post? {
      RestPost(s, w);
    } else {
      RestIdles(s, e, w);
    }
  }

  lemma RestExpire(s: State, e: Event, w: nat)
    requires Possible(s, e) && e.Expire? && e.w == w && e.due == []
    ensures OnlyMoves(s, Apply(s, e), w)
  {
  }

  lemma RestFlush(s: State, w: nat)
    requires Possible(s, Flush(w)) && s.workers[w].due == []
    ensures OnlyMoves(s, Apply(s, Flush(w)), w)
  {
    assert Entries([]) == [];
  }

  lemma RestPost(s: State, w: nat)
    requires Possible(s, Post(w)) && Finished(s.status[s.workers[w].task])
    ensures OnlyMoves(s, Apply(s, Post(w)), w)
  {
  }

  lemma RestIdles(s: State, e: Event, w: nat)
    requires Possible(s, e) && ByWorker(e) && e.w == w && !e.Expire? && !e.Flush? && !e.Post?
    requires AtRest(s, s.workers[w]) && s.queue == []
    ensures Idles(e) && OnlyMoves(s, Apply(s, e), w)
  {
    assert Idles(e);
  }

  lemma NoneDue(due: seq<Task>, timers: multiset<Task>)
    requires multiset(due) <= timers && timers == multiset{}
    ensures due == []
  {
    assert |multiset(due)| == |due|;
  }

  lemma RestStep(s: State, e: Event)
    requires Possible(s, e) && Resting(s) && !Submits(e)
    ensures Quiet(Apply(s, e))
  {
    var r := Apply(s, e);
    if ByWorker(e) { RestWorker(s, e, e.w); } else { RestClient(s, e); }
    forall w ensures !OpenHand(r, w) { assert !OpenHand(s, w); }
  }

  lemma QuietRests(s: State)
    requires Sane(s) && Quiet(s)
    ensures Resting(s)
  {
    NobodyAsleep(s);
    forall w | 0 <= w < |s.workers| ensures AtRest(s, s.workers[w]) { QuietWorker(s, w); }
  }

  /** Only a successful stop test ends an idle fiber. */
  lemma StaysOn(s: State, e: Event)
    requires Possible(s, e) && !Stopped(s) && !(Stopping(s) && (e.StopCheck? || e.Start?))
    ensures !Stopped(Apply(s, e))
  {
    if !ByWorker(e) { ClientsLeaveWorkers(s, e); }
    else if e.SwapIn? { SwapInStaysOn(s, e.w); }
    else if Idles(e) { IdleMoves(s, e, e.w); OneStaysOn(s, Apply(s, e), e.w); }
    else if e.Post? { PostMoves(s, e.w); OneStaysOn(s, Apply(s, e), e.w); }
    else if Hauls(e) { HaulMoves(s, e, e.w); OneStaysOn(s, Apply(s, e), e.w); }
    else { SwitchMoves(s, e, e.w); OneStaysOn(s, Apply(s, e), e.w); }
  }

  lemma OneStaysOn(s: State, s': State, w: nat)
    requires !Stopped(s) && MovesOne(s, s', w) && s'.idleDone == s.idleDone && !s'.workers[w].Exited?
    ensures !Stopped(s')
  {
  }

  lemma SwapInStaysOn(s: State, w: nat)
    requires Possible(s, SwapIn(w)) && !Stopped(s)
    ensures !Stopped(Apply(s, SwapIn(w)))
  {
  }

  lemma QuietStep(s: State, e: Event)
    requires Sane(s) && Possible(s, e) && Orderly(s, e) && (Stopped(s) ==> Quiet(s))
    ensures Stopped(Apply(s, e)) ==> Quiet(Apply(s, e))
  {
    if Quiet(s) && !Submits(e) {
      QuietRests(s);
      RestStep(s, e);
    } else {
      StaysOn(s, e);
    }
  }

  lemma {:induction false} StaysQuiet(s: State, es: seq<Event>)
    requires Sane(s) && Run(s, es) && OrderlyRun(s, es) && (Stopped(s) ==> Quiet(s))
    ensures Sane(Exec(s, es)) && (Stopped(Exec(s, es)) ==> Quiet(Exec(s, es)))
    decreases |es|
  {
    if es != [] {
      SaneStep(s, es[0]);
      QuietStep(s, es[0]);
      StaysQuiet(Apply(s, es[0]), es[1..]);
    }
  }

  /** Nothing is left: no queue, no count, no timer, no sleeper, no registration, no unsettled task. */
  ghost predicate Drained(s: State) {
    && s.queue == [] && s.active == 0 && s.pending == 0
    && s.timers == multiset{} && s.waits == multiset{} && s.sleeps == map[]
    && forall t :: t in s.status ==> Settled(s, t)
  }

  lemma QuietDrained(s: State)
    requires Sane(s) && Quiet(s)
    ensures Drained(s)
  {
    NobodyAsleep(s);
    forall t | t in s.status ensures Settled(s, t) { NothingHeld(s, t); }
  }

  /** Drain for any number of workers and any clients: if no stop test succeeds while a worker has an open hand
      and nobody submits after the first one that does, then from that test on nothing is left. */
  lemma OrderlyDrain(s: State, n: nat, caller: bool, es: seq<Event>)
    requires Visited(s, n, caller, es) && OrderlyRun(Init(n, caller), es) && Stopped(s)
    ensures Drained(s)
  {
    InitSane(n, caller);
    StaysQuiet(Init(n, caller), es);
    QuietDrained(s);
  }

  // ---------------------------------------------------------------- the caller as only worker

  predicate InTask(s: State) { At(s, 0) && s.workers[0].Running? }

  /** The caller-only configuration: there is no thread but worker 0, so between its own steps clients act
      only before stop(), inside the fiber it runs, or inside its idle fiber, where recurring timers are put
      back and waiters are triggered. */
  ghost predicate CallerOnlyStep(s: State, e: Event) {
    |s.workers| == 1 &&
    match e
    case Submit(_, _, _) => s.workers[0].NotStarted? || InTask(s)
    case Wake(_, _) => s.workers[0].NotStarted? || InTask(s)
    case Register(_) => InTask(s)
    case RegisterCb(_) => s.workers[0].NotStarted? || InTask(s)
    case Withdraw(_) => s.workers[0].NotStarted? || InTask(s)
    case AddTimer(_) => s.workers[0].NotStarted? || InTask(s) || s.workers[0].Batch?
    case CancelTimer(_) => s.workers[0].NotStarted? || InTask(s)
    case Sleep(_, _) => InTask(s)
    case Deliver(_) => InTask(s)
    case RequestStop => s.workers[0].NotStarted? || InTask(s)
    case Trigger(_) => s.workers[0].NotStarted? || InTask(s) || s.workers[0].Idle?
    case Settle => s.workers[0].NotStarted? || InTask(s) || s.workers[0].Idle?
    case _ => true
  }

  ghost predicate CallerOnlyRun(s: State, es: seq<Event>)
    requires Run(s, es)
    decreases |es|
  {
    es == [] || (CallerOnlyStep(s, es[0]) && CallerOnlyRun(Apply(s, es[0]), es[1..]))
  }

  /** The one worker is past its idle fiber only at the top of the loop or outside it. */
  ghost predicate Latched(s: State) {
    && |s.workers| == |s.idleDone| == 1
    && (s.idleDone[0] ==> s.workers[0].Top? || s.workers[0].Exited?)
    && (Stopped(s) ==> Quiet(s) && !s.workers[0].NotStarted?)
  }

  lemma CallerIsOrderly(s: State, e: Event)
    requires Counters(s) && Possible(s, e) && CallerOnlyStep(s, e) && Latched(s)
    ensures Orderly(s, e)
  {
    if Stopped(s) {
      assert s.idleDone[0] || s.workers[0].Exited?;
    } else if Stopping(s) && (e.StopCheck? || e.Start?) {
      forall w ensures !OpenHand(s, w) {}
    }
  }

  /** Past its idle fiber and with an empty queue, the worker can only leave. */
  lemma TopStep(s: State, e: Event)
    requires Possible(s, e) && |s.workers| == 1
    requires s.idleDone[0] ==> s.queue == [] && (s.workers[0].Top? || s.workers[0].Exited?)
    ensures var r := Apply(s, e);
            && |r.workers| == |r.idleDone| == 1
            && (r.idleDone[0] ==> r.workers[0].Top? || r.workers[0].Exited?)
            && (r.workers[0].NotStarted? ==> s.workers[0].NotStarted? && r.idleDone == s.idleDone)
  {
    if !ByWorker(e) { ClientsLeaveWorkers(s, e); }
    else if Idles(e) { IdleMoves(s, e, 0); IdleGoes(s, e); }
    else { BusyTop(s, e); }
  }

  lemma IdleGoes(s: State, e: Event)
    requires Possible(s, e) && Idles(e) && |s.workers| == 1
    ensures var r := Apply(s, e); |r.workers| == 1 && !r.workers[0].NotStarted?
    ensures !e.StopCheck? && s.workers[0].Top? && s.idleDone[0] ==> Apply(s, e).workers[0].Exited?
  {
  }

  lemma BusyTop(s: State, e: Event)
    requires Possible(s, e) && |s.workers| == 1 && ByWorker(e) && !Idles(e)
    requires s.idleDone[0] ==> s.queue == [] && (s.workers[0].Top? || s.workers[0].Exited?)
    ensures var r := Apply(s, e);
            |r.workers| == |r.idleDone| == 1 && !r.idleDone[0] && !r.workers[0].NotStarted?
  {
    BusyFrom(s, e);
    if e.SwapIn? { SwapInGoes(s, e.w); }
    else if e.Post? { PostMoves(s, e.w); }
    else if Hauls(e) { HaulMoves(s, e, e.w); }
    else { SwitchMoves(s, e, e.w); }
  }

  lemma BusyFrom(s: State, e: Event)
    requires Possible(s, e) && |s.workers| == 1 && ByWorker(e) && !Idles(e)
    requires s.idleDone[0] ==> s.queue == [] && (s.workers[0].Top? || s.workers[0].Exited?)
    ensures e.w == 0 && !s.idleDone[0]
  {
  }

  lemma SwapInGoes(s: State, w: nat)
    requires Possible(s, SwapIn(w)) && |s.workers| == 1
    ensures var r := Apply(s, SwapIn(w));
            |r.workers| == 1 && r.idleDone == s.idleDone && (r.workers[0].Running? || r.workers[0].Picked?)
  {
  }

  lemma LatchEnds(s: State, r: State)
    requires |s.workers| == |s.idleDone| == |r.workers| == |r.idleDone| == 1
    requires r.workers[0].NotStarted? ==> s.workers[0].NotStarted? && r.idleDone == s.idleDone
    requires Stopped(s) ==> !s.workers[0].NotStarted?
    ensures Stopped(r) ==> !r.workers[0].NotStarted?
  {
  }

  lemma LatchStep(s: State, e: Event)
    requires Sane(s) && Possible(s, e) && CallerOnlyStep(s, e) && Latched(s)
    ensures Latched(Apply(s, e))
  {
    CallerIsOrderly(s, e);
    QuietStep(s, e);
    LatchTop(s);
    TopStep(s, e);
    LatchEnds(s, Apply(s, e));
  }

  lemma LatchTop(s: State)
    requires Latched(s)
    ensures s.idleDone[0] ==> s.queue == []
  {
    if s.idleDone[0] { assert Stopped(s); }
  }

  /** In the caller-only configuration every run is orderly. */
  lemma {:induction false} LatchHolds(s: State, es: seq<Event>)
    requires Sane(s) && Run(s, es) && CallerOnlyRun(s, es) && Latched(s)
    ensures OrderlyRun(s, es) && Latched(Exec(s, es))
    decreases |es|
  {
    if es != [] {
      SaneStep(s, es[0]);
      CallerIsOrderly(s, es[0]);
      LatchStep(s, es[0]);
      LatchHolds(Apply(s, es[0]), es[1..]);
    }
  }

  /** Drain on stop, in every run of the caller-only configuration: whenever stop() has returned, queue and
      counters are empty, no timer, sleeper or registration remains, and every task accepted is finished, or
      was withdrawn, or gave itself up with no wake-up registered. */
  lemma DrainOnStop(s: State, es: seq<Event>)
    requires Visited(s, 1, true, es) && CallerOnlyRun(Init(1, true), es) && s.workers == [Exited]
    ensures Drained(s)
  {
    InitSane(1, true);
    LatchHolds(Init(1, true), es);
    assert s.workers[0].Exited?;
    OrderlyDrain(s, 1, true, es);
  }

  // ---------------------------------------------------------------- a task nobody may run

  /** No worker has left the loop or is about to. */
  predicate AllIn(s: State) { Sized(s) && !Stopped(s) }

  predicate Homeless(e: Entry, n: nat) { e.thread != -1 && !(0 <= e.thread < n) }

  /** A task pinned to a thread that is no worker is queued. */
  ghost predicate Pinned(q: seq<Entry>, n: nat) { exists i :: 0 <= i < |q| && Homeless(q[i], n) }

  lemma PinnedRemove(q: seq<Entry>, i: nat, n: nat)
    requires i < |q| && Pinned(q, n) && !Homeless(q[i], n)
    ensures Pinned(RemoveAt(q, i), n)
  {
    var j :| 0 <= j < |q| && Homeless(q[j], n);
    var r := RemoveAt(q, i);
    assert Homeless(r[if j < i then j else j - 1], n);
  }

  lemma PinnedAppend(q: seq<Entry>, r: seq<Entry>, n: nat)
    requires Pinned(q, n)
    ensures Pinned(q + r, n)
  {
    var j :| 0 <= j < |q| && Homeless(q[j], n);
    assert Homeless((q + r)[j], n);
  }

  lemma PinnedSub(q: seq<Entry>, a: Task, u: Task, n: nat)
    requires Pinned(q, n)
    ensures Pinned(SubQueue(q, a, u), n)
  {
    var j :| 0 <= j < |q| && Homeless(q[j], n);
    assert Homeless(SubQueue(q, a, u)[j], n);
  }

  /** How each step changes the queue. */
  lemma QueueStep(s: State, e: Event) returns (r: seq<Entry>)
    requires Possible(s, e) && !e.Pick? && !e.SwapIn?
    ensures Apply(s, e).queue == s.queue + r
  {
    r := if e.Submit? then [Entry(e.t, e.thread)] else if e.Wake? then [Entry(Heir(s, e.t), e.thread)]
         else if e.Trigger? then [Entry(e.t, -1)] else if e.Deliver? then [Entry(s.sleeps[e.c], -1)]
         else if e.Flush? then Entries(s.workers[e.w].due)
         else if e.Post? && s.status[s.workers[e.w].task] == READY then [Entry(s.workers[e.w].task, -1)] else [];
  }

  lemma PinnedStep(s: State, e: Event)
    requires Possible(s, e) && Pinned(s.queue, |s.workers|)
    ensures Pinned(Apply(s, e).queue, |s.workers|)
  {
    if e.Pick? {
      PinnedRemove(s.queue, FirstEligible(s.queue, s.status, e.w), |s.workers|);
    } else if e.SwapIn? {
      PinnedSwapIn(s, e.w);
    } else {
      var r := QueueStep(s, e);
      PinnedAppend(s.queue, r, |s.workers|);
    }
  }

  lemma PinnedSwapIn(s: State, w: nat)
    requires Possible(s, SwapIn(w)) && Pinned(s.queue, |s.workers|)
    ensures Pinned(Apply(s, SwapIn(w)).queue, |s.workers|)
  {
    if HandsOn(s, w) { PinnedSub(s.queue, s.cbFibers[w].task, s.workers[w].task, |s.workers|); }
  }

  lemma WorkersStay(s: State, e: Event)
    requires Possible(s, e)
    ensures |Apply(s, e).workers| == |s.workers| && Sized(Apply(s, e))
  {
    if !ByWorker(e) { ClientsLeaveWorkers(s, e); }
    else if e.SwapIn? { SwapInSize(s, e.w); }
    else { OneMoves(s, e, e.w); }
  }

  lemma SwapInSize(s: State, w: nat)
    requires Possible(s, SwapIn(w))
    ensures var r := Apply(s, SwapIn(w)); |r.workers| == |s.workers| && Sized(r)
  {
  }

  /** Drain termination needs tasks that somebody may run: while one is pinned to a thread that is no worker,
      in every run it stays queued, the scheduler never counts as stopping, and no worker leaves its loop. */
  lemma {:induction false} PinnedElsewhereNeverStops(s: State, es: seq<Event>)
    requires Run(s, es) && AllIn(s) && Pinned(s.queue, |s.workers|)
    ensures var r := Exec(s, es); Pinned(r.queue, |s.workers|) && !Stopping(r) && AllIn(r)
    decreases |es|
  {
    if es != [] {
      PinnedStep(s, es[0]);
      StaysOn(s, es[0]);
      WorkersStay(s, es[0]);
      PinnedElsewhereNeverStops(Apply(s, es[0]), es[1..]);
    }
  }
}
