/** The scheduler as a step machine: any number of workers run the loop of
    `Scheduler::run` over one shared queue, and every place where another thread can
    get in between (pick, swapIn, yield, the decrement, the post-processing) is a step of its own.

    A task keeps one identity from submission to the end. A task submitted as a callback has no fiber until
    a worker dispatches it; the worker then takes its spare fiber, if it has one, and from then on whoever
    holds on to the fiber's previous task means the new one. */
module Runtime {
  import opened Counting

  type Task = nat

  datatype Status = INIT | HOLD | EXEC | TERM | READY | EXCEPT

  predicate Finished(st: Status) { st == TERM || st == EXCEPT }

  /** A queue node; `thread == -1` means any worker may take it. */
  datatype Entry = Entry(task: Task, thread: int)

  /** Where a worker is in its loop. */
  datatype Pc =
    | NotStarted                         // the caller's own worker before stop() switches to it
    | Top                                // about to pick
    | Picked(task: Task)                 // counted as active, swapIn not done
    | Running(task: Task)                // inside the fiber
    | Out(task: Task)                    // the fiber swapped out, still counted as active
    | Back(task: Task)                   // no longer counted, status not yet looked at
    | Idle                               // inside the idle fiber
    | Batch(due: seq<Task>)              // inside the idle fiber, expired callbacks not yet queued
    | Exited

  /** The worker's cb_fiber: none, the fiber of a task that is through, or the one it runs a callback on. */
  datatype CbFiber = NoFiber | Spare(task: Task) | InUse

  datatype State = State(
    queue: seq<Entry>,
    status: map<Task, Status>,
    cbs: set<Task>,              // callbacks not yet dispatched: they have no fiber
    waits: multiset<Task>,       // held by waiter slots of fd contexts
    timers: multiset<Task>,      // callbacks held by armed timers
    sleeps: map<Task, Task>,     // timer callbacks that are still to wake a fiber, and that fiber
    pending: int,                // m_pendingEventCount
    triggers: int,               // triggerEvent calls that queued their waiter but did not yet decrement
    active: int,                 // m_activeThreadCount
    workers: seq<Pc>,
    cbFibers: seq<CbFiber>,
    idleDone: seq<bool>,         // the worker's idle fiber is TERM
    stopRequested: bool,         // m_autoStop && m_stopping
    heirs: map<Task, Task>,      // whose fiber the fiber of a task that is through has become
    parked: set<Task>,           // history: put on HOLD with no wake-up outstanding
    withdrawn: set<Task>,        // history: its wake-up was taken back by delEvent or Timer::cancel
    aborted: bool)               // the ASSERT of swapIn or reset failed

  // ---------------------------------------------------------------- the pick

  predicate Eligible(e: Entry, status: map<Task, Status>, w: int) {
    && (e.thread == -1 || e.thread == w)
    && (e.task in status ==> status[e.task] != EXEC)
  }

  function FirstEligible(q: seq<Entry>, status: map<Task, Status>, w: int): (i: nat)
    ensures i <= |q|
    ensures i < |q| ==> Eligible(q[i], status, w)
    ensures forall j :: 0 <= j < i ==> !Eligible(q[j], status, w)
  {
    if q == [] || Eligible(q[0], status, w) then 0 else 1 + FirstEligible(q[1..], status, w)
  }

  function RemoveAt<T>(q: seq<T>, i: nat): seq<T>
    requires i < |q|
  {
    q[..i] + q[i+1..]
  }

  // ---------------------------------------------------------------- who holds what

  /** All that is held of one task. */
  datatype Count = Count(
    queued: nat,
    picked: nat,    // by workers, swapIn not done
    batch: nat,     // by workers, expired but not queued
    running: nat,   // inside the fiber
    out: nat,       // swapped out again, not through with post-processing
    waits: nat,
    asleep: nat,    // callbacks that are to wake it
    timers: nat)

  function Is(u: Task, t: Task): nat { if u == t then 1 else 0 }

  function Occurrences(ts: seq<Task>, t: Task): nat {
    if ts == [] then 0 else Occurrences(ts[..|ts|-1], t) + Is(ts[|ts|-1], t)
  }

  function Queued(q: seq<Entry>, t: Task): nat {
    if q == [] then 0 else Queued(q[..|q|-1], t) + Is(q[|q|-1].task, t)
  }

  /** What one worker, and what all of them, hold of a task. */
  datatype Tally = Tally(picked: nat, batch: nat, running: nat, out: nat)

  function Of(pc: Pc, t: Task): Tally {
    match pc
    case Picked(u) => Tally(Is(u, t), 0, 0, 0)
    case Running(u) => Tally(0, 0, Is(u, t), 0)
    case Out(u) => Tally(0, 0, 0, Is(u, t))
    case Back(u) => Tally(0, 0, 0, Is(u, t))
    case Batch(due) => Tally(0, Occurrences(due, t), 0, 0)
    case _ => Tally(0, 0, 0, 0)
  }

  function Total(ws: seq<Pc>, t: Task): Tally {
    if ws == [] then Tally(0, 0, 0, 0)
    else
      var a, b := Total(ws[..|ws|-1], t), Of(ws[|ws|-1], t);
      Tally(a.picked + b.picked, a.batch + b.batch, a.running + b.running, a.out + b.out)
  }

  /** The workers m_activeThreadCount is to count. */
  predicate IsActive(pc: Pc) { pc.Picked? || pc.Running? || pc.Out? }

  function Active(ws: seq<Pc>): nat {
    if ws == [] then 0 else Active(ws[..|ws|-1]) + B(IsActive(ws[|ws|-1]))
  }

  function Wakers(sleeps: map<Task, Task>, t: Task): set<Task> { set c | c in sleeps && sleeps[c] == t }

  function CountOf(s: State, t: Task): Count {
    var a := Total(s.workers, t);
    Count(Queued(s.queue, t), a.picked, a.batch, a.running, a.out, s.waits[t], |Wakers(s.sleeps, t)|, s.timers[t])
  }

  /** The outstanding wake-ups of a task. */
  function Tokens(s: State, t: Task): nat {
    var c := CountOf(s, t);
    c.queued + c.picked + c.batch + c.waits + c.asleep + c.timers
  }

  /** How many workers are on a task. */
  function Own(s: State, t: Task): nat {
    var c := CountOf(s, t);
    c.running + c.out
  }

  predicate IsRunning(s: State, t: Task) { exists w :: 0 <= w < |s.workers| && s.workers[w] == Running(t) }

  // ---------------------------------------------------------------- a fiber handed on

  /** Whose fiber a handle on the fiber of `t` means by now. */
  function Heir(s: State, t: Task): Task { if t in s.heirs then s.heirs[t] else t }

  function Sub(x: Task, a: Task, u: Task): Task { if x == a then u else x }

  function SubQueue(q: seq<Entry>, a: Task, u: Task): seq<Entry> {
    seq(|q|, i requires 0 <= i < |q| => Entry(Sub(q[i].task, a, u), q[i].thread))
  }

  function SubPc(pc: Pc, a: Task, u: Task): Pc {
    match pc
    case Picked(t) => Picked(Sub(t, a, u))
    case Running(t) => Running(Sub(t, a, u))
    case Out(t) => Out(Sub(t, a, u))
    case Back(t) => Back(Sub(t, a, u))
    case _ => pc
  }

  function SubWorkers(ws: seq<Pc>, a: Task, u: Task): seq<Pc> {
    seq(|ws|, i requires 0 <= i < |ws| => SubPc(ws[i], a, u))
  }

  function SubWaits(m: multiset<Task>, a: Task, u: Task): multiset<Task> { m[a := 0][u := m[u] + m[a]] }

  function SubMap(m: map<Task, Task>, a: Task, u: Task): map<Task, Task> { map c | c in m :: Sub(m[c], a, u) }

  /** The fiber of `a` becomes that of `u`, for whoever refers to it. */
  function HandOn(s: State, a: Task, u: Task): State {
    s.(queue := SubQueue(s.queue, a, u), workers := SubWorkers(s.workers, a, u), waits := SubWaits(s.waits, a, u),
       sleeps := SubMap(s.sleeps, a, u), heirs := SubMap(s.heirs, a, u)[a := u])
  }

  /** The worker's spare fiber cannot be reset for `u`. */
  predicate ResetFails(s: State, w: nat, u: Task)
    requires w < |s.cbFibers|
  {
    u in s.cbs && s.cbFibers[w].Spare?
    && (var a := s.cbFibers[w].task; a == u || a !in s.status || !Finished(s.status[a]))
  }

  /** Give a callback its fiber: the spare one, reset, or a new one. */
  function Dispatch(s: State, w: nat, u: Task): State
    requires w < |s.cbFibers|
  {
    if u !in s.cbs then s
    else
      (if s.cbFibers[w].Spare? then HandOn(s, s.cbFibers[w].task, u) else s)
        .(cbs := s.cbs - {u}, cbFibers := s.cbFibers[w := InUse])
  }

  // ---------------------------------------------------------------- steps

  datatype Event =
    // client code: running fibers, other threads, callbacks
    | Submit(t: Task, thread: int, cb: bool)     // schedule() of a task never seen before
    | Wake(t: Task, thread: int)                 // schedule() of an existing fiber
    | Register(t: Task)                          // addEvent by the running fiber itself
    | RegisterCb(t: Task)                        // addEvent with a callback
    | Withdraw(t: Task)                          // delEvent
    | AddTimer(t: Task)                          // addTimer: t is the callback
    | CancelTimer(t: Task)                       // Timer::cancel, successful
    | Sleep(t: Task, c: Task)                    // sleep(), up to its yield: a timer with a callback that wakes t
    | Deliver(c: Task)                           // that callback, running, schedules its fiber
    | RequestStop                                // stop() sets its flags
    // triggerEvent, in the two steps another thread can observe
    | Trigger(t: Task)
    | Settle
    // workers
    | Start(w: nat)                              // stop() checks stopping() and enters run()
    | Pick(w: nat)
    | PickNone(w: nat)
    | SwapIn(w: nat)
    | Skip(w: nat)
    | YieldReady(w: nat)
    | YieldHold(w: nat)
    | Finish(w: nat, except: bool)
    | Decrement(w: nat)
    | Post(w: nat)
    | Expire(w: nat, due: seq<Task>)             // listExpiredCb
    | Flush(w: nat)                              // the batch schedule that follows it
    | StopCheck(w: nat)                          // IOManager::stopping in the idle fiber
    | Leave(w: nat)                              // the idle fiber yields

  /** IOManager::stopping: no timer, no registration, then the base class's test. */
  predicate Stopping(s: State) {
    s.timers == multiset{} && s.pending == 0 && s.stopRequested && s.queue == [] && s.active == 0
  }

  predicate Sized(s: State) { |s.idleDone| == |s.workers| == |s.cbFibers| }

  predicate At(s: State, w: nat) { w < |s.workers| }

  /** Inside a task, and not in a sleep's callback that has not woken its fiber yet: that callback does
      nothing else before. */
  predicate MayLeave(s: State, w: nat) { At(s, w) && s.workers[w].Running? && s.workers[w].task !in s.sleeps }

  /** What the code lets happen in a state; after a failed ASSERT nothing does. A fiber can be scheduled only
      once there is one, and the timer of a sleep is nobody's to cancel. */
  predicate Possible(s: State, e: Event) {
    Sized(s) && !s.aborted &&
    match e
    case Submit(t, _, _) => t !in s.status
    case Wake(t, _) => t in s.status && t !in s.cbs
    case Register(t) => IsRunning(s, t)
    case RegisterCb(t) => t !in s.status
    case Withdraw(t) => t in s.waits
    case AddTimer(t) => t !in s.status
    case CancelTimer(t) => t in s.timers && t !in s.sleeps
    case Sleep(t, c) => IsRunning(s, t) && c !in s.status && c !in s.sleeps
    case Deliver(c) => c in s.sleeps && IsRunning(s, c)
    case RequestStop => true
    case Trigger(t) => t in s.waits
    case Settle => s.triggers > 0
    case Start(w) => At(s, w) && s.workers[w].NotStarted? && s.stopRequested
    case Pick(w) => At(s, w) && s.workers[w].Top? && FirstEligible(s.queue, s.status, w) < |s.queue|
    case PickNone(w) => At(s, w) && s.workers[w].Top? && FirstEligible(s.queue, s.status, w) == |s.queue|
    case SwapIn(w) => At(s, w) && s.workers[w].Picked? && s.workers[w].task in s.status
                      && !Finished(s.status[s.workers[w].task])
    case Skip(w) => At(s, w) && s.workers[w].Picked? && s.workers[w].task in s.status
                    && Finished(s.status[s.workers[w].task])
    case YieldReady(w) => MayLeave(s, w)
    case YieldHold(w) => MayLeave(s, w)
    case Finish(w, _) => MayLeave(s, w)
    case Decrement(w) => At(s, w) && s.workers[w].Out?
    case Post(w) => At(s, w) && s.workers[w].Back? && s.workers[w].task in s.status
    case Expire(w, due) => At(s, w) && s.workers[w].Idle? && multiset(due) <= s.timers
    case Flush(w) => At(s, w) && s.workers[w].Batch?
    case StopCheck(w) => At(s, w) && s.workers[w].Idle?
    case Leave(w) => At(s, w) && s.workers[w].Idle?
  }

  /** The rule client code has to follow: a fiber has at most one wake source outstanding, and none when
      it gives itself up through YieldToReady or by finishing. */
  ghost predicate OneSource(s: State, e: Event) {
    match e
    case Wake(t, _) => Tokens(s, t) == 0 && (Own(s, t) > 0 ==> t in s.status && s.status[t] == EXEC)
    case Register(t) => Tokens(s, t) == 0
    case Sleep(t, _) => Tokens(s, t) == 0
    case YieldReady(w) => At(s, w) && s.workers[w].Running? && Tokens(s, s.workers[w].task) == 0
    case Finish(w, _) => At(s, w) && s.workers[w].Running? && Tokens(s, s.workers[w].task) == 0
    case _ => true
  }

  /** And nobody schedules the fiber of a task that is through: it may be another task's by now. */
  ghost predicate OneWakeSource(s: State, e: Event) {
    OneSource(s, e) && (e.Wake? && e.t in s.status ==> !Finished(s.status[e.t]))
  }

  function Entries(ts: seq<Task>): seq<Entry> { seq(|ts|, i requires 0 <= i < |ts| => Entry(ts[i], -1)) }

  /** A task that is held as a callback. */
  function Callback(s: State, t: Task): State { s.(status := s.status[t := INIT], cbs := s.cbs + {t}) }

  function Move(s: State, w: nat, pc: Pc): State
    requires At(s, w)
  {
    s.(workers := s.workers[w := pc])
  }

  /** The end of a turn: what becomes of a fiber that swapped out, and of the cb_fiber if it was that. */
  function Through(s: State, w: nat, t: Task): State
    requires At(s, w) && Sized(s) && t in s.status
  {
    var s1 := Move(s, w, Top).(cbFibers := if s.cbFibers[w] != InUse then s.cbFibers
                                           else s.cbFibers[w := if Finished(s.status[t]) then Spare(t) else NoFiber]);
    if s.status[t] == READY then s1.(queue := s.queue + [Entry(t, -1)])
    else if Finished(s.status[t]) then s1
    else s1.(status := s.status[t := HOLD], parked := if Tokens(s, t) > 0 then s.parked else s.parked + {t})
  }

  /** The worker is inside the fiber of `u`. */
  function Enter(s: State, w: nat, u: Task): State
    requires At(s, w) && Sized(s)
  {
    Move(Dispatch(s, w, u), w, Running(u)).(status := s.status[u := EXEC])
  }

  function Apply(s: State, e: Event): State
    requires Possible(s, e)
  {
    match e
    case Submit(t, thread, cb) =>
      (if cb then Callback(s, t) else s.(status := s.status[t := INIT])).(queue := s.queue + [Entry(t, thread)])
    case Wake(t, thread) =>
      var u := Heir(s, t);
      s.(queue := s.queue + [Entry(u, thread)], parked := s.parked - {u}, withdrawn := s.withdrawn - {u})
    case Register(t) => s.(waits := s.waits + multiset{t}, pending := s.pending + 1)
    case RegisterCb(t) => Callback(s, t).(waits := s.waits + multiset{t}, pending := s.pending + 1)
    case Withdraw(t) =>
      s.(waits := s.waits - multiset{t}, pending := s.pending - 1,
         withdrawn := if Own(s, t) > 0 then s.withdrawn else s.withdrawn + {t})
    case AddTimer(t) => Callback(s, t).(timers := s.timers + multiset{t})
    case CancelTimer(t) => s.(timers := s.timers - multiset{t}, withdrawn := s.withdrawn + {t})
    case Sleep(t, c) => Callback(s, c).(timers := s.timers + multiset{c}, sleeps := s.sleeps[c := t])
    case Deliver(c) => s.(queue := s.queue + [Entry(s.sleeps[c], -1)], sleeps := s.sleeps - {c})
    case RequestStop => s.(stopRequested := true)
    case Trigger(t) =>
      s.(waits := s.waits - multiset{t}, triggers := s.triggers + 1, queue := s.queue + [Entry(t, -1)])
    case Settle => s.(triggers := s.triggers - 1, pending := s.pending - 1)
    case Start(w) => Move(s, w, if Stopping(s) then Exited else Top)
    case Pick(w) =>
      var i := FirstEligible(s.queue, s.status, w);
      Move(s, w, Picked(s.queue[i].task)).(queue := RemoveAt(s.queue, i), active := s.active + 1)
    case PickNone(w) => Move(s, w, if s.idleDone[w] then Exited else Idle)
    case SwapIn(w) =>
      var u := s.workers[w].task;
      if ResetFails(s, w, u) || s.status[u] == EXEC then s.(aborted := true) else Enter(s, w, u)
    case Skip(w) => Move(s, w, Top).(active := s.active - 1)
    case YieldReady(w) => Move(s, w, Out(s.workers[w].task)).(status := s.status[s.workers[w].task := READY])
    case YieldHold(w) => Move(s, w, Out(s.workers[w].task))
    case Finish(w, except) =>
      Move(s, w, Out(s.workers[w].task)).(status := s.status[s.workers[w].task := if except then EXCEPT else TERM])
    case Decrement(w) => Move(s, w, Back(s.workers[w].task)).(active := s.active - 1)
    case Post(w) => Through(s, w, s.workers[w].task)
    case Expire(w, due) => Move(s, w, Batch(due)).(timers := s.timers - multiset(due))
    case Flush(w) => Move(s, w, Idle).(queue := s.queue + Entries(s.workers[w].due))
    case StopCheck(w) => if Stopping(s) then Move(s, w, Top).(idleDone := s.idleDone[w := true]) else s
    case Leave(w) => Move(s, w, Top)
  }

  /** `n` workers; with `caller`, the first is the calling thread, which enters the loop in stop(). */
  function Init(n: nat, caller: bool): State {
    State([], map[], {}, multiset{}, multiset{}, map[], 0, 0, 0,
          seq(n, i => if caller && i == 0 then NotStarted else Top), seq(n, i => NoFiber), seq(n, i => false),
          false, map[], {}, {}, false)
  }

  /** `es` is a run of the machine from `s`. */
  ghost predicate Run(s: State, es: seq<Event>)
    decreases |es|
  {
    es == [] || (Possible(s, es[0]) && Run(Apply(s, es[0]), es[1..]))
  }

  /** In this run clients keep to the rule. */
  ghost predicate Ruled(s: State, es: seq<Event>)
    requires Run(s, es)
    decreases |es|
  {
    es == [] || (OneWakeSource(s, es[0]) && Ruled(Apply(s, es[0]), es[1..]))
  }

  ghost function Exec(s: State, es: seq<Event>): State
    requires Run(s, es)
    decreases |es|
  {
    if es == [] then s else Exec(Apply(s, es[0]), es[1..])
  }
}
