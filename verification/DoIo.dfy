/** The parking protocol of do_io and connect_with_timeout: fibers wait for fd events, and a timeout acts on a
    waiting fiber only by cancelling what is registered for its fd and event. Any number of fibers, call after
    call, with timers, their callbacks, dispatch, close and other users of the IO manager between any two
    steps. A connect makes one round: where do_io would try again it asks the socket how the connection went
    and returns. */
module DoIo {
  import opened Counting
  import opened Options
  import IoSpec

  type FiberId = nat

  type Key = IoSpec.Key

  /** Armed in the timer set; expired, its callback queued or in a hand; its callback holding the timer_info;
      taken out by Timer::cancel; run and found its call over or timed out; past that test, about to cancel the
      event; done with that, or failed at it because epoll_ctl failed. */
  datatype TimerState = Armed | Expired | Locked | Dropped | Missed | Cancelling | Spent | Failed

  /** `call` stands for the timer_info that the callback holds weakly until it has locked it. */
  datatype Timer = Timer(owner: FiberId, call: nat, key: Key, state: TimerState)

  /** The timer_info of one call. */
  datatype CallId = CallId(f: FiberId, call: nat)

  datatype Outcome = Value | AddFailed | TimedOut

  datatype Phase =
    | Outside(last: Option<Outcome>)    // not in a hooked call; how the last one returned
    | Trying                            // at `retry:`
    | Blocked                           // EAGAIN, no timer yet
    | Adding                            // timer armed or not wanted, about to call addEvent
    | Parked                            // yielded
    | Resumed                           // picked again
    | TimerDropped                      // timer->cancel() done, about to look at tinfo->cancelled

  datatype Fib = Fib(
    phase: Phase,
    call: nat,                // number of the current or last call
    key: Key,                 // the fd and event of that call
    timeout: bool,            // it has a timeout
    connecting: bool,         // it is connect_with_timeout
    cur: Option<nat>,         // `timer` of this round
    regs: nat,                // history: successful addEvents
    resumes: nat)             // history: resumptions

  /** `io.queue` holds every waiter a trigger ever queued, `flags` the timer_infos whose `cancelled` is set. */
  datatype State = State(io: IoSpec.Registry, fibers: map<FiberId, Fib>, timers: seq<Timer>, flags: set<CallId>)

  const FRESH: Fib := Fib(Outside(None), 0, IoSpec.Key(0, IoSpec.READ), false, false, None, 0, 0)

  function Get(s: State, f: FiberId): Fib { if f in s.fibers then s.fibers[f] else FRESH }

  function Set(s: State, f: FiberId, fib: Fib): State { s.(fibers := s.fibers[f := fib]) }

  /** tinfo->cancelled of the fiber's current or last call. */
  predicate Flagged(s: State, f: FiberId) { CallId(f, Get(s, f).call) in s.flags }

  /** How often a trigger has queued the fiber. */
  function Wakes(s: State, f: FiberId): nat { multiset(s.io.queue)[IoSpec.Fiber(f)] }

  /** The fiber is the waiter of its fd and event. */
  predicate Registered(s: State, f: FiberId) { Holds(s.io.reg, Get(s, f).key, f) }

  predicate Holds(reg: map<Key, IoSpec.Waiter>, k: Key, f: FiberId) { k in reg && reg[k] == IoSpec.Fiber(f) }

  datatype Event =
    | Begin(f: FiberId, key: Key, timeout: bool, connecting: bool)
    | Io(f: FiberId, again: bool)        // the system call, EINTR retries included
    | Arm(f: FiberId)
    | Add(f: FiberId, fails: bool)       // addEvent, and YieldToHold after it
    | Resume(f: FiberId)
    | DropTimer(f: FiberId)
    | Check(f: FiberId)
    | Outer(op: IoSpec.Op, fails: bool)  // dispatch, close, and other users of the IO manager
    | Expire(k: nat)
    | Lock(k: nat)                       // the callback: lock the timer_info
    | Test(k: nat)                       // the callback: test and set tinfo->cancelled
    | Cancel(k: nat, fails: bool)        // the callback: cancelEvent

  /** Other users register callbacks and take back callbacks only; what they cancel may be anyone's. */
  predicate Outsider(reg: map<Key, IoSpec.Waiter>, op: IoSpec.Op) {
    match op
    case OpAdd(_, w) => w.Callback?
    case OpDel(k) => k in reg ==> reg[k].Callback?
    case _ => true
  }

  /** What may happen in a state; an event that fails an ASSERT ends the process. */
  predicate Possible(s: State, e: Event) {
    match e
    case Begin(f, _, _, _) => Get(s, f).phase.Outside?
    case Io(f, _) => Get(s, f).phase.Trying?
    case Arm(f) => Get(s, f).phase.Blocked?
    case Add(f, fails) => Get(s, f).phase.Adding? && IoSpec.Add(s.io, Get(s, f).key, IoSpec.Fiber(f), fails).Done?
    case Resume(f) => Get(s, f).phase.Parked? && Wakes(s, f) > Get(s, f).resumes
    case DropTimer(f) => Get(s, f).phase.Resumed?
    case Check(f) => Get(s, f).phase.TimerDropped?
    case Outer(op, fails) => Outsider(s.io.reg, op) && IoSpec.Step(s.io, op, fails).Done?
    case Expire(k) => k < |s.timers| && s.timers[k].state.Armed?
    case Lock(k) => k < |s.timers| && s.timers[k].state.Expired?
    case Test(k) => k < |s.timers| && s.timers[k].state.Locked?
    case Cancel(k, _) => k < |s.timers| && s.timers[k].state.Cancelling?
  }

  function SetTimer(s: State, k: nat, st: TimerState): State
    requires k < |s.timers|
  {
    s.(timers := s.timers[k := s.timers[k].(state := st)])
  }

  /** The timer_info of a timer's call still exists. */
  predicate Alive(s: State, k: nat)
    requires k < |s.timers|
  {
    var fib := Get(s, s.timers[k].owner);
    s.timers[k].call == fib.call && !fib.phase.Outside?
  }

  function IdOf(s: State, k: nat): CallId
    requires k < |s.timers|
  {
    CallId(s.timers[k].owner, s.timers[k].call)
  }

  /** Timer::cancel on the timer of this round, if there is one. */
  function StopTimer(s: State, f: FiberId): State {
    var cur := Get(s, f).cur;
    if cur.Some? && cur.value < |s.timers| && s.timers[cur.value].state.Armed? then SetTimer(s, cur.value, Dropped)
    else s
  }

  function Apply(s: State, e: Event): State
    requires Possible(s, e)
  {
    match e
    case Begin(f, key, timeout, connecting) =>
      var fib := Get(s, f);
      Set(s, f, Fib(Trying, fib.call + 1, key, timeout, connecting, None, fib.regs, fib.resumes))
    case Io(f, again) => Set(s, f, Get(s, f).(phase := if again then Blocked else Outside(Some(Value))))
    case Arm(f) =>
      var fib := Get(s, f);
      if fib.timeout then
        Set(s, f, fib.(phase := Adding, cur := Some(|s.timers|)))
          .(timers := s.timers + [Timer(f, fib.call, fib.key, Armed)])
      else Set(s, f, fib.(phase := Adding, cur := None))
    case Add(f, fails) =>
      var fib := Get(s, f);
      var d := IoSpec.Add(s.io, fib.key, IoSpec.Fiber(f), fails);
      if d.ok then Set(s, f, fib.(phase := Parked, regs := fib.regs + 1)).(io := d.r)
      else
        Set(StopTimer(s, f), f, fib.(phase := Outside(Some(if fib.connecting then Value else AddFailed)))).(io := d.r)
    case Resume(f) => var fib := Get(s, f); Set(s, f, fib.(phase := Resumed, resumes := fib.resumes + 1))
    case DropTimer(f) => Set(StopTimer(s, f), f, Get(s, f).(phase := TimerDropped))
    case Check(f) =>
      var fib := Get(s, f);
      Set(s, f, fib.(phase := if Flagged(s, f) then Outside(Some(TimedOut))
                              else if fib.connecting then Outside(Some(Value)) else Trying))
    case Outer(op, fails) => s.(io := IoSpec.Step(s.io, op, fails).r)
    case Expire(k) => SetTimer(s, k, Expired)
    case Lock(k) => SetTimer(s, k, if Alive(s, k) then Locked else Missed)
    case Test(k) =>
      if IdOf(s, k) in s.flags then SetTimer(s, k, Missed)
      else SetTimer(s, k, Cancelling).(flags := s.flags + {IdOf(s, k)})
    case Cancel(k, fails) =>
      var key := s.timers[k].key;
      SetTimer(s, k, if fails && key in s.io.reg then Failed else Spent).(io := IoSpec.Cancel(s.io, key, fails).r)
  }

  const START: State := State(IoSpec.Registry(32, map[], []), map[], [], {})

  ghost predicate Run(s: State, es: seq<Event>)
    decreases |es|
  {
    es == [] || (Possible(s, es[0]) && Run(Apply(s, es[0]), es[1..]))
  }

  ghost function Exec(s: State, es: seq<Event>): State
    requires Run(s, es)
    decreases |es|
  {
    if es == [] then s else Exec(Apply(s, es[0]), es[1..])
  }

  ghost predicate Reached(s: State, es: seq<Event>) { Run(START, es) && s == Exec(START, es) }

  // ---------------------------------------------------------------- invariants, fiber by fiber

  /** A fiber is queued once for each registration, except for the one it waits on; it is registered for
      nothing else, and only while parked. */
  ghost predicate WakesInv(s: State, f: FiberId) {
    var fib := Get(s, f);
    && Wakes(s, f) + B(Registered(s, f)) == fib.regs
    && fib.regs == fib.resumes + B(fib.phase.Parked?)
    && (forall k :: Holds(s.io.reg, k, f) ==> k == fib.key && fib.phase.Parked?)
  }

  /** A timer of the fiber's current or last call. */
  predicate Own(s: State, f: FiberId, k: nat) {
    k < |s.timers| && s.timers[k].owner == f && s.timers[k].call == Get(s, f).call
  }

  /** Its callback found the call alive and not timed out. */
  predicate Fired(s: State, k: nat)
    requires k < |s.timers|
  {
    s.timers[k].state.Cancelling? || s.timers[k].state.Spent? || s.timers[k].state.Failed?
  }

  predicate Pending(s: State, k: nat)
    requires k < |s.timers|
  {
    s.timers[k].state.Armed? || s.timers[k].state.Expired? || s.timers[k].state.Locked?
  }

  /** In a round, from arming the timer to dropping it. */
  predicate InRound(p: Phase) { p.Adding? || p.Parked? || p.Resumed? }

  predicate CurInv(s: State, f: FiberId) {
    var fib := Get(s, f);
    fib.cur.Some? ==> Own(s, f, fib.cur.value)
  }

  ghost predicate OwnInv(s: State, f: FiberId) {
    var fib := Get(s, f);
    && (forall k: nat :: k < |s.timers| && s.timers[k].owner == f ==> s.timers[k].call <= fib.call)
    && (forall k: nat :: Own(s, f, k) ==> s.timers[k].key == fib.key)
    && (forall c: nat :: CallId(f, c) in s.flags ==> c <= fib.call)
  }

  /** Only the timer of the round is armed, and only during the round. */
  ghost predicate ArmedInv(s: State, f: FiberId) {
    var fib := Get(s, f);
    forall k: nat :: k < |s.timers| && s.timers[k].owner == f && s.timers[k].state.Armed?
      ==> fib.cur == Some(k) && InRound(fib.phase)
  }

  /** The flag is set exactly if a timer of this call fired, and only one does. */
  ghost predicate FlagInv(s: State, f: FiberId) {
    && (Flagged(s, f) <==> exists k: nat :: Own(s, f, k) && Fired(s, k))
    && (forall j: nat, k: nat :: Own(s, f, j) && Own(s, f, k) && Fired(s, j) && Fired(s, k) ==> j == k)
  }

  /** The timer of this round is armed, or its callback is on its way to the test. */
  predicate TimeoutAhead(s: State, f: FiberId) {
    var cur := Get(s, f).cur;
    cur.Some? && cur.value < |s.timers| && Pending(s, cur.value)
  }

  /** About to wait, or waiting, with a timeout that has not come. */
  predicate Waiting(s: State, f: FiberId) {
    (Get(s, f).phase.Adding? || Get(s, f).phase.Parked?) && Get(s, f).timeout && !Flagged(s, f)
  }

  predicate AheadInv(s: State, f: FiberId) {
    && (Waiting(s, f) ==> TimeoutAhead(s, f))
    && (Get(s, f).phase == Outside(Some(TimedOut)) ==> Flagged(s, f))
  }

  ghost predicate TimersInv(s: State, f: FiberId) {
    CurInv(s, f) && OwnInv(s, f) && ArmedInv(s, f) && FlagInv(s, f) && AheadInv(s, f)
  }

  ghost predicate Inv(s: State) { forall f :: WakesInv(s, f) && TimersInv(s, f) }
}
