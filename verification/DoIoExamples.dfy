/** Runs in which the timeout of do_io goes wrong. */
module DoIoExamples {
  import opened Options
  import IoSpec
  import opened DoIo
  import opened DoIoTheorems

  const KEY: Key := IoSpec.Key(5, IoSpec.READ)

  /** Fiber 0 in its first call, which has a timeout. */
  function First(phase: Phase, cur: Option<nat>, regs: nat, resumes: nat): Fib {
    Fib(phase, 1, KEY, true, false, cur, regs, resumes)
  }

  function World(reg: map<Key, IoSpec.Waiter>, queue: seq<IoSpec.Waiter>, fib: Fib, timers: seq<TimerState>,
                 flagged: bool): State {
    State(IoSpec.Registry(32, reg, queue), map[0 := fib],
          seq(|timers|, i requires 0 <= i < |timers| => Timer(0, 1, KEY, timers[i])),
          if flagged then {CallId(0, 1)} else {})
  }

  const WAITER: IoSpec.Waiter := IoSpec.Fiber(0)

  /** A run from the start to a given state, and whether one worker could have made it. */
  ghost predicate LeadsTo(es: seq<Event>, s: State, serial: bool) {
    Reached(s, es) && (serial ==> SerialRun(START, es))
  }

  /** Runs grow at the end. */
  lemma {:induction false} Extend(s: State, es: seq<Event>, e: Event)
    requires Run(s, es) && Possible(Exec(s, es), e)
    ensures Run(s, es + [e]) && Exec(s, es + [e]) == Apply(Exec(s, es), e)
    ensures SerialRun(s, es) && Serial(Exec(s, es), e) ==> SerialRun(s, es + [e])
    decreases |es|
  {
    if es == [] {
      assert es + [e] == [e];
      assert [e][1..] == [];
    } else {
      assert (es + [e])[1..] == es[1..] + [e];
      Extend(Apply(s, es[0]), es[1..], e);
    }
  }

  lemma Next(es: seq<Event>, s: State, e: Event, s': State, serial: bool) returns (es': seq<Event>)
    requires LeadsTo(es, s, serial) && Possible(s, e) && Apply(s, e) == s' && (serial ==> Serial(s, e))
    ensures LeadsTo(es', s', serial)
  {
    Extend(START, es, e);
    es' := es + [e];
  }

  lemma ToBlocked() returns (es: seq<Event>)
    ensures LeadsTo(es, World(map[], [], First(Blocked, None, 0, 0), [], false), true)
  {
    es := Next([], START, Begin(0, KEY, true, false),
               World(map[], [], First(Trying, None, 0, 0), [], false), true);
    es := Next(es, World(map[], [], First(Trying, None, 0, 0), [], false), Io(0, true),
               World(map[], [], First(Blocked, None, 0, 0), [], false), true);
  }

  lemma ToAdding() returns (es: seq<Event>)
    ensures LeadsTo(es, World(map[], [], First(Adding, Some(0), 0, 0), [Armed], false), true)
  {
    es := ToBlocked();
    es := Next(es, World(map[], [], First(Blocked, None, 0, 0), [], false), Arm(0),
               World(map[], [], First(Adding, Some(0), 0, 0), [Armed], false), true);
  }

  lemma ToFired() returns (es: seq<Event>)
    ensures LeadsTo(es, World(map[], [], First(Adding, Some(0), 0, 0), [Cancelling], true), false)
  {
    es := ToAdding();
    es := Next(es, World(map[], [], First(Adding, Some(0), 0, 0), [Armed], false), Expire(0),
               World(map[], [], First(Adding, Some(0), 0, 0), [Expired], false), false);
    es := Next(es, World(map[], [], First(Adding, Some(0), 0, 0), [Expired], false), Lock(0),
               World(map[], [], First(Adding, Some(0), 0, 0), [Locked], false), false);
    es := Next(es, World(map[], [], First(Adding, Some(0), 0, 0), [Locked], false), Test(0),
               World(map[], [], First(Adding, Some(0), 0, 0), [Cancelling], true), false);
  }

  /** With a second worker the timeout can come and go before addEvent: the fiber parks, registered, and no
      timer threatens its registration any more. */
  lemma TimeoutLost() returns (es: seq<Event>, s: State)
    ensures Reached(s, es) && Get(s, 0).phase.Parked? && Get(s, 0).timeout && Registered(s, 0)
    ensures forall k: nat :: !Threatens(s, k, KEY)
  {
    es := ToFired();
    es := Next(es, World(map[], [], First(Adding, Some(0), 0, 0), [Cancelling], true), Cancel(0, false),
               World(map[], [], First(Adding, Some(0), 0, 0), [Spent], true), false);
    s := World(map[KEY := WAITER], [], First(Parked, Some(0), 1, 0), [Spent], true);
    es := Next(es, World(map[], [], First(Adding, Some(0), 0, 0), [Spent], true), Add(0, false), s, false);
  }

  lemma ToParked() returns (es: seq<Event>)
    ensures LeadsTo(es, World(map[KEY := WAITER], [], First(Parked, Some(0), 1, 0), [Expired], false), true)
  {
    es := ToAdding();
    es := Next(es, World(map[], [], First(Adding, Some(0), 0, 0), [Armed], false), Add(0, false),
               World(map[KEY := WAITER], [], First(Parked, Some(0), 1, 0), [Armed], false), true);
    es := Next(es, World(map[KEY := WAITER], [], First(Parked, Some(0), 1, 0), [Armed], false), Expire(0),
               World(map[KEY := WAITER], [], First(Parked, Some(0), 1, 0), [Expired], false), true);
  }

  /** With one worker it is lost when epoll_ctl fails under the cancelEvent. */
  lemma FailedCancelLoses() returns (es: seq<Event>, s: State)
    ensures Reached(s, es) && SerialRun(START, es)
    ensures Get(s, 0).phase.Parked? && Get(s, 0).timeout && Registered(s, 0) && !Ahead(s, 0)
  {
    es := ToParked();
    es := Next(es, World(map[KEY := WAITER], [], First(Parked, Some(0), 1, 0), [Expired], false), Lock(0),
               World(map[KEY := WAITER], [], First(Parked, Some(0), 1, 0), [Locked], false), true);
    es := Next(es, World(map[KEY := WAITER], [], First(Parked, Some(0), 1, 0), [Locked], false), Test(0),
               World(map[KEY := WAITER], [], First(Parked, Some(0), 1, 0), [Cancelling], true), true);
    s := World(map[KEY := WAITER], [], First(Parked, Some(0), 1, 0), [Failed], true);
    es := Next(es, World(map[KEY := WAITER], [], First(Parked, Some(0), 1, 0), [Cancelling], true), Cancel(0, true),
               s, true);
  }

  /** A readiness that turns out to be spurious. */
  const READABLE: IoSpec.Report := IoSpec.Report(true, false, false, false)

  lemma ToWoken() returns (es: seq<Event>)
    ensures LeadsTo(es, World(map[], [WAITER], First(Parked, Some(0), 1, 0), [Expired], false), false)
  {
    es := ToParked();
    es := Next(es, World(map[KEY := WAITER], [], First(Parked, Some(0), 1, 0), [Expired], false),
               Outer(IoSpec.OpDispatch(5, READABLE), false),
               World(map[], [WAITER], First(Parked, Some(0), 1, 0), [Expired], false), false);
  }

  lemma ToRetry() returns (es: seq<Event>)
    ensures LeadsTo(es, World(map[], [WAITER], First(Trying, Some(0), 1, 1), [Expired], false), false)
  {
    es := ToWoken();
    es := Next(es, World(map[], [WAITER], First(Parked, Some(0), 1, 0), [Expired], false), Resume(0),
               World(map[], [WAITER], First(Resumed, Some(0), 1, 1), [Expired], false), false);
    es := Next(es, World(map[], [WAITER], First(Resumed, Some(0), 1, 1), [Expired], false), DropTimer(0),
               World(map[], [WAITER], First(TimerDropped, Some(0), 1, 1), [Expired], false), false);
    es := Next(es, World(map[], [WAITER], First(TimerDropped, Some(0), 1, 1), [Expired], false), Check(0),
               World(map[], [WAITER], First(Trying, Some(0), 1, 1), [Expired], false), false);
  }

  /** A callback left over from the first round while the second one waits, its own timer still armed. */
  lemma EarlyTimeout() returns (es: seq<Event>, s: State)
    ensures Reached(s, es) && Waiting(s, 0) && LeftOver(s, 0, 0)
    ensures Get(s, 0).cur == Some(1) && |s.timers| == 2 && s.timers[1].state.Armed?
  {
    es := ToRetry();
    es := Next(es, World(map[], [WAITER], First(Trying, Some(0), 1, 1), [Expired], false), Io(0, true),
               World(map[], [WAITER], First(Blocked, Some(0), 1, 1), [Expired], false), false);
    s := World(map[], [WAITER], First(Adding, Some(1), 1, 1), [Expired, Armed], false);
    es := Next(es, World(map[], [WAITER], First(Blocked, Some(0), 1, 1), [Expired], false), Arm(0), s, false);
  }
}
