/** Every step of the parking protocol keeps its invariants. */
module DoIoInvariant {
  import opened Options
  import IoSpec
  import IoRuns
  import opened DoIo

  // ---------------------------------------------------------------- the registry

  /** The operation takes effect on the registration of this fd and event, if there is one. */
  predicate Acts(op: IoSpec.Op, fails: bool, k: Key) {
    !fails &&
    match op
    case OpCancel(k') => k' == k
    case OpCancelAll(fd) => fd == k.fd
    case OpDispatch(fd, rep) => fd == k.fd && IoRuns.Concerns(rep, k.ev)
    case _ => false
  }

  lemma KeyIs(k: Key)
    ensures k == if k.ev == IoSpec.READ then IoSpec.Key(k.fd, IoSpec.READ) else IoSpec.Key(k.fd, IoSpec.WRITE)
  {
  }

  /** What an outsider's operation does to a fiber's registration. */
  lemma OuterHolds(r: IoSpec.Registry, op: IoSpec.Op, fails: bool, k: Key, f: FiberId)
    requires Outsider(r.reg, op) && IoSpec.Step(r, op, fails).Done?
    ensures Holds(IoSpec.Step(r, op, fails).r.reg, k, f) <==> Holds(r.reg, k, f) && !Acts(op, fails, k)
  {
    KeyIs(k);
    match op
    case OpCancelAll(fd) => IoRuns.TriggerReadyKeys(r, fd, IoSpec.Events(r.reg, fd), k);
    case OpDispatch(fd, rep) => IoRuns.TriggerReadyKeys(r, fd, IoSpec.RealEvents(r.reg, fd, rep), k);
    case _ =>
  }

  /** What it queues it unregisters, waiter by waiter. */
  lemma OuterBalance(r: IoSpec.Registry, op: IoSpec.Op, fails: bool, f: FiberId)
    requires Outsider(r.reg, op) && IoSpec.Step(r, op, fails).Done?
    ensures var (r', x) := (IoSpec.Step(r, op, fails).r, IoSpec.Fiber(f));
            multiset(r'.queue)[x] + |IoRuns.HeldAt(r'.reg, x)| == multiset(r.queue)[x] + |IoRuns.HeldAt(r.reg, x)|
  {
    var x := IoSpec.Fiber(f);
    match op
    case OpAdd(k, w) => if k !in r.reg { IoRuns.HeldAdd(r.reg, k, w, x); }
    case OpDel(k) => if k in r.reg { IoRuns.HeldRemove(r.reg, k, x); }
    case OpCancel(k) => IoRuns.TriggerMoves(r, k, x);
    case OpCancelAll(fd) => IoRuns.ReadyMoves(r, fd, IoSpec.Events(r.reg, fd), x);
    case OpDispatch(fd, rep) => IoRuns.ReadyMoves(r, fd, IoSpec.RealEvents(r.reg, fd, rep), x);
  }

  /** Registered for one thing at most, the fiber holds that or nothing. */
  lemma HeldIs(reg: map<Key, IoSpec.Waiter>, key: Key, f: FiberId)
    requires forall k :: Holds(reg, k, f) ==> k == key
    ensures |IoRuns.HeldAt(reg, IoSpec.Fiber(f))| == if Holds(reg, key, f) then 1 else 0
  {
    assert forall k :: k in IoRuns.HeldAt(reg, IoSpec.Fiber(f)) <==> Holds(reg, k, f);
    assert IoRuns.HeldAt(reg, IoSpec.Fiber(f)) == if Holds(reg, key, f) then {key} else {};
  }

  /** The steps that call an operation of the IO manager other than addEvent for a fiber. */
  predicate Calls(s: State, e: Event, op: IoSpec.Op, fails: bool)
    requires Possible(s, e)
  {
    match e
    case Outer(o, b) => op == o && fails == b
    case Cancel(k, b) => op == IoSpec.OpCancel(s.timers[k].key) && fails == b
    case _ => false
  }

  lemma CallWakes(s: State, e: Event, op: IoSpec.Op, fails: bool, f: FiberId)
    requires Possible(s, e) && Calls(s, e, op, fails) && WakesInv(s, f)
    ensures WakesInv(Apply(s, e), f)
    ensures Wakes(Apply(s, e), f) == Wakes(s, f) + if Registered(s, f) && Acts(op, fails, Get(s, f).key) then 1 else 0
  {
    var (s', key) := (Apply(s, e), Get(s, f).key);
    assert s'.io == IoSpec.Step(s.io, op, fails).r && Get(s', f) == Get(s, f);
    forall k ensures Holds(s'.io.reg, k, f) <==> Holds(s.io.reg, k, f) && !Acts(op, fails, k) {
      OuterHolds(s.io, op, fails, k, f);
    }
    OuterBalance(s.io, op, fails, f);
    HeldIs(s.io.reg, key, f);
    HeldIs(s'.io.reg, key, f);
  }

  lemma AddWakes(s: State, e: Event, f: FiberId)
    requires Possible(s, e) && e.Add? && WakesInv(s, f) && WakesInv(s, e.f)
    ensures WakesInv(Apply(s, e), f) && Wakes(Apply(s, e), f) == Wakes(s, f)
  {
    var s' := Apply(s, e);
    assert s'.io.queue == s.io.queue;
    assert forall k :: Holds(s'.io.reg, k, f) ==> Holds(s.io.reg, k, f) || (f == e.f && k == Get(s, f).key);
  }

  lemma FiberWakes(s: State, e: Event, f: FiberId)
    requires Possible(s, e) && !e.Add? && !e.Outer? && !e.Cancel? && WakesInv(s, f)
    ensures WakesInv(Apply(s, e), f) && Wakes(Apply(s, e), f) == Wakes(s, f)
  {
    assert Apply(s, e).io == s.io;
  }

  lemma StepWakes(s: State, e: Event, f: FiberId)
    requires (forall g :: WakesInv(s, g)) && Possible(s, e)
    ensures WakesInv(Apply(s, e), f)
  {
    match e
    case Outer(op, fails) => CallWakes(s, e, op, fails, f);
    case Cancel(k, fails) => CallWakes(s, e, IoSpec.OpCancel(s.timers[k].key), fails, f);
    case Add(_, _) => assert WakesInv(s, e.f); AddWakes(s, e, f);
    case _ => FiberWakes(s, e, f);
  }

  // ---------------------------------------------------------------- the timers

  lemma BeginTimers(s: State, e: Event, f: FiberId)
    requires TimersInv(s, f) && Possible(s, e) && e.Begin?
    ensures TimersInv(Apply(s, e), f)
  {
    var s' := Apply(s, e);
    if f == e.f {
      forall k: nat ensures !Own(s', f, k) {}
    } else {
      SameTimers(s, s', f);
    }
  }

  /** What a fiber's timer invariants depend on. */
  lemma SameTimers(s: State, s': State, f: FiberId)
    requires TimersInv(s, f) && s'.timers == s.timers && Get(s', f) == Get(s, f) && s'.flags == s.flags
    ensures TimersInv(s', f)
  {
    assert forall k: nat :: Own(s', f, k) <==> Own(s, f, k);
  }

  lemma PhaseTimers(s: State, e: Event, f: FiberId)
    requires TimersInv(s, f) && Possible(s, e) && (e.Io? || e.Resume? || e.Check?)
    ensures TimersInv(Apply(s, e), f)
  {
    var s' := Apply(s, e);
    if f == e.f {
      assert forall k: nat :: Own(s', f, k) <==> Own(s, f, k);
    } else {
      SameTimers(s, s', f);
    }
  }

  lemma ArmTimers(s: State, e: Event, f: FiberId)
    requires TimersInv(s, f) && Possible(s, e) && e.Arm?
    ensures TimersInv(Apply(s, e), f)
  {
    var s' := Apply(s, e);
    forall k: nat ensures Own(s', f, k) <==> Own(s, f, k) || (f == e.f && Get(s, f).timeout && k == |s.timers|) {}
    forall k: nat | k < |s.timers| ensures Fired(s', k) <==> Fired(s, k) {}
  }

  /** Changing the state of one timer leaves the others, and whose they all are. */
  lemma SetOwn(s: State, k: nat, st: TimerState, f: FiberId)
    requires k < |s.timers|
    ensures forall j: nat :: Own(SetTimer(s, k, st), f, j) <==> Own(s, f, j)
    ensures forall j: nat :: j < |s.timers| && j != k ==> SetTimer(s, k, st).timers[j] == s.timers[j]
  {
  }

  /** A timer that is not fired goes to another state that is neither armed nor fired. */
  lemma RetireTimer(s: State, k: nat, st: TimerState, f: FiberId)
    requires CurInv(s, f) && OwnInv(s, f) && ArmedInv(s, f) && FlagInv(s, f)
    requires k < |s.timers| && !Fired(s, k) && (st.Expired? || st.Locked? || st.Dropped? || st.Missed?)
    ensures var s' := SetTimer(s, k, st); CurInv(s', f) && OwnInv(s', f) && ArmedInv(s', f) && FlagInv(s', f)
  {
    var s' := SetTimer(s, k, st);
    SetOwn(s, k, st, f);
    assert forall j: nat :: j < |s.timers| ==> (Fired(s', j) <==> Fired(s, j));
  }

  /** Out of the round, with no timer armed. */
  lemma LeaveRound(t: State, s': State, f: FiberId, p: Phase)
    requires CurInv(t, f) && OwnInv(t, f) && FlagInv(t, f)
    requires s'.timers == t.timers && s'.flags == t.flags && Get(s', f) == Get(t, f).(phase := p)
    requires p.TimerDropped? || (p.Outside? && p.last != Some(TimedOut))
    requires forall k: nat :: k < |t.timers| && t.timers[k].owner == f ==> !t.timers[k].state.Armed?
    ensures TimersInv(s', f)
  {
    assert forall k: nat :: Own(s', f, k) <==> Own(t, f, k);
    assert forall k: nat :: k < |t.timers| ==> (Fired(s', k) <==> Fired(t, k));
  }

  /** The end of a round: its timer is dropped and the phase changes. */
  lemma StopTimers(s: State, e: Event, f: FiberId)
    requires TimersInv(s, f) && Possible(s, e) && (e.DropTimer? || (e.Add? && Get(Apply(s, e), e.f).phase.Outside?))
    requires TimersInv(s, e.f)
    ensures TimersInv(Apply(s, e), f)
  {
    var (s', g) := (Apply(s, e), e.f);
    var t := StopTimer(s, g);
    StopTimerKeeps(s, g, f);
    assert s'.timers == t.timers && t.fibers == s.fibers;
    if f == g {
      StopTimerDisarms(s, g);
      LeaveRound(t, s', f, Get(s', f).phase);
    } else {
      SameTimers(t, s', f);
    }
  }

  lemma StopTimerKeeps(s: State, g: FiberId, f: FiberId)
    requires TimersInv(s, f) && TimersInv(s, g)
    ensures var t := StopTimer(s, g);
            && CurInv(t, f) && OwnInv(t, f) && ArmedInv(t, f) && FlagInv(t, f) && (f != g ==> TimersInv(t, f))
  {
    var cur := Get(s, g).cur;
    if cur.Some? && s.timers[cur.value].state.Armed? {
      RetireTimer(s, cur.value, Dropped, f);
      assert Own(s, g, cur.value);
    }
  }

  lemma StopTimerDisarms(s: State, f: FiberId)
    requires TimersInv(s, f)
    ensures var t := StopTimer(s, f);
            forall k: nat :: k < |t.timers| && t.timers[k].owner == f ==> !t.timers[k].state.Armed?
  {
  }

  lemma ParkTimers(s: State, e: Event, f: FiberId)
    requires TimersInv(s, f) && Possible(s, e) && e.Add? && Get(Apply(s, e), e.f).phase.Parked?
    ensures TimersInv(Apply(s, e), f)
  {
    var s' := Apply(s, e);
    assert s'.timers == s.timers;
    if f == e.f {
      assert forall k: nat :: Own(s', f, k) <==> Own(s, f, k);
    } else {
      SameTimers(s, s', f);
    }
  }

  lemma ExpireTimers(s: State, k: nat, f: FiberId)
    requires TimersInv(s, f) && Possible(s, Expire(k))
    ensures TimersInv(Apply(s, Expire(k)), f)
  {
    RetireTimer(s, k, Expired, f);
  }

  lemma LockTimers(s: State, k: nat, f: FiberId)
    requires TimersInv(s, f) && Possible(s, Lock(k))
    ensures TimersInv(Apply(s, Lock(k)), f)
  {
    RetireTimer(s, k, if Alive(s, k) then Locked else Missed, f);
  }

  lemma MissTimers(s: State, k: nat, f: FiberId)
    requires TimersInv(s, f) && Possible(s, Test(k))
    requires IdOf(s, k) in s.flags
    ensures TimersInv(Apply(s, Test(k)), f)
  {
    RetireTimer(s, k, Missed, f);
  }

  /** The callback goes through its test: the flag is set, and this is the one timer of the call that fired. */
  lemma FireTimers(s: State, k: nat, f: FiberId)
    requires TimersInv(s, f) && Possible(s, Test(k)) && IdOf(s, k) !in s.flags
    requires s.timers[k].call <= Get(s, s.timers[k].owner).call
    ensures TimersInv(Apply(s, Test(k)), f)
  {
    var s' := Apply(s, Test(k));
    SetOwn(s, k, Cancelling, f);
    assert forall j: nat :: Own(s', f, j) <==> Own(s, f, j);
    assert forall j: nat :: j < |s.timers| ==> (Fired(s', j) <==> Fired(s, j) || j == k);
    if Own(s, f, k) { assert Own(s', f, k); }
  }

  lemma CancelTimers(s: State, e: Event, k: nat, f: FiberId)
    requires TimersInv(s, f) && Possible(s, e) && e.Cancel? && e.k == k
    ensures TimersInv(Apply(s, e), f)
  {
    var s' := Apply(s, e);
    assert Get(s', f) == Get(s, f);
    assert forall j: nat :: Own(s', f, j) <==> Own(s, f, j);
    assert forall j: nat :: j < |s.timers| ==> (Fired(s', j) <==> Fired(s, j));
  }

  lemma StepTimers(s: State, e: Event, f: FiberId)
    requires (forall g :: TimersInv(s, g)) && Possible(s, e)
    ensures TimersInv(Apply(s, e), f)
  {
    match e
    case Begin(_, _, _, _) => BeginTimers(s, e, f);
    case Io(_, _) => PhaseTimers(s, e, f);
    case Resume(_) => PhaseTimers(s, e, f);
    case Check(_) => PhaseTimers(s, e, f);
    case Arm(_) => ArmTimers(s, e, f);
    case DropTimer(_) => assert TimersInv(s, e.f); StopTimers(s, e, f);
    case Add(_, _) =>
      assert TimersInv(s, e.f);
      if Get(Apply(s, e), e.f).phase.Parked? { ParkTimers(s, e, f); } else { StopTimers(s, e, f); }
    case Outer(_, _) => SameTimers(s, Apply(s, e), f);
    case Expire(k) => ExpireTimers(s, k, f);
    case Lock(k) => LockTimers(s, k, f);
    case Test(k) =>
      if IdOf(s, k) in s.flags {
        MissTimers(s, k, f);
      } else {
        assert TimersInv(s, s.timers[k].owner);
        FireTimers(s, k, f);
      }
    case Cancel(k, _) => CancelTimers(s, e, k, f);
  }

  // ---------------------------------------------------------------- runs

  lemma StepInv(s: State, e: Event)
    requires Inv(s) && Possible(s, e)
    ensures Inv(Apply(s, e))
  {
    forall f ensures WakesInv(Apply(s, e), f) && TimersInv(Apply(s, e), f) {
      StepWakes(s, e, f);
      StepTimers(s, e, f);
    }
  }

  lemma {:induction false} RunInv(s: State, es: seq<Event>)
    requires Inv(s) && Run(s, es)
    ensures Inv(Exec(s, es))
    decreases |es|
  {
    if es != [] {
      StepInv(s, es[0]);
      RunInv(Apply(s, es[0]), es[1..]);
    }
  }

  lemma ReachedInv(s: State, es: seq<Event>)
    requires Reached(s, es)
    ensures Inv(s)
  {
    RunInv(START, es);
  }
}
