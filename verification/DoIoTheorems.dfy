/** What the parking protocol guarantees in every interleaving, and exactly when its timeout works. */
module DoIoTheorems {
  import opened Counting
  import opened Options
  import IoSpec
  import IoRuns
  import opened DoIo
  import opened DoIoInvariant

  // ---------------------------------------------------------------- wake-ups

  /** Single wake: in every interleaving of any fibers, each registration of a fiber has queued it exactly once,
      except the one it still waits on. A parked fiber is either registered or queued, once; any other is
      neither, and is registered for nothing. */
  lemma SingleWake(s: State, es: seq<Event>, f: FiberId)
    requires Reached(s, es)
    ensures var fib := Get(s, f);
            && Wakes(s, f) + B(Registered(s, f)) == fib.regs
            && (fib.phase.Parked? ==> Wakes(s, f) == fib.resumes + B(!Registered(s, f)))
            && (!fib.phase.Parked? ==> Wakes(s, f) == fib.resumes && forall k :: !Holds(s.io.reg, k, f))
  {
    ReachedInv(s, es);
    assert WakesInv(s, f);
  }

  /** The event takes effect on the registration of this fd and event, if there is one. */
  predicate Hits(s: State, e: Event, k: Key)
    requires Possible(s, e)
  {
    match e
    case Outer(op, fails) => Acts(op, fails, k)
    case Cancel(j, fails) => !fails && s.timers[j].key == k
    case _ => false
  }

  /** The first of readiness, close, a timeout and anyone's cancelEvent to act on a registration queues its
      fiber, once; nothing else ever queues one. */
  lemma OnlyTheFirstWakes(s: State, es: seq<Event>, e: Event, f: FiberId)
    requires Reached(s, es) && Possible(s, e)
    ensures Wakes(Apply(s, e), f) == Wakes(s, f) + B(Registered(s, f) && Hits(s, e, Get(s, f).key))
  {
    ReachedInv(s, es);
    assert WakesInv(s, f);
    match e
    case Outer(op, fails) => CallWakes(s, e, op, fails, f);
    case Cancel(k, fails) => CallWakes(s, e, IoSpec.OpCancel(s.timers[k].key), fails, f);
    case Add(_, _) => assert WakesInv(s, e.f); AddWakes(s, e, f);
    case _ => FiberWakes(s, e, f);
  }

  // ---------------------------------------------------------------- who times out

  /** A hooked call reports ETIMEDOUT only if a timer of this very call fired; and only one does. */
  lemma TimedOutTruthfully(s: State, es: seq<Event>, f: FiberId) returns (k: nat)
    requires Reached(s, es) && Get(s, f).phase == Outside(Some(TimedOut))
    ensures Own(s, f, k) && Fired(s, k) && forall j: nat :: Own(s, f, j) && Fired(s, j) ==> j == k
  {
    ReachedInv(s, es);
    assert TimersInv(s, f);
    k :| Own(s, f, k) && Fired(s, k);
  }

  /** The flag of a call is set by nothing but the callback of a timer of that call: no callback of another
      fiber or of another call can make it return ETIMEDOUT. */
  lemma FlagOnlyByOwn(s: State, es: seq<Event>, e: Event, f: FiberId)
    requires Reached(s, es) && Possible(s, e) && !Flagged(s, f)
    ensures Flagged(Apply(s, e), f) <==> e.Test? && Own(s, f, e.k)
  {
    ReachedInv(s, es);
    assert TimersInv(s, f);
  }

  /** The call of a timer is over, and its callback does not hold the timer_info and is not cancelling. */
  predicate Late(s: State, k: nat) {
    k < |s.timers| && !Alive(s, k) && !s.timers[k].state.Locked? && !s.timers[k].state.Cancelling?
  }

  lemma LateStep(s: State, e: Event, k: nat)
    requires Inv(s) && Possible(s, e) && Late(s, k)
    ensures Late(Apply(s, e), k)
  {
    assert TimersInv(s, s.timers[k].owner);
  }

  /** A late callback changes nothing, then or ever after: once do_io has returned, no timer of that or an
      earlier call sets a flag, queues anyone or touches a registration. */
  lemma {:induction false} LateForEver(s: State, es: seq<Event>, k: nat)
    requires Inv(s) && Run(s, es) && Late(s, k)
    ensures var r := Exec(s, es);
            && Late(r, k)
            && forall e :: Possible(r, e) && ByTimer(e) && e.k == k
                 ==> Apply(r, e).fibers == r.fibers && Apply(r, e).io == r.io && Apply(r, e).flags == r.flags
    decreases |es|
  {
    if es != [] {
      StepInv(s, es[0]);
      LateStep(s, es[0], k);
      LateForEver(Apply(s, es[0]), es[1..], k);
    }
  }

  // ---------------------------------------------------------------- when the timeout works

  /** What the timer of a waiting fiber does once it fires: expiry, lock, test, cancelEvent. */
  function AfterTimeout(s: State, f: FiberId): State
    requires TimeoutAhead(s, f) && Own(s, f, Get(s, f).cur.value) && !Get(s, f).phase.Outside? && !Flagged(s, f)
  {
    var k := Get(s, f).cur.value;
    var s1 := if s.timers[k].state.Armed? then Apply(s, Expire(k)) else s;
    var s2 := if s1.timers[k].state.Expired? then Apply(s1, Lock(k)) else s1;
    Apply(Apply(s2, Test(k)), Cancel(k, false))
  }

  /** While the flag is clear, the timeout of a parked fiber is ahead, and when it fires it wakes the fiber. */
  lemma TimeoutWakes(s: State, es: seq<Event>, f: FiberId)
    requires Reached(s, es) && Registered(s, f) && Waiting(s, f)
    ensures TimeoutAhead(s, f) && Own(s, f, Get(s, f).cur.value)
    ensures var s' := AfterTimeout(s, f); Wakes(s', f) == Wakes(s, f) + 1 && Flagged(s', f)
  {
    ReachedInv(s, es);
    assert WakesInv(s, f) && TimersInv(s, f);
    var k := Get(s, f).cur.value;
    var s1 := if s.timers[k].state.Armed? then Apply(s, Expire(k)) else s;
    var s2 := if s1.timers[k].state.Expired? then Apply(s1, Lock(k)) else s1;
    var s3 := Apply(s2, Test(k));
    assert s3.io == s.io && s3.timers[k].key == Get(s, f).key;
    IoTrigger(s3.io, Get(s, f).key, f);
  }

  lemma IoTrigger(r: IoSpec.Registry, k: Key, f: FiberId)
    requires Holds(r.reg, k, f)
    ensures var r' := IoSpec.Cancel(r, k, false).r;
            multiset(r'.queue)[IoSpec.Fiber(f)] == multiset(r.queue)[IoSpec.Fiber(f)] + 1
  {
  }

  /** A timer that can still cancel what is registered for this fd and event. */
  predicate Threatens(s: State, k: nat, key: Key) {
    && k < |s.timers| && s.timers[k].key == key
    && (|| s.timers[k].state.Cancelling?
        || (s.timers[k].state.Locked? && IdOf(s, k) !in s.flags)
        || (Pending(s, k) && Alive(s, k) && IdOf(s, k) !in s.flags))
  }

  predicate ByTimer(e: Event) { e.Expire? || e.Lock? || e.Test? || e.Cancel? }

  ghost predicate TimersOnly(es: seq<Event>) { forall i :: 0 <= i < |es| ==> ByTimer(es[i]) }

  /** No timer event makes a threat where there was none, or wakes anyone there. */
  lemma NoThreatStep(s: State, e: Event, key: Key, f: FiberId)
    requires Possible(s, e) && ByTimer(e) && Holds(s.io.reg, key, f) && forall k: nat :: !Threatens(s, k, key)
    ensures Holds(Apply(s, e).io.reg, key, f) && forall k: nat :: !Threatens(Apply(s, e), k, key)
  {
    var s' := Apply(s, e);
    assert !Threatens(s, e.k, key);
    forall k: nat ensures !Threatens(s', k, key) { assert !Threatens(s, k, key); }
  }

  lemma {:induction false} NoThreatRun(s: State, es: seq<Event>, key: Key, f: FiberId)
    requires Run(s, es) && TimersOnly(es) && Holds(s.io.reg, key, f) && forall k: nat :: !Threatens(s, k, key)
    ensures Holds(Exec(s, es).io.reg, key, f)
    decreases |es|
  {
    if es != [] {
      NoThreatStep(s, es[0], key, f);
      NoThreatRun(Apply(s, es[0]), es[1..], key, f);
    }
  }

  /** A threat carried out: the events that lead from it to its cancelEvent. */
  function Strike(s: State, k: nat): seq<Event>
    requires k < |s.timers|
  {
    if s.timers[k].state.Armed? then [Expire(k), Lock(k), Test(k), Cancel(k, false)]
    else if s.timers[k].state.Expired? then [Lock(k), Test(k), Cancel(k, false)]
    else if s.timers[k].state.Locked? then [Test(k), Cancel(k, false)]
    else [Cancel(k, false)]
  }

  lemma StrikeCancels(s: State, k: nat, key: Key, f: FiberId)
    requires Threatens(s, k, key) && s.timers[k].state.Cancelling?
    ensures Run(s, [Cancel(k, false)]) && !Holds(Exec(s, [Cancel(k, false)]).io.reg, key, f)
  {
    var es := [Cancel(k, false)];
    assert es[1..] == [];
  }

  lemma StrikeTests(s: State, k: nat, key: Key, f: FiberId)
    requires Threatens(s, k, key) && s.timers[k].state.Locked?
    ensures var es := [Test(k), Cancel(k, false)]; Run(s, es) && !Holds(Exec(s, es).io.reg, key, f)
  {
    var es := [Test(k), Cancel(k, false)];
    assert es[1..] == [Cancel(k, false)];
    StrikeCancels(Apply(s, Test(k)), k, key, f);
  }

  lemma StrikeLocks(s: State, k: nat, key: Key, f: FiberId)
    requires Threatens(s, k, key) && s.timers[k].state.Expired?
    ensures var es := [Lock(k), Test(k), Cancel(k, false)]; Run(s, es) && !Holds(Exec(s, es).io.reg, key, f)
  {
    var es := [Lock(k), Test(k), Cancel(k, false)];
    assert es[1..] == [Test(k), Cancel(k, false)];
    StrikeTests(Apply(s, Lock(k)), k, key, f);
  }

  lemma StrikeWorks(s: State, k: nat, key: Key, f: FiberId)
    requires Threatens(s, k, key)
    ensures Run(s, Strike(s, k)) && TimersOnly(Strike(s, k)) && !Holds(Exec(s, Strike(s, k)).io.reg, key, f)
  {
    if s.timers[k].state.Armed? {
      assert Strike(s, k)[1..] == [Lock(k), Test(k), Cancel(k, false)];
      StrikeLocks(Apply(s, Expire(k)), k, key, f);
    } else if s.timers[k].state.Expired? {
      StrikeLocks(s, k, key, f);
    } else if s.timers[k].state.Locked? {
      StrikeTests(s, k, key, f);
    } else {
      StrikeCancels(s, k, key, f);
    }
  }

  /** Timers alone can still end a registration exactly if some timer for its fd and event threatens it: armed
      or expired in a call that lasts and has not timed out, past the lock in one that has not, or about to cancel. */
  lemma TimeoutSpentExactly(s: State, key: Key, f: FiberId)
    requires Holds(s.io.reg, key, f)
    ensures (exists es :: Run(s, es) && TimersOnly(es) && !Holds(Exec(s, es).io.reg, key, f))
            <==> exists k: nat :: Threatens(s, k, key)
  {
    if k: nat :| Threatens(s, k, key) {
      StrikeWorks(s, k, key, f);
    } else {
      forall es | Run(s, es) && TimersOnly(es) ensures Holds(Exec(s, es).io.reg, key, f) { NoThreatRun(s, es, key, f); }
    }
  }

  // ---------------------------------------------------------------- when it strikes early

  /** A callback left over from an earlier round of the call. */
  predicate LeftOver(s: State, f: FiberId, k: nat) {
    Own(s, f, k) && Get(s, f).cur != Some(k) && (s.timers[k].state.Expired? || s.timers[k].state.Locked?)
  }

  /** The fiber stays in one round, from arming its timer to dropping it. */
  ghost predicate SameRound(s: State, es: seq<Event>, f: FiberId)
    requires Run(s, es)
    decreases |es|
  {
    && InRound(Get(s, f).phase)
    && (es != [] ==> SameRound(Apply(s, es[0]), es[1..], f))
  }

  /** The round's own timer has fired. */
  predicate OwnFired(s: State, f: FiberId) {
    var cur := Get(s, f).cur; cur.Some? && cur.value < |s.timers| && Fired(s, cur.value)
  }

  lemma RoundStep(s: State, e: Event, f: FiberId)
    requires Inv(s) && Possible(s, e) && InRound(Get(s, f).phase) && InRound(Get(Apply(s, e), f).phase)
    requires (forall k: nat :: !LeftOver(s, f, k)) && (Flagged(s, f) ==> OwnFired(s, f))
    ensures var s' := Apply(s, e);
            (forall k: nat :: !LeftOver(s', f, k)) && (Flagged(s', f) ==> OwnFired(s', f))
  {
    var s' := Apply(s, e);
    assert TimersInv(s, f);
    assert Get(s', f).cur == Get(s, f).cur && Get(s', f).call == Get(s, f).call;
    forall k: nat ensures !LeftOver(s', f, k) { assert !LeftOver(s, f, k); }
    if e.Test? { assert !LeftOver(s, f, e.k); }
  }

  lemma {:induction false} RoundRun(s: State, es: seq<Event>, f: FiberId)
    requires Inv(s) && Run(s, es) && SameRound(s, es, f)
    requires (forall k: nat :: !LeftOver(s, f, k)) && (Flagged(s, f) ==> OwnFired(s, f))
    ensures Flagged(Exec(s, es), f) ==> OwnFired(Exec(s, es), f)
    decreases |es|
  {
    if es != [] {
      RoundStep(s, es[0], f);
      StepInv(s, es[0]);
      RoundRun(Apply(s, es[0]), es[1..], f);
    }
  }

  /** A round that has not timed out can time out without its own timer exactly if a callback of an earlier
      round of the call is left over. */
  lemma EarlyTimeoutExactly(s: State, f: FiberId)
    requires Inv(s) && InRound(Get(s, f).phase) && !Flagged(s, f)
    ensures (exists es :: Run(s, es) && SameRound(s, es, f) && Flagged(Exec(s, es), f) && !OwnFired(Exec(s, es), f))
            <==> exists k: nat :: LeftOver(s, f, k)
  {
    if k: nat :| LeftOver(s, f, k) {
      var es := LeftOverStrikes(s, f, k);
    } else {
      forall es | Run(s, es) && SameRound(s, es, f)
        ensures Flagged(Exec(s, es), f) ==> OwnFired(Exec(s, es), f)
      {
        RoundRun(s, es, f);
      }
    }
  }

  lemma LockedStrikes(s: State, f: FiberId, k: nat)
    requires Inv(s) && InRound(Get(s, f).phase) && !Flagged(s, f) && LeftOver(s, f, k) && s.timers[k].state.Locked?
    ensures var es := [Test(k)];
            Run(s, es) && SameRound(s, es, f) && Flagged(Exec(s, es), f) && !OwnFired(Exec(s, es), f)
  {
    var es := [Test(k)];
    var s' := Apply(s, Test(k));
    assert es[1..] == [];
    assert TimersInv(s, f);
    assert Exec(s, es) == Exec(s', es[1..]) == s';
    assert !OwnFired(s, f);
  }

  lemma LeftOverStrikes(s: State, f: FiberId, k: nat) returns (es: seq<Event>)
    requires Inv(s) && InRound(Get(s, f).phase) && !Flagged(s, f) && LeftOver(s, f, k)
    ensures Run(s, es) && SameRound(s, es, f) && Flagged(Exec(s, es), f) && !OwnFired(Exec(s, es), f)
  {
    if s.timers[k].state.Locked? {
      es := [Test(k)];
      LockedStrikes(s, f, k);
    } else {
      es := [Lock(k), Test(k)];
      var s' := Apply(s, Lock(k));
      assert es[1..] == [Test(k)];
      StepInv(s, Lock(k));
      LockedStrikes(s', f, k);
    }
  }

  // ---------------------------------------------------------------- one worker

  /** The fiber is executing do_io. */
  predicate Inside(s: State, f: FiberId) { !Get(s, f).phase.Outside? && !Get(s, f).phase.Parked? }

  predicate ByFiber(e: Event, f: FiberId) {
    (e.Io? || e.Arm? || e.Add? || e.DropTimer? || e.Check?) && e.f == f
  }

  /** A callback is under way. */
  predicate Cancels(s: State, k: nat) {
    k < |s.timers| && (s.timers[k].state.Locked? || s.timers[k].state.Cancelling?)
  }

  /** With one worker nothing gets between the steps of the running fiber, or between the steps of a
      callback; epoll_ctl may fail all the same. */
  ghost predicate Serial(s: State, e: Event) {
    && (forall f :: Inside(s, f) ==> ByFiber(e, f))
    && (forall k: nat :: Cancels(s, k) ==> (e.Test? || e.Cancel?) && e.k == k)
  }

  ghost predicate SerialRun(s: State, es: seq<Event>)
    requires Run(s, es)
    decreases |es|
  {
    es == [] || (Serial(s, es[0]) && SerialRun(Apply(s, es[0]), es[1..]))
  }

  /** The fiber's own timer that fired is about to cancel, or failed to. */
  ghost predicate Struck(s: State, f: FiberId) {
    exists k: nat :: Own(s, f, k) && (s.timers[k].state.Cancelling? || s.timers[k].state.Failed?)
  }

  ghost predicate SerialInv(s: State, f: FiberId) {
    var fib := Get(s, f);
    && (fib.phase.Trying? || fib.phase.Blocked? || fib.phase.Adding? ==> !Flagged(s, f))
    && (fib.phase.Parked? && Registered(s, f) && Flagged(s, f) ==> Struck(s, f))
    && (forall k: nat :: Cancels(s, k) ==> !Inside(s, f))
    && (forall k: nat :: Cancels(s, k) && s.timers[k].owner == f ==> Own(s, f, k) && fib.phase.Parked?)
  }

  /** Steps of the fibers themselves. */
  lemma SerialFiber(s: State, e: Event, f: FiberId)
    requires TimersInv(s, f) && WakesInv(s, f) && SerialInv(s, f) && Possible(s, e) && Serial(s, e)
    requires !ByTimer(e) && !e.Outer?
    ensures SerialInv(Apply(s, e), f)
  {
    var s' := Apply(s, e);
    forall k: nat ensures !Cancels(s', k) { assert !Cancels(s, k); }
    if f != e.f { SerialOther(s, e, f); }
  }

  lemma SerialOther(s: State, e: Event, f: FiberId)
    requires Possible(s, e) && !ByTimer(e) && !e.Outer? && f != e.f && SerialInv(s, f)
    requires forall k: nat :: !Cancels(s, k)
    ensures Get(Apply(s, e), f) == Get(s, f)
    ensures Registered(Apply(s, e), f) ==> Registered(s, f)
    ensures Struck(s, f) ==> Struck(Apply(s, e), f)
  {
    if k: nat :| Own(s, f, k) && (s.timers[k].state.Cancelling? || s.timers[k].state.Failed?) {
      assert !Cancels(s, k);
      assert Own(Apply(s, e), f, k) && Apply(s, e).timers[k].state.Failed?;
    }
  }

  lemma SerialOuter(s: State, e: Event, f: FiberId)
    requires SerialInv(s, f) && Possible(s, e) && Serial(s, e) && e.Outer?
    ensures SerialInv(Apply(s, e), f)
  {
    var s' := Apply(s, e);
    OuterHolds(s.io, e.op, e.fails, Get(s, f).key, f);
    assert forall k: nat :: Own(s', f, k) <==> Own(s, f, k);
  }

  /** A timer goes on without firing. */
  lemma SerialRetire(s: State, k: nat, st: TimerState, f: FiberId)
    requires SerialInv(s, f) && k < |s.timers| && !Fired(s, k) && (st.Expired? || st.Locked? || st.Missed?)
    requires forall j: nat :: Cancels(s, j) ==> j == k
    requires st.Locked? ==> !Inside(s, f) && (s.timers[k].owner == f ==> Own(s, f, k) && Get(s, f).phase.Parked?)
    ensures SerialInv(SetTimer(s, k, st), f)
  {
    var s' := SetTimer(s, k, st);
    forall j: nat ensures Cancels(s', j) ==> j == k && st.Locked? { assert Cancels(s, j) ==> j == k; }
    if Struck(s, f) {
      var j: nat :| Own(s, f, j) && (s.timers[j].state.Cancelling? || s.timers[j].state.Failed?);
      assert Own(s', f, j) && s'.timers[j].state == s.timers[j].state;
    }
  }

  /** A callback that goes through its test. */
  lemma SerialFire(s: State, k: nat, f: FiberId)
    requires TimersInv(s, f) && SerialInv(s, f) && Possible(s, Test(k)) && IdOf(s, k) !in s.flags
    requires forall j: nat :: Cancels(s, j) ==> j == k
    ensures SerialInv(Apply(s, Test(k)), f)
  {
    var s' := Apply(s, Test(k));
    assert Cancels(s, k);
    assert forall j: nat :: Own(s', f, j) <==> Own(s, f, j);
    forall j: nat ensures Cancels(s', j) <==> j == k { assert Cancels(s, j) ==> j == k; }
    if f == s.timers[k].owner {
      assert Own(s', f, k) && s'.timers[k].state.Cancelling?;
    } else if Struck(s, f) {
      var j: nat :| Own(s, f, j) && (s.timers[j].state.Cancelling? || s.timers[j].state.Failed?);
      assert Own(s', f, j) && s'.timers[j].state == s.timers[j].state;
    }
  }

  lemma SerialTimer(s: State, e: Event, k: nat, f: FiberId)
    requires TimersInv(s, f) && SerialInv(s, f) && Possible(s, e) && Serial(s, e)
    requires (e.Expire? || e.Lock? || e.Test?) && e.k == k
    ensures SerialInv(Apply(s, e), f)
  {
    forall g ensures !Inside(s, g) { assert !ByFiber(e, g); }
    forall j: nat ensures Cancels(s, j) ==> j == k {}
    if e.Expire? {
      SerialRetire(s, k, Expired, f);
    } else if e.Lock? {
      SerialRetire(s, k, if Alive(s, k) then Locked else Missed, f);
    } else if IdOf(s, k) in s.flags {
      SerialRetire(s, k, Missed, f);
    } else {
      SerialFire(s, k, f);
    }
  }

  lemma SerialCancel(s: State, e: Event, k: nat, f: FiberId)
    requires TimersInv(s, f) && SerialInv(s, f) && Possible(s, e) && Serial(s, e) && e.Cancel? && e.k == k
    ensures SerialInv(Apply(s, e), f)
  {
    var s' := Apply(s, e);
    assert Get(s', f) == Get(s, f);
    assert forall j: nat :: Own(s', f, j) <==> Own(s, f, j);
    forall j: nat ensures !Cancels(s', j) { assert Cancels(s, j) ==> j == k; }
    if Registered(s', f) && Struck(s, f) { StillStruck(s, e, k, f); }
  }

  lemma StillStruck(s: State, e: Event, k: nat, f: FiberId)
    requires TimersInv(s, f) && Possible(s, e) && Serial(s, e) && e.Cancel? && e.k == k && Struck(s, f)
    requires Registered(Apply(s, e), f)
    ensures Struck(Apply(s, e), f)
  {
    var s' := Apply(s, e);
    var j: nat :| Own(s, f, j) && (s.timers[j].state.Cancelling? || s.timers[j].state.Failed?);
    assert Cancels(s, j) ==> j == k;
    assert Own(s', f, j) && s'.timers[j].state.Failed?;
  }

  lemma SerialStep(s: State, e: Event, f: FiberId)
    requires Inv(s) && SerialInv(s, f) && Possible(s, e) && Serial(s, e)
    ensures SerialInv(Apply(s, e), f)
  {
    assert TimersInv(s, f) && WakesInv(s, f);
    match e
    case Outer(_, _) => SerialOuter(s, e, f);
    case Expire(k) => SerialTimer(s, e, k, f);
    case Lock(k) => SerialTimer(s, e, k, f);
    case Test(k) => SerialTimer(s, e, k, f);
    case Cancel(k, _) => SerialCancel(s, e, k, f);
    case _ => SerialFiber(s, e, f);
  }

  lemma {:induction false} SerialHolds(s: State, es: seq<Event>)
    requires Inv(s) && (forall f :: SerialInv(s, f)) && Run(s, es) && SerialRun(s, es)
    ensures Inv(Exec(s, es)) && forall f :: SerialInv(Exec(s, es), f)
    decreases |es|
  {
    if es != [] {
      StepInv(s, es[0]);
      forall f ensures SerialInv(Apply(s, es[0]), f) { SerialStep(s, es[0], f); }
      SerialHolds(Apply(s, es[0]), es[1..]);
    }
  }

  /** A timer of the fiber's own call can still cancel. */
  ghost predicate Ahead(s: State, f: FiberId) {
    exists k: nat :: Own(s, f, k) && (s.timers[k].state.Cancelling? || (Pending(s, k) && !Flagged(s, f)))
  }

  /** With one worker, a parked and registered fiber with a timeout has lost it exactly if a timer of its call
      fired and its cancelEvent failed. */
  lemma OneWorkerLosesExactly(s: State, es: seq<Event>, f: FiberId)
    requires Reached(s, es) && SerialRun(START, es)
    requires Get(s, f).phase.Parked? && Get(s, f).timeout && Registered(s, f)
    ensures !Ahead(s, f) <==> exists k: nat :: Own(s, f, k) && s.timers[k].state.Failed?
  {
    SerialHolds(START, es);
    assert SerialInv(s, f) && TimersInv(s, f);
    if !Flagged(s, f) {
      assert TimeoutAhead(s, f) && Own(s, f, Get(s, f).cur.value);
    } else {
      var k: nat :| Own(s, f, k) && (s.timers[k].state.Cancelling? || s.timers[k].state.Failed?);
      assert Fired(s, k);
    }
  }
}
