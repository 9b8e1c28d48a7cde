/** How a hooked call returns, told by what happened to its timers and by how it was begun. */
module DoIoOutcomes {
  import opened Options
  import IoSpec
  import opened DoIo
  import opened DoIoInvariant

  // ---------------------------------------------------------------- as it was begun

  /** The last call the fiber has begun in a run. */
  function Begun(es: seq<Event>, f: FiberId): Option<Event> {
    if es == [] then None
    else if es[|es|-1].Begin? && es[|es|-1].f == f then Some(es[|es|-1]) else Begun(es[..|es|-1], f)
  }

  ghost predicate AsBegun(s: State, f: FiberId, begun: Option<Event>) {
    var fib := Get(s, f);
    if begun.None? then fib.phase == Outside(None)
    else begun.value.Begin? && fib.key == begun.value.key && fib.timeout == begun.value.timeout
         && fib.connecting == begun.value.connecting && fib.phase != Outside(None)
  }

  lemma BegunStep(s: State, e: Event, f: FiberId, begun: Option<Event>)
    requires Possible(s, e) && AsBegun(s, f, begun)
    ensures AsBegun(Apply(s, e), f, if e.Begin? && e.f == f then Some(e) else begun)
  {
  }

  lemma {:induction false} RunSplit(s: State, es: seq<Event>)
    requires Run(s, es) && es != []
    ensures var front := es[..|es|-1];
            Run(s, front) && Possible(Exec(s, front), es[|es|-1]) && Exec(s, es) == Apply(Exec(s, front), es[|es|-1])
    decreases |es|
  {
    if |es| > 1 {
      RunSplit(Apply(s, es[0]), es[1..]);
      assert es[..|es|-1][1..] == es[1..][..|es|-2];
    } else {
      assert es[1..] == [] && es[..0] == [];
    }
  }

  /** In every run a call goes on with the fd, the event, the timeout and the kind it was begun with. */
  lemma {:induction false} CallIsAsBegun(s: State, es: seq<Event>, f: FiberId)
    requires Reached(s, es)
    ensures AsBegun(s, f, Begun(es, f))
    decreases |es|
  {
    if es != [] {
      RunSplit(START, es);
      var front := es[..|es|-1];
      CallIsAsBegun(Exec(START, front), front, f);
      BegunStep(Exec(START, front), es[|es|-1], f, Begun(front, f));
    }
  }

  // ---------------------------------------------------------------- no timeout, no timer

  ghost predicate Timeless(s: State, f: FiberId) { !Get(s, f).timeout ==> forall k: nat :: !Own(s, f, k) }

  lemma TimelessStep(s: State, e: Event, f: FiberId)
    requires Inv(s) && Possible(s, e) && Timeless(s, f)
    ensures Timeless(Apply(s, e), f)
  {
    assert TimersInv(s, f);
    var s' := Apply(s, e);
    if !Get(s', f).timeout {
      forall k: nat ensures !Own(s', f, k) { assert !Get(s, f).timeout ==> !Own(s, f, k); }
    }
  }

  lemma {:induction false} TimelessRun(s: State, es: seq<Event>, f: FiberId)
    requires Inv(s) && Run(s, es) && Timeless(s, f)
    ensures Timeless(Exec(s, es), f)
    decreases |es|
  {
    if es != [] {
      TimelessStep(s, es[0], f);
      StepInv(s, es[0]);
      TimelessRun(Apply(s, es[0]), es[1..], f);
    }
  }

  /** A call begun without a timeout never has a timer, and so never reports ETIMEDOUT. */
  lemma NoTimeoutNoTimer(s: State, es: seq<Event>, f: FiberId)
    requires Reached(s, es) && Begun(es, f).Some? && Begun(es, f).value.Begin? && !Begun(es, f).value.timeout
    ensures (forall k: nat :: !Own(s, f, k)) && Get(s, f).phase != Outside(Some(TimedOut))
  {
    ReachedInv(s, es);
    CallIsAsBegun(s, es, f);
    TimelessRun(START, es, f);
    assert TimersInv(s, f);
  }

  // ---------------------------------------------------------------- how it returns

  /** Some timer of this call has fired. */
  ghost predicate SomeFired(s: State, f: FiberId) { exists k: nat :: Own(s, f, k) && Fired(s, k) }

  /** After a wait: do_io and connect_with_timeout report ETIMEDOUT exactly if a timer of this call has fired by
      then; if none has, do_io tries again and a connect returns what the socket says. */
  lemma AfterWaitExactly(s: State, es: seq<Event>, f: FiberId)
    requires Reached(s, es) && Get(s, f).phase.TimerDropped?
    ensures var p := Get(Apply(s, Check(f)), f).phase;
            && (p == Outside(Some(TimedOut)) <==> SomeFired(s, f))
            && (p == Outside(Some(Value)) <==> Get(s, f).connecting && !SomeFired(s, f))
            && (p == Trying <==> !Get(s, f).connecting && !SomeFired(s, f))
  {
    ReachedInv(s, es);
    assert TimersInv(s, f);
  }

  /** Every return of a hooked call, by the step it comes with: ETIMEDOUT only after a wait in which a timer of the call
      had fired; a failed addEvent at once; the value of the system call if it did not ask to wait, and for a connect
      also after a failed addEvent or a wait without a fired timer. */
  lemma ReturnsExactly(s: State, es: seq<Event>, e: Event, f: FiberId, o: Outcome)
    requires Reached(s, es) && Possible(s, e) && !Get(s, f).phase.Outside?
    ensures Get(Apply(s, e), f).phase == Outside(Some(o)) <==>
              match o
              case TimedOut => e == Check(f) && SomeFired(s, f)
              case AddFailed => e == Add(f, true) && !Get(s, f).connecting
              case Value =>
                || e == Io(f, false)
                || (Get(s, f).connecting && (e == Add(f, true) || (e == Check(f) && !SomeFired(s, f))))
  {
    ReachedInv(s, es);
    assert TimersInv(s, f);
  }

  /** A fiber that is to wait -- the system call said EAGAIN -- arms a timer if and only if the call has a timeout, and
      is registered for the fd and event of the call, unless addEvent fails. */
  lemma WaitsAsBegun(s: State, es: seq<Event>, f: FiberId)
    requires Reached(s, es) && Get(s, f).phase.Blocked?
    ensures var (s1, fib) := (Apply(s, Arm(f)), Get(s, f));
            && |s1.timers| == |s.timers| + (if fib.timeout then 1 else 0)
            && (fib.timeout ==> Own(s1, f, |s.timers|) && s1.timers[|s.timers|] == Timer(f, fib.call, fib.key, Armed))
            && (forall fails :: Possible(s1, Add(f, fails)) ==>
                  (Registered(Apply(s1, Add(f, fails)), f) <==> !fails))
  {
    ReachedInv(s, es);
    assert WakesInv(s, f);
    var s1 := Apply(s, Arm(f));
    forall fails | Possible(s1, Add(f, fails)) ensures Registered(Apply(s1, Add(f, fails)), f) <==> !fails {
      assert !Holds(s1.io.reg, Get(s1, f).key, f);
    }
  }

  /** What a fiber can do next: a call goes on wherever it stands, except that a parked fiber is resumed exactly when
      it is not registered any more, and that addEvent needs the place to be free -- its ASSERT fails for a second
      waiter. */
  lemma GoesOnExactly(s: State, es: seq<Event>, f: FiberId, fails: bool)
    requires Reached(s, es)
    ensures var fib := Get(s, f);
            && (fib.phase.Outside? ==>
                  forall key, timeout, connecting :: Possible(s, Begin(f, key, timeout, connecting)))
            && (fib.phase.Trying? ==> Possible(s, Io(f, true)) && Possible(s, Io(f, false)))
            && (fib.phase.Blocked? ==> Possible(s, Arm(f)))
            && (fib.phase.Adding? ==> (Possible(s, Add(f, fails)) <==> fib.key !in s.io.reg))
            && (fib.phase.Parked? ==> (Possible(s, Resume(f)) <==> !Registered(s, f)))
            && (fib.phase.Resumed? ==> Possible(s, DropTimer(f)))
            && (fib.phase.TimerDropped? ==> Possible(s, Check(f)))
  {
    ReachedInv(s, es);
    assert WakesInv(s, f);
  }
}
