/** In what order the one worker serves its queue, what a task adds to it, and how a fiber ends. */
module SchedulerOrder {
  import opened Options
  import opened Runtime
  import opened SchedulerSpec

  // ---------------------------------------------------------------- how a fiber ends

  /** TERM for a task that will return, EXCEPT for one that will throw. */
  function EndOf(p: Program): Status {
    match p
    case Return(_) => TERM
    case Throw(_) => EXCEPT
    case Ready(rest) => EndOf(rest)
    case Hold(rest) => EndOf(rest)
    case Spawn(_, _, _, rest) => EndOf(rest)
  }

  /** From `a` to `b` the fiber kept its end: a finished one is as it was, one that finished ended as it had to, and one
      that did not is still to end that way. */
  predicate KeepsEnd(a: Rec, b: Rec) {
    if a.left.None? then b == a
    else if b.left.None? then b.state == EndOf(a.left.value)
    else EndOf(b.left.value) == EndOf(a.left.value)
  }

  lemma {:induction false} SliceKeepsEnd(v: View, p: Program)
    ensures var sl := RunSlice(v, p);
            if sl.left.None? then sl.state == EndOf(p) else EndOf(sl.left.value) == EndOf(p)
    decreases p
  {
    if p.Spawn? { SliceKeepsEnd(Enqueue(v, p.child, p.asFiber, p.thread), p.rest); }
  }

  lemma StepKeepsEnd(v: View, k: nat)
    requires Formed(v) && v.jobs != [] && k < |v.table|
    ensures |Step(v).table| >= |v.table| && KeepsEnd(v.table[k], Step(v).table[k])
  {
    var rest := v.(jobs := v.jobs[1..]);
    match v.jobs[0]
    case Fib(k0, _) =>
      if v.table[k0].left.Some? {
        var p := v.table[k0].left.value;
        SliceGrows(rest, p);
        SliceEnds(rest, p);
        SliceKeepsEnd(rest, p);
        assert RunSlice(rest, p).view.table[k] == RunSlice(rest, p).view.table[..|v.table|][k];
      }
    case Cb(p, _) =>
      SliceGrows(rest, p);
      assert RunSlice(rest, p).view.table[k] == RunSlice(rest, p).view.table[..|v.table|][k];
  }

  lemma KeepsEndTransitive(a: Rec, b: Rec, c: Rec)
    requires KeepsEnd(a, b) && KeepsEnd(b, c)
    ensures KeepsEnd(a, c)
  {
  }

  /** However the queue is drained: a fiber that has finished is TERM if its task returned and EXCEPT if it threw,
      and one that had finished before is left alone. */
  lemma {:induction false} DrainKeepsEnd(v: View, k: nat)
    requires Formed(v) && k < |v.table|
    ensures |Drain(v).table| >= |v.table| && KeepsEnd(v.table[k], Drain(v).table[k])
    decreases Weight(v)
  {
    if v.jobs != [] {
      StepFormed(v);
      StepAccounts(v, 0);
      StepKeepsEnd(v, k);
      DrainKeepsEnd(Step(v), k);
      KeepsEndTransitive(v.table[k], Step(v).table[k], Drain(v).table[k]);
    }
  }

  // ---------------------------------------------------------------- what a task schedules

  datatype Child = Child(body: Program, asFiber: bool, thread: int)

  /** What a task schedules before it leaves next. */
  function Children(p: Program): seq<Child> {
    if p.Spawn? then [Child(p.child, p.asFiber, p.thread)] + Children(p.rest) else []
  }

  /** The node is for this child. */
  predicate IsChild(j: Job, c: Child, table: seq<Rec>) {
    && j.thread == c.thread
    && (if c.asFiber then j.Fib? && j.k < |table| && table[j.k] == Rec(INIT, Some(c.body))
        else j == Cb(c.body, c.thread))
  }

  /** A slice queues exactly these, in order, each for the thread asked for. */
  lemma {:induction false} SliceQueues(v: View, p: Program)
    ensures var w := RunSlice(v, p).view;
            && |w.jobs| == |v.jobs| + |Children(p)| && w.jobs[..|v.jobs|] == v.jobs
            && forall i :: 0 <= i < |Children(p)| ==> IsChild(w.jobs[|v.jobs| + i], Children(p)[i], w.table)
    decreases p
  {
    if p.Spawn? {
      var u := Enqueue(v, p.child, p.asFiber, p.thread);
      var w := RunSlice(u, p.rest).view;
      SliceQueues(u, p.rest);
      SliceGrows(v, p);
      SliceGrows(u, p.rest);
      FirstChild(v, p, w);
      forall i | 0 <= i < |Children(p)| ensures IsChild(w.jobs[|v.jobs| + i], Children(p)[i], w.table) {
        if i > 0 { assert IsChild(w.jobs[|u.jobs| + (i - 1)], Children(p.rest)[i-1], w.table); }
      }
    }
  }

  lemma FirstChild(v: View, p: Program, w: View)
    requires p.Spawn?
    requires var u := Enqueue(v, p.child, p.asFiber, p.thread);
             |w.table| >= |u.table| && w.table[..|u.table|] == u.table
             && |w.jobs| >= |u.jobs| && w.jobs[..|u.jobs|] == u.jobs
    ensures |w.jobs| > |v.jobs| && IsChild(w.jobs[|v.jobs|], Child(p.child, p.asFiber, p.thread), w.table)
  {
    var u := Enqueue(v, p.child, p.asFiber, p.thread);
    assert w.jobs[|v.jobs|] == w.jobs[..|u.jobs|][|v.jobs|] == u.jobs[|v.jobs|];
    if p.asFiber { assert w.table[|v.table|] == w.table[..|u.table|][|v.table|]; }
  }

  // ---------------------------------------------------------------- how a turn ends

  /** How a task leaves next, having scheduled what it schedules before: it yields, or ends. */
  function Leaves(p: Program): Status {
    match p
    case Return(_) => TERM
    case Throw(_) => EXCEPT
    case Ready(_) => READY
    case Hold(_) => HOLD
    case Spawn(_, _, _, rest) => Leaves(rest)
  }

  lemma {:induction false} SliceLeavesAs(v: View, p: Program)
    ensures Marked(RunSlice(v, p).state) == Leaves(p)
    decreases p
  {
    if p.Spawn? { SliceLeavesAs(Enqueue(v, p.child, p.asFiber, p.thread), p.rest); }
  }

  /** After its turn a fiber is in the state its task left it in. */
  lemma TurnLeavesAs(v: View, k: nat)
    requires Formed(v) && v.jobs != [] && v.jobs[0].Fib? && v.jobs[0].k == k && k < |v.table| && v.table[k].left.Some?
    ensures k < |Step(v).table| && Step(v).table[k].state == Leaves(v.table[k].left.value)
  {
    var rest := v.(jobs := v.jobs[1..]);
    SliceGrows(rest, v.table[k].left.value);
    SliceLeavesAs(rest, v.table[k].left.value);
  }

  // ---------------------------------------------------------------- first come, first served

  /** The body a node is about to run, if there is any. */
  function BodyOf(v: View, j: Job): Option<Program>
    requires Formed(v) && (j.Fib? ==> j.k < |v.table|)
  {
    match j case Fib(k, _) => v.table[k].left case Cb(p, _) => Some(p)
  }

  /** The fiber a node has been run on, if its task is not through: a callback's is the last that was made. */
  function FiberOf(w: View, j: Job): int {
    match j case Fib(k, _) => k case Cb(_, _) => |w.table| - 1
  }

  /** One turn takes the first node. All others keep their places ahead of what the task schedules, and a task that
      yields as READY comes after that, unpinned. */
  lemma FirstComeFirstServed(v: View)
    requires Formed(v) && v.jobs != []
    ensures var (w, body) := (Step(v), BodyOf(v, v.jobs[0]));
            if body.None? then w.jobs == v.jobs[1..]
            else
              var (n, again) := (|Children(body.value)|, Leaves(body.value) == READY);
              && |w.jobs| == |v.jobs| - 1 + n + (if again then 1 else 0)
              && w.jobs[..|v.jobs|-1] == v.jobs[1..]
              && (forall i :: 0 <= i < n ==> w.jobs[|v.jobs| - 1 + i].thread == Children(body.value)[i].thread)
              && (again ==> w.jobs[|w.jobs|-1].Fib? && w.jobs[|w.jobs|-1].thread == -1
                            && w.jobs[|w.jobs|-1].k == FiberOf(w, v.jobs[0]))
  {
    var (body, rest) := (BodyOf(v, v.jobs[0]), v.(jobs := v.jobs[1..]));
    if body.Some? {
      SliceQueues(rest, body.value);
      SliceEnds(rest, body.value);
      SliceLeavesAs(rest, body.value);
      var u := RunSlice(rest, body.value).view;
      forall i | 0 <= i < |Children(body.value)|
        ensures u.jobs[|rest.jobs| + i].thread == Children(body.value)[i].thread
      {
        assert IsChild(u.jobs[|rest.jobs| + i], Children(body.value)[i], u.table);
      }
    }
  }

  /** How many of them are fibers. */
  function FibersOf(cs: seq<Child>): nat {
    if cs == [] then 0 else (if cs[0].asFiber then 1 else 0) + FibersOf(cs[1..])
  }

  lemma {:induction false} SliceMakes(v: View, p: Program)
    ensures |RunSlice(v, p).view.table| == |v.table| + FibersOf(Children(p))
    decreases p
  {
    if p.Spawn? { SliceMakes(Enqueue(v, p.child, p.asFiber, p.thread), p.rest); }
  }

  /** A turn makes one fiber for each that the task schedules, and one for the task itself exactly if that is a
      callback which is not through. */
  lemma FibersMade(v: View)
    requires Formed(v) && v.jobs != []
    ensures var (n, body) := (|Step(v).table| - |v.table|, BodyOf(v, v.jobs[0]));
            if body.None? then n == 0
            else n == FibersOf(Children(body.value))
                      + if v.jobs[0].Cb? && !Finished(Leaves(body.value)) then 1 else 0
  {
    var (body, rest) := (BodyOf(v, v.jobs[0]), v.(jobs := v.jobs[1..]));
    if body.Some? {
      SliceMakes(rest, body.value);
      SliceEnds(rest, body.value);
      SliceLeavesAs(rest, body.value);
    }
  }
}
