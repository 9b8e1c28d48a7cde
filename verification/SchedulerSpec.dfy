/** One worker on a queue of finite tasks, as values: what the loop of `Scheduler::run` comes to
    when the caller's thread is the only one. */
module SchedulerSpec {
  import opened Options
  import opened Runtime

  /** A task body: it may schedule others, leave by YieldToReady or YieldToHold, and ends by returning or throwing.
      The tag says which task ended. */
  datatype Program =
    | Return(tag: nat)
    | Throw(tag: nat)
    | Ready(rest: Program)
    | Hold(rest: Program)
    | Spawn(child: Program, asFiber: bool, thread: int, rest: Program)

  /** A fiber: its state and what it has left to do. */
  datatype Rec = Rec(state: Status, left: Option<Program>)

  /** A queue node, by the number of its fiber or with its callback. */
  datatype Job = Fib(k: nat, thread: int) | Cb(body: Program, thread: int)

  datatype View = View(jobs: seq<Job>, table: seq<Rec>, log: seq<nat>)

  /** What running a fiber until it leaves again does. */
  datatype Slice = Slice(view: View, state: Status, left: Option<Program>)

  function Enqueue(v: View, p: Program, asFiber: bool, thread: int): View {
    if asFiber then v.(jobs := v.jobs + [Fib(|v.table|, thread)], table := v.table + [Rec(INIT, Some(p))])
    else v.(jobs := v.jobs + [Cb(p, thread)])
  }

  function RunSlice(v: View, p: Program): Slice
    decreases p
  {
    match p
    case Return(l) => Slice(v.(log := v.log + [l]), TERM, None)
    case Throw(l) => Slice(v.(log := v.log + [l]), EXCEPT, None)
    case Ready(rest) => Slice(v, READY, Some(rest))
    case Hold(rest) => Slice(v, EXEC, Some(rest))
    case Spawn(c, asFiber, thread, rest) => RunSlice(Enqueue(v, c, asFiber, thread), rest)
  }

  /** Every node names a fiber there is; a fiber has something left to do unless it has finished; none runs. */
  predicate Formed(v: View) {
    && (forall i :: 0 <= i < |v.jobs| && v.jobs[i].Fib? ==> v.jobs[i].k < |v.table|)
    && (forall k :: 0 <= k < |v.table| ==> FormedRec(v.table[k]))
  }

  predicate FormedRec(r: Rec) { r.state != EXEC && (r.left.None? <==> Finished(r.state)) }

  /** A fiber goes back into the queue without the thread it was pinned to. */
  function Requeue(v: View, k: nat): View { v.(jobs := v.jobs + [Fib(k, -1)]) }

  /** The worker marks a fiber that neither yielded as READY nor finished. */
  function Marked(state: Status): Status { if state == EXEC then HOLD else state }

  function StepFiber(v: View, k: nat): View
    requires k < |v.table|
  {
    if v.table[k].left.None? then v
    else
      var sl := RunSlice(v, v.table[k].left.value);
      SliceGrows(v, v.table[k].left.value);
      var w := sl.view.(table := sl.view.table[k := Rec(Marked(sl.state), sl.left)]);
      if sl.state == READY then Requeue(w, k) else w
  }

  function StepCallback(v: View, p: Program): View {
    var sl := RunSlice(v, p);
    if Finished(sl.state) then sl.view
    else
      var w := sl.view.(table := sl.view.table + [Rec(Marked(sl.state), sl.left)]);
      if sl.state == READY then Requeue(w, |sl.view.table|) else w
  }

  /** One turn of the loop, on a queue whose nodes may all run here. */
  function Step(v: View): View
    requires Formed(v) && v.jobs != []
  {
    var rest := v.(jobs := v.jobs[1..]);
    match v.jobs[0]
    case Fib(k, _) => StepFiber(rest, k)
    case Cb(p, _) => StepCallback(rest, p)
  }

  // ---------------------------------------------------------------- sums

  function Sum<T>(s: seq<T>, f: T -> nat): nat {
    if s == [] then 0 else Sum(s[..|s|-1], f) + f(s[|s|-1])
  }

  lemma SumSnoc<T>(s: seq<T>, x: T, f: T -> nat)
    ensures Sum(s + [x], f) == Sum(s, f) + f(x)
  {
    assert (s + [x])[..|s|] == s;
  }

  lemma {:induction false} SumTail<T>(s: seq<T>, f: T -> nat)
    requires s != []
    ensures Sum(s, f) == f(s[0]) + Sum(s[1..], f)
    decreases |s|
  {
    if |s| > 1 {
      var t := s[..|s|-1];
      SumTail(t, f);
      assert s[1..][..|s|-2] == t[1..];
    }
  }

  lemma {:induction false} SumUpdate<T>(s: seq<T>, k: nat, x: T, f: T -> nat)
    requires k < |s|
    ensures Sum(s[k := x], f) + f(s[k]) == Sum(s, f) + f(x)
    decreases |s|
  {
    var t := s[..|s|-1];
    if k < |t| {
      SumUpdate(t, k, x, f);
      assert s[k := x][..|s|-1] == t[k := x];
    } else {
      assert s[k := x][..|s|-1] == t;
    }
  }

  // ---------------------------------------------------------------- what a view weighs

  /** The actions a body has left; a scheduled task costs its turn on top. */
  function Size(p: Program): nat {
    match p
    case Return(_) => 1
    case Throw(_) => 1
    case Ready(rest) => 1 + Size(rest)
    case Hold(rest) => 1 + Size(rest)
    case Spawn(c, _, _, rest) => 2 + Size(c) + Size(rest)
  }

  function SizeOf(left: Option<Program>): nat { if left.Some? then Size(left.value) else 0 }

  function RecSize(r: Rec): nat { SizeOf(r.left) }

  function JobSize(j: Job): nat { if j.Cb? then 1 + Size(j.body) else 1 }

  function Weight(v: View): nat { Sum(v.jobs, JobSize) + Sum(v.table, RecSize) }

  /** How often `l` is still to be logged. */
  function Labels(p: Program, l: nat): nat {
    match p
    case Return(m) => Is(m, l)
    case Throw(m) => Is(m, l)
    case Ready(rest) => Labels(rest, l)
    case Hold(rest) => Labels(rest, l)
    case Spawn(c, _, _, rest) => Labels(c, l) + Labels(rest, l)
  }

  function LabelsOf(left: Option<Program>, l: nat): nat { if left.Some? then Labels(left.value, l) else 0 }

  function RecOwes(l: nat): Rec -> nat { (r: Rec) => LabelsOf(r.left, l) }

  function JobOwes(l: nat): Job -> nat { (j: Job) => if j.Cb? then Labels(j.body, l) else 0 }

  function Logged(l: nat): nat -> nat { (m: nat) => Is(m, l) }

  /** Logged already, or owed by a queued callback or by a fiber. */
  function Accounted(v: View, l: nat): nat {
    Sum(v.log, Logged(l)) + Sum(v.jobs, JobOwes(l)) + Sum(v.table, RecOwes(l))
  }

  lemma EnqueueAccounts(v: View, p: Program, asFiber: bool, thread: int, l: nat)
    ensures Accounted(Enqueue(v, p, asFiber, thread), l) == Accounted(v, l) + Labels(p, l)
    ensures Weight(Enqueue(v, p, asFiber, thread)) == Weight(v) + Size(p) + 1
  {
    var w := Enqueue(v, p, asFiber, thread);
    var (j, r) := (w.jobs[|v.jobs|], Rec(INIT, Some(p)));
    SumSnoc(v.jobs, j, JobSize);
    SumSnoc(v.jobs, j, JobOwes(l));
    SumSnoc(v.table, r, RecSize);
    SumSnoc(v.table, r, RecOwes(l));
  }

  lemma {:induction false} SliceGrows(v: View, p: Program)
    ensures var w := RunSlice(v, p).view;
            |w.table| >= |v.table| && w.table[..|v.table|] == v.table
            && |w.jobs| >= |v.jobs| && w.jobs[..|v.jobs|] == v.jobs
    decreases p
  {
    if p.Spawn? {
      var u := Enqueue(v, p.child, p.asFiber, p.thread);
      SliceGrows(u, p.rest);
      var w := RunSlice(u, p.rest).view;
      assert w.table[..|v.table|] == w.table[..|u.table|][..|v.table|];
      assert w.jobs[..|v.jobs|] == w.jobs[..|u.jobs|][..|v.jobs|];
    }
  }

  /** A slice neither loses nor doubles a tag, */
  lemma {:induction false} SliceAccounts(v: View, p: Program, l: nat)
    ensures Accounted(RunSlice(v, p).view, l) + LabelsOf(RunSlice(v, p).left, l) == Accounted(v, l) + Labels(p, l)
    decreases p
  {
    match p
    case Return(m) => SumSnoc(v.log, m, Logged(l));
    case Throw(m) => SumSnoc(v.log, m, Logged(l));
    case Ready(rest) =>
    case Hold(rest) =>
    case Spawn(c, asFiber, thread, rest) =>
      var u := Enqueue(v, c, asFiber, thread);
      EnqueueAccounts(v, c, asFiber, thread, l);
      SliceAccounts(u, rest, l);
      assert RunSlice(v, p) == RunSlice(u, rest);
  }

  /** it uses up at least one action, */
  lemma {:induction false} SliceWeighs(v: View, p: Program)
    ensures Weight(RunSlice(v, p).view) + SizeOf(RunSlice(v, p).left) < Weight(v) + Size(p)
    decreases p
  {
    if p.Spawn? {
      EnqueueAccounts(v, p.child, p.asFiber, p.thread, 0);
      SliceWeighs(Enqueue(v, p.child, p.asFiber, p.thread), p.rest);
    }
  }

  /** and it leaves the fiber READY, or still EXEC, with something left, or finished with nothing left. */
  lemma {:induction false} SliceEnds(v: View, p: Program)
    ensures var sl := RunSlice(v, p);
            ((sl.state == READY || sl.state == EXEC) && sl.left.Some?) || (Finished(sl.state) && sl.left.None?)
    decreases p
  {
    if p.Spawn? { SliceEnds(Enqueue(v, p.child, p.asFiber, p.thread), p.rest); }
  }

  lemma RequeueAccounts(v: View, k: nat, l: nat)
    ensures Accounted(Requeue(v, k), l) == Accounted(v, l)
    ensures Weight(Requeue(v, k)) == Weight(v) + 1
  {
    SumSnoc(v.jobs, Fib(k, -1), JobSize);
    SumSnoc(v.jobs, Fib(k, -1), JobOwes(l));
  }

  lemma StepFiberAccounts(v: View, k: nat, l: nat)
    requires k < |v.table|
    ensures Accounted(StepFiber(v, k), l) == Accounted(v, l)
    ensures Weight(StepFiber(v, k)) <= Weight(v)
  {
    if v.table[k].left.Some? {
      var p := v.table[k].left.value;
      var sl := RunSlice(v, p);
      SliceGrows(v, p);
      SliceAccounts(v, p, l);
      SliceWeighs(v, p);
      SliceEnds(v, p);
      var r := Rec(Marked(sl.state), sl.left);
      assert sl.view.table[k] == sl.view.table[..|v.table|][k] == v.table[k];
      SumUpdate(sl.view.table, k, r, RecSize);
      SumUpdate(sl.view.table, k, r, RecOwes(l));
      RequeueAccounts(sl.view.(table := sl.view.table[k := r]), k, l);
    }
  }

  lemma StepCallbackAccounts(v: View, p: Program, l: nat)
    ensures Accounted(StepCallback(v, p), l) == Accounted(v, l) + Labels(p, l)
    ensures Weight(StepCallback(v, p)) <= Weight(v) + Size(p)
  {
    var sl := RunSlice(v, p);
    SliceAccounts(v, p, l);
    SliceWeighs(v, p);
    SliceEnds(v, p);
    var r := Rec(Marked(sl.state), sl.left);
    SumSnoc(sl.view.table, r, RecSize);
    SumSnoc(sl.view.table, r, RecOwes(l));
    RequeueAccounts(sl.view.(table := sl.view.table + [r]), |sl.view.table|, l);
  }

  /** One turn of the loop keeps every label accounted for and makes the view lighter. */
  lemma StepAccounts(v: View, l: nat)
    requires Formed(v) && v.jobs != []
    ensures Accounted(Step(v), l) == Accounted(v, l)
    ensures Weight(Step(v)) < Weight(v)
  {
    var rest := v.(jobs := v.jobs[1..]);
    SumTail(v.jobs, JobSize);
    SumTail(v.jobs, JobOwes(l));
    match v.jobs[0]
    case Fib(k, _) => StepFiberAccounts(rest, k, l);
    case Cb(p, _) => StepCallbackAccounts(rest, p, l);
  }

  // ---------------------------------------------------------------- what every turn keeps

  lemma {:induction false} SliceFormed(v: View, p: Program)
    requires Formed(v)
    ensures Formed(RunSlice(v, p).view)
    decreases p
  {
    if p.Spawn? { SliceFormed(Enqueue(v, p.child, p.asFiber, p.thread), p.rest); }
  }

  lemma StepFormed(v: View)
    requires Formed(v) && v.jobs != []
    ensures Formed(Step(v)) && |Step(v).table| >= |v.table|
  {
    var rest := v.(jobs := v.jobs[1..]);
    match v.jobs[0]
    case Fib(k, _) =>
      if v.table[k].left.Some? {
        SliceFormed(rest, v.table[k].left.value);
        SliceGrows(rest, v.table[k].left.value);
        SliceEnds(rest, v.table[k].left.value);
      }
    case Cb(p, _) =>
      SliceFormed(rest, p);
      SliceGrows(rest, p);
      SliceEnds(rest, p);
  }

  /** Fiber `k` has finished or is queued -- or, unless `strictly`, is on HOLD. */
  predicate Served(v: View, k: nat, strictly: bool) {
    && k < |v.table|
    && (v.table[k].left.None? || InQueue(v.jobs, k) || (!strictly && v.table[k].state == HOLD))
  }

  predicate InQueue(jobs: seq<Job>, k: nat) { exists i :: 0 <= i < |jobs| && IsFiber(jobs[i], k) }

  predicate IsFiber(j: Job, k: nat) { j.Fib? && j.k == k }

  lemma InQueueHead(jobs: seq<Job>, k: nat)
    requires jobs != []
    ensures InQueue(jobs, k) <==> IsFiber(jobs[0], k) || InQueue(jobs[1..], k)
  {
    if InQueue(jobs, k) {
      var i :| 0 <= i < |jobs| && IsFiber(jobs[i], k);
      if i > 0 { assert jobs[1..][i-1] == jobs[i]; }
    }
    if InQueue(jobs[1..], k) {
      var i :| 0 <= i < |jobs[1..]| && IsFiber(jobs[1..][i], k);
      assert jobs[1..][i] == jobs[i+1];
    }
  }

  lemma {:induction false} SliceServes(v: View, p: Program, k: nat, strictly: bool)
    requires Served(v, k, strictly) || |v.table| <= k < |RunSlice(v, p).view.table|
    ensures Served(RunSlice(v, p).view, k, strictly)
    decreases p
  {
    if p.Spawn? {
      var u := Enqueue(v, p.child, p.asFiber, p.thread);
      if Served(v, k, strictly) { KeepServed(v, u, k, strictly); }
      else if k < |u.table| { assert IsFiber(u.jobs[|v.jobs|], k); }
      SliceServes(u, p.rest, k, strictly);
    }
  }

  /** More nodes and more fibers leave a fiber served. */
  lemma KeepServed(v: View, w: View, k: nat, strictly: bool)
    requires Served(v, k, strictly)
    requires |w.table| > k && w.table[k] == v.table[k]
    requires |w.jobs| >= |v.jobs| && w.jobs[..|v.jobs|] == v.jobs
    ensures Served(w, k, strictly)
  {
    if InQueue(v.jobs, k) {
      var i :| 0 <= i < |v.jobs| && IsFiber(v.jobs[i], k);
      assert w.jobs[i] == w.jobs[..|v.jobs|][i];
    }
  }

  predicate NoHold(p: Program) {
    match p
    case Ready(rest) => NoHold(rest)
    case Hold(_) => false
    case Spawn(c, _, _, rest) => NoHold(c) && NoHold(rest)
    case _ => true
  }

  /** No task yields by YieldToHold. */
  predicate Plain(v: View) {
    && (forall i :: 0 <= i < |v.jobs| && v.jobs[i].Cb? ==> NoHold(v.jobs[i].body))
    && (forall k :: 0 <= k < |v.table| && v.table[k].left.Some? ==> NoHold(v.table[k].left.value))
  }

  lemma {:induction false} SlicePlain(v: View, p: Program)
    requires Plain(v) && NoHold(p)
    ensures var sl := RunSlice(v, p);
            Plain(sl.view) && sl.state != EXEC && (sl.left.Some? ==> NoHold(sl.left.value))
    decreases p
  {
    if p.Spawn? { SlicePlain(Enqueue(v, p.child, p.asFiber, p.thread), p.rest); }
  }

  lemma StepPlain(v: View)
    requires Formed(v) && v.jobs != [] && Plain(v)
    ensures Plain(Step(v))
  {
    var rest := v.(jobs := v.jobs[1..]);
    match v.jobs[0]
    case Fib(k, _) =>
      if v.table[k].left.Some? {
        SlicePlain(rest, v.table[k].left.value);
        SliceGrows(rest, v.table[k].left.value);
      }
    case Cb(p, _) => SlicePlain(rest, p);
  }

  lemma StepFiberServes(v: View, k0: nat, k: nat, strictly: bool)
    requires k0 < |v.table| && (strictly ==> Plain(v))
    requires k == k0 || Served(v, k, strictly) || |v.table| <= k < |StepFiber(v, k0).table|
    ensures Served(StepFiber(v, k0), k, strictly)
  {
    if v.table[k0].left.Some? {
      var p := v.table[k0].left.value;
      var sl := RunSlice(v, p);
      SliceGrows(v, p);
      SliceEnds(v, p);
      if strictly { SlicePlain(v, p); }
      var w := sl.view.(table := sl.view.table[k0 := Rec(Marked(sl.state), sl.left)]);
      if k == k0 {
        if sl.state == READY { assert IsFiber(Requeue(w, k0).jobs[|w.jobs|], k); }
      } else {
        SliceServes(v, p, k, strictly);
        KeepServed(sl.view, w, k, strictly);
        KeepServed(w, Requeue(w, k0), k, strictly);
      }
    }
  }

  lemma StepCallbackServes(v: View, p: Program, k: nat, strictly: bool)
    requires strictly ==> Plain(v) && NoHold(p)
    requires Served(v, k, strictly) || |v.table| <= k < |StepCallback(v, p).table|
    ensures Served(StepCallback(v, p), k, strictly)
  {
    var sl := RunSlice(v, p);
    SliceGrows(v, p);
    SliceEnds(v, p);
    if strictly { SlicePlain(v, p); }
    var n := |sl.view.table|;
    var w := sl.view.(table := sl.view.table + [Rec(Marked(sl.state), sl.left)]);
    if k != n {
      SliceServes(v, p, k, strictly);
      KeepServed(sl.view, w, k, strictly);
      KeepServed(w, Requeue(w, n), k, strictly);
    } else if sl.state == READY {
      assert IsFiber(Requeue(w, n).jobs[|w.jobs|], k);
    }
  }

  /** A fiber once in the queue stays there until it finishes or holds, and so does every fiber made on the way. */
  lemma StepServes(v: View, k: nat, strictly: bool)
    requires Formed(v) && v.jobs != [] && (strictly ==> Plain(v))
    requires Served(v, k, strictly) || |v.table| <= k < |Step(v).table|
    ensures Served(Step(v), k, strictly)
  {
    var rest := v.(jobs := v.jobs[1..]);
    InQueueHead(v.jobs, k);
    match v.jobs[0]
    case Fib(k0, _) => StepFiberServes(rest, k0, k, strictly);
    case Cb(p, _) => StepCallbackServes(rest, p, k, strictly);
  }

  // ---------------------------------------------------------------- running dry

  /** What is left when the queue has run dry. */
  function Drain(v: View): View
    requires Formed(v)
    decreases Weight(v)
  {
    if v.jobs == [] then v
    else
      StepFormed(v);
      StepAccounts(v, 0);
      Drain(Step(v))
  }

  /** Drain termination: the queue empties, and every tag is still accounted for. */
  lemma {:induction false} DrainEmpties(v: View, l: nat)
    requires Formed(v)
    ensures Formed(Drain(v)) && Drain(v).jobs == [] && |Drain(v).table| >= |v.table|
    ensures Accounted(Drain(v), l) == Accounted(v, l)
    decreases Weight(v)
  {
    if v.jobs != [] {
      StepFormed(v);
      StepAccounts(v, l);
      DrainEmpties(Step(v), l);
    }
  }

  /** Every fiber that was queued or is made on the way ends finished or on HOLD, and finished if nobody holds. */
  lemma {:induction false} DrainServes(v: View, k: nat, strictly: bool)
    requires Formed(v) && (strictly ==> Plain(v))
    requires Served(v, k, strictly) || |v.table| <= k < |Drain(v).table|
    ensures Served(Drain(v), k, strictly) && Drain(v).jobs == []
    decreases Weight(v)
  {
    if v.jobs != [] {
      StepFormed(v);
      StepAccounts(v, 0);
      if strictly { StepPlain(v); }
      if Served(v, k, strictly) || k < |Step(v).table| { StepServes(v, k, strictly); }
      DrainServes(Step(v), k, strictly);
    }
  }

  lemma {:induction false} NothingOwed(table: seq<Rec>, l: nat)
    requires forall k :: 0 <= k < |table| ==> table[k].left.None?
    ensures Sum(table, RecOwes(l)) == 0
  {
    if table != [] { NothingOwed(table[..|table|-1], l); }
  }

  /** Nobody holds, and no unfinished fiber is off the queue. */
  predicate Complete(v: View) { Plain(v) && forall k :: 0 <= k < |v.table| ==> Served(v, k, true) }

  /** If nobody holds and no unfinished fiber is off the queue, every task ends exactly as often as it was
      scheduled: to the tags logged before come those of all the queued work, each one its number of times. */
  lemma {:induction false} DrainFinishesEverything(v: View, l: nat)
    requires Formed(v) && Complete(v)
    ensures forall k :: 0 <= k < |Drain(v).table| ==> Finished(Drain(v).table[k].state)
    ensures Sum(Drain(v).log, Logged(l)) == Sum(v.log, Logged(l)) + Sum(v.jobs, JobOwes(l)) + Sum(v.table, RecOwes(l))
  {
    var d := Drain(v);
    DrainEmpties(v, l);
    forall k: nat | k < |d.table| ensures d.table[k].left.None? { DrainServes(v, k, true); }
    NothingOwed(d.table, l);
  }

  // ---------------------------------------------------------------- exactly the queued fibers

  lemma QueuedOnEnd(jobs: seq<Job>, j: Job, k: nat)
    ensures InQueue(jobs + [j], k) <==> InQueue(jobs, k) || IsFiber(j, k)
  {
    assert (jobs + [j])[|jobs|] == j;
    if InQueue(jobs, k) {
      var i :| 0 <= i < |jobs| && IsFiber(jobs[i], k);
      assert IsFiber((jobs + [j])[i], k);
    }
  }

  lemma {:induction false} SliceLeaves(v: View, p: Program, k: nat)
    requires k < |v.table| && !InQueue(v.jobs, k)
    ensures !InQueue(RunSlice(v, p).view.jobs, k)
    decreases p
  {
    if p.Spawn? {
      var u := Enqueue(v, p.child, p.asFiber, p.thread);
      QueuedOnEnd(v.jobs, u.jobs[|v.jobs|], k);
      assert !InQueue(u.jobs, k);
      SliceLeaves(u, p.rest, k);
    }
  }

  lemma StepFiberLeaves(v: View, k0: nat, k: nat)
    requires k0 < |v.table| && k < |v.table| && !InQueue(v.jobs, k) && k != k0
    ensures var w := StepFiber(v, k0); |w.table| > k && w.table[k] == v.table[k] && !InQueue(w.jobs, k)
  {
    if v.table[k0].left.Some? {
      var p := v.table[k0].left.value;
      SliceGrows(v, p);
      SliceThenRequeue(v, p, k0, k);
    }
  }

  lemma StepLeaves(v: View, k: nat)
    requires Formed(v) && v.jobs != [] && k < |v.table| && !InQueue(v.jobs, k)
    ensures |Step(v).table| > k && Step(v).table[k] == v.table[k] && !InQueue(Step(v).jobs, k)
  {
    var rest := v.(jobs := v.jobs[1..]);
    InQueueHead(v.jobs, k);
    match v.jobs[0]
    case Fib(k0, _) =>
      StepFiberLeaves(rest, k0, k);
    case Cb(p, _) =>
      SliceGrows(rest, p);
      SliceThenRequeue(rest, p, |RunSlice(rest, p).view.table|, k);
  }

  lemma SliceThenRequeue(v: View, p: Program, k0: nat, k: nat)
    requires k < |v.table| && !InQueue(v.jobs, k) && k != k0
    ensures var w := RunSlice(v, p).view;
            && !InQueue(w.jobs, k) && !InQueue(w.jobs + [Fib(k0, -1)], k)
            && |w.table| > k && w.table[k] == v.table[k]
  {
    var w := RunSlice(v, p).view;
    SliceLeaves(v, p, k);
    SliceGrows(v, p);
    QueuedOnEnd(w.jobs, Fib(k0, -1), k);
    assert w.table[k] == w.table[..|v.table|][k];
  }

  lemma {:induction false} OffTheQueue(v: View, k: nat)
    requires Formed(v) && k < |v.table| && !InQueue(v.jobs, k)
    ensures |Drain(v).table| > k && Drain(v).table[k] == v.table[k]
    decreases Weight(v)
  {
    if v.jobs != [] {
      StepFormed(v);
      StepAccounts(v, 0);
      StepLeaves(v, k);
      OffTheQueue(Step(v), k);
    }
  }

  /** If nobody holds, draining finishes, of the fibers there were, exactly those queued or finished before. */
  lemma DrainFinishesExactly(v: View, k: nat)
    requires Formed(v) && Plain(v) && k < |v.table|
    ensures |Drain(v).table| >= |v.table|
    ensures Finished(Drain(v).table[k].state) <==> Served(v, k, true)
  {
    DrainEmpties(v, 0);
    if Served(v, k, true) { DrainServes(v, k, true); }
    else { OffTheQueue(v, k); }
  }

  // ---------------------------------------------------------------- pinned to the one worker

  predicate Here(thread: int, me: int) { thread == -1 || thread == me }

  predicate LocalProgram(p: Program, me: int) {
    match p
    case Ready(rest) => LocalProgram(rest, me)
    case Hold(rest) => LocalProgram(rest, me)
    case Spawn(c, _, thread, rest) => Here(thread, me) && LocalProgram(c, me) && LocalProgram(rest, me)
    case _ => true
  }

  predicate LocalJob(j: Job, me: int) { Here(j.thread, me) && (j.Cb? ==> LocalProgram(j.body, me)) }

  predicate LocalRec(r: Rec, me: int) { r.left.Some? ==> LocalProgram(r.left.value, me) }

  /** Nothing is pinned to another thread, nor will be. */
  predicate Local(v: View, me: int) {
    && (forall i :: 0 <= i < |v.jobs| ==> LocalJob(v.jobs[i], me))
    && (forall k :: 0 <= k < |v.table| ==> LocalRec(v.table[k], me))
  }

  lemma {:induction false} SliceLocal(v: View, p: Program, me: int)
    requires Local(v, me) && LocalProgram(p, me)
    ensures var sl := RunSlice(v, p);
            Local(sl.view, me) && (sl.left.Some? ==> LocalProgram(sl.left.value, me))
    decreases p
  {
    if p.Spawn? { SliceLocal(Enqueue(v, p.child, p.asFiber, p.thread), p.rest, me); }
  }

  lemma StepLocal(v: View, me: int)
    requires Formed(v) && v.jobs != [] && Local(v, me)
    ensures Local(Step(v), me)
  {
    var rest := v.(jobs := v.jobs[1..]);
    match v.jobs[0]
    case Fib(k, _) =>
      if v.table[k].left.Some? {
        SliceLocal(rest, v.table[k].left.value, me);
        SliceGrows(rest, v.table[k].left.value);
      }
    case Cb(p, _) =>
      assert LocalJob(v.jobs[0], me);
      SliceLocal(rest, p, me);
  }

  /** What the loop's termination and result rest on. */
  lemma StepDrains(v: View, me: int)
    requires Formed(v) && v.jobs != [] && Local(v, me)
    ensures Formed(Step(v)) && Local(Step(v), me)
    ensures Drain(Step(v)) == Drain(v) && Weight(Step(v)) < Weight(v)
  {
    StepFormed(v);
    StepAccounts(v, 0);
    StepLocal(v, me);
  }
}
