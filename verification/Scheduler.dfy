/** `Scheduler` with the caller's thread as its only worker: the objects it works on, proved against
    the value-level turns of SchedulerSpec. */
module Schedulers {
  import opened Options
  import opened Runtime
  import opened SchedulerSpec

  class Fiber {
    var state: Status
    var left: Option<Program>      // what the fiber has left to do

    constructor (p: Program)
      ensures state == INIT && left == Some(p)
    {
      state, left := INIT, Some(p);
    }

    /** reset: only a fiber that never started or has finished is given a new function. */
    method Reset(cb: Option<Program>)
      requires state == TERM || state == EXCEPT || state == INIT
      modifies this
      ensures state == INIT && left == cb
    {
      left := cb;
      state := INIT;
    }
  }

  /** FiberAndThread. */
  datatype Node = Node(fiber: Fiber?, cb: Option<Program>, thread: int)

  const NOTHING: Node := Node(null, None, -1)

  /** An element of a batch: a fiber, a callback, or an empty slot. */
  datatype Work = FiberWork(f: Fiber) | CbWork(p: Program) | NoWork

  predicate Matches(n: Node, j: Job, slots: seq<Fiber>) {
    && n.thread == j.thread
    && match j
       case Fib(k, _) => k < |slots| && n.fiber == slots[k] && n.cb.None?
       case Cb(p, _) => n.fiber == null && n.cb == Some(p)
  }

  class Scheduler {
    const me: int                  // m_rootThread
    var fibers: seq<Node>
    var active: nat
    var idleCount: nat
    var autoStop: bool
    var stopping: bool
    var root: Status               // of m_rootFiber
    var ended: seq<nat>            // what tasks have ended, in order
    ghost var v: View
    ghost var slots: seq<Fiber>    // the fibers that were ever scheduled, as numbered in `v`

    /** `v` tells the state of every known fiber but `f`. */
    ghost predicate TableOk(f: Fiber?)
      reads this, slots
    {
      && |slots| == |v.table|
      && (forall i, j :: 0 <= i < j < |slots| ==> slots[i] != slots[j])
      && (forall k :: 0 <= k < |slots| && slots[k] != f ==> v.table[k] == Rec(slots[k].state, slots[k].left))
    }

    ghost predicate QueueOk()
      reads this
    {
      && |fibers| == |v.jobs| && ended == v.log
      && (forall i :: 0 <= i < |fibers| ==> Matches(fibers[i], v.jobs[i], slots))
    }

    ghost predicate Valid()
      reads this, slots
    {
      TableOk(null) && QueueOk() && Formed(v)
    }

    constructor (me: int)
      ensures Valid() && v == View([], [], []) && this.me == me
      ensures active == 0 && root == INIT && stopping && !autoStop
    {
      this.me := me;
      fibers, active, idleCount, autoStop, stopping, root, ended := [], 0, 0, false, true, INIT, [];
      v, slots := View([], [], []), [];
    }

    /** start() makes no thread when the caller is the only worker. */
    method Start()
      modifies this`stopping
      ensures !stopping
    {
      stopping := false;
    }

    // -------------------------------------------------------------- scheduling

    /** Bookkeeping: a fiber gets its number when it is first scheduled. */
    ghost method Know(f: Fiber) returns (k: nat)
      requires Valid() && FormedRec(Rec(f.state, f.left))
      modifies this`v, this`slots
      ensures Valid() && k < |slots| && slots[k] == f
      ensures if f in old(slots) then v == old(v) && slots == old(slots)
              else v == old(v).(table := old(v).table + [Rec(f.state, f.left)]) && slots == old(slots) + [f]
    {
      if f in slots {
        k :| 0 <= k < |slots| && slots[k] == f;
      } else {
        k := |slots|;
        slots := slots + [f];
        v := v.(table := v.table + [Rec(f.state, f.left)]);
      }
    }

    /** scheduleNoLock: an empty node is not queued, but whether the queue was empty is told either way. */
    method ScheduleNoLock(n: Node, ghost k: nat) returns (needTickle: bool)
      requires QueueOk()
      requires n.fiber == null || (n.cb.None? && k < |slots| && slots[k] == n.fiber)
      modifies this`fibers, this`v
      ensures QueueOk()
      ensures needTickle == (old(fibers) == [])
      ensures fibers == if n.fiber == null && n.cb.None? then old(fibers) else old(fibers) + [n]
      ensures v == if n.fiber != null then old(v).(jobs := old(v).jobs + [Fib(k, n.thread)])
                   else if n.cb.Some? then old(v).(jobs := old(v).jobs + [Cb(n.cb.value, n.thread)])
                   else old(v)
    {
      needTickle := fibers == [];
      if n.fiber != null || n.cb.Some? {
        fibers := fibers + [n];
        v := v.(jobs := v.jobs + [if n.fiber != null then Fib(k, n.thread) else Cb(n.cb.value, n.thread)]);
      }
    }

    /** schedule() of a callback. */
    method ScheduleCallback(p: Program, thread: int) returns (tickled: bool)
      requires Valid()
      modifies this`fibers, this`v
      ensures Valid() && tickled == (old(fibers) == [])
      ensures fibers == old(fibers) + [Node(null, Some(p), thread)]
      ensures v == Enqueue(old(v), p, false, thread)
    {
      tickled := ScheduleNoLock(Node(null, Some(p), thread), 0);
    }

    /** schedule() of a fiber, whether it was queued before or not. */
    method ScheduleFiber(f: Fiber, thread: int) returns (tickled: bool)
      requires Valid() && FormedRec(Rec(f.state, f.left))
      modifies this`fibers, this`v, this`slots
      ensures Valid() && tickled == (old(fibers) == [])
      ensures fibers == old(fibers) + [Node(f, None, thread)]
      ensures f in old(slots) ==> slots == old(slots) && v.table == old(v).table
      ensures f !in old(slots) ==> slots == old(slots) + [f] && v.table == old(v).table + [Rec(f.state, f.left)]
    {
      ghost var k := Know(f);
      tickled := ScheduleNoLock(Node(f, None, thread), k);
    }

    /** The batch schedule(), of fibers or of callbacks: they are swapped out of their slots, empty ones are
        dropped, and one tickle is due if the queue was empty and the batch was not. */
    method ScheduleBatch(batch: array<Work>) returns (tickled: bool)
      requires Valid()
      requires forall i :: 0 <= i < batch.Length && batch[i].FiberWork? ==>
                 FormedRec(Rec(batch[i].f.state, batch[i].f.left))
      modifies this`fibers, this`v, this`slots, batch
      ensures Valid()
      ensures tickled == (old(fibers) == [] && batch.Length > 0)
      ensures fibers == old(fibers) + Nodes(old(batch[..]))
      ensures forall i :: 0 <= i < batch.Length ==> batch[i].NoWork?
    {
      tickled := false;
      for i := 0 to batch.Length
        invariant Valid()
        invariant tickled == (old(fibers) == [] && i > 0)
        invariant fibers == old(fibers) + Nodes(old(batch[..])[..i])
        invariant forall j :: 0 <= j < i ==> batch[j].NoWork?
        invariant forall j :: i <= j < batch.Length ==> batch[j] == old(batch[..])[j]
      {
        assert old(batch[..])[..i+1][..i] == old(batch[..])[..i];
        var w := batch[i];
        batch[i] := NoWork;
        var t := ScheduleWork(w);
        tickled := t || tickled;
      }
      assert old(batch[..])[..batch.Length] == old(batch[..]);
    }

    /** One element of a batch. */
    method ScheduleWork(w: Work) returns (needTickle: bool)
      requires Valid() && (w.FiberWork? ==> FormedRec(Rec(w.f.state, w.f.left)))
      modifies this`fibers, this`v, this`slots
      ensures Valid() && needTickle == (old(fibers) == [])
      ensures fibers == old(fibers) + NodeOf(w)
    {
      match w
      case FiberWork(f) =>
        ghost var k := Know(f);
        needTickle := ScheduleNoLock(Node(f, None, -1), k);
      case CbWork(p) => needTickle := ScheduleNoLock(Node(null, Some(p), -1), 0);
      case NoWork => needTickle := ScheduleNoLock(NOTHING, 0);
    }

    // -------------------------------------------------------------- pick

    predicate Elsewhere(n: Node) { n.thread != -1 && n.thread != me }

    predicate Runnable(n: Node)
      reads n.fiber
    {
      !Elsewhere(n) && (n.fiber != null ==> n.fiber.state != EXEC)
    }

    /** The scan under the lock: the first runnable node is taken out and counted, the others keep their
        order; the other workers are to be woken if a node was passed over for its thread or one follows. */
    method PickTask() returns (ft: Node, tickle: bool, picked: bool, ghost at: nat)
      requires QueueOk()
      modifies this`fibers, this`v, this`active
      ensures QueueOk()
      ensures at <= |old(fibers)| && picked == (at < |old(fibers)|)
      ensures forall j :: 0 <= j < at ==> !Runnable(old(fibers)[j])
      ensures picked ==> Runnable(ft) && ft == old(fibers)[at]
      ensures picked ==> fibers == RemoveAt(old(fibers), at) && active == old(active) + 1
      ensures picked ==> v == old(v).(jobs := RemoveAt(old(v).jobs, at))
      ensures !picked ==> ft == NOTHING && fibers == old(fibers) && active == old(active) && v == old(v)
      ensures tickle <==> (exists j :: 0 <= j < at && Elsewhere(old(fibers)[j])) || at + 1 < |old(fibers)|
    {
      ft, tickle, picked := NOTHING, false, false;
      var i := 0;
      while i < |fibers| && !picked
        invariant i <= |fibers| && !picked
        invariant forall j :: 0 <= j < i ==> !Runnable(fibers[j])
        invariant tickle <==> exists j :: 0 <= j < i && Elsewhere(fibers[j])
        invariant fibers == old(fibers) && active == old(active) && v == old(v)
      {
        var n := fibers[i];
        if n.thread != -1 && n.thread != me {
          tickle := true;
          i := i + 1;
          continue;
        }
        if n.fiber != null && n.fiber.state == EXEC {
          i := i + 1;
          continue;
        }
        break;
      }
      at := i;
      if i < |fibers| {
        ft, picked := fibers[i], true;
        fibers := RemoveAt(fibers, i);
        v := v.(jobs := RemoveAt(v.jobs, i));
        active := active + 1;
        tickle := tickle || i < |fibers|;
      }
    }

    // -------------------------------------------------------------- running a fiber

    /** The body of a task up to where it leaves: it schedules others as it goes. `f` is the fiber it runs on. */
    method Execute(p: Program, ghost f: Fiber?) returns (state: Status, left: Option<Program>)
      requires TableOk(f) && QueueOk() && Formed(v)
      modifies this`fibers, this`v, this`slots, this`ended
      ensures TableOk(f) && QueueOk() && Formed(v)
      ensures Slice(v, state, left) == RunSlice(old(v), p)
      ensures |slots| >= |old(slots)| && slots[..|old(slots)|] == old(slots)
      ensures forall k :: |old(slots)| <= k < |slots| ==> fresh(slots[k])
    {
      var cur := p;
      while cur.Spawn?
        invariant TableOk(f) && QueueOk() && Formed(v)
        invariant RunSlice(v, cur) == RunSlice(old(v), p)
        invariant |slots| >= |old(slots)| && slots[..|old(slots)|] == old(slots)
        invariant forall k :: |old(slots)| <= k < |slots| ==> fresh(slots[k])
        decreases cur
      {
        SpawnOne(cur.child, cur.asFiber, cur.thread, f);
        cur := cur.rest;
      }
      match cur
      case Return(tag) => End(tag); state, left := TERM, None;
      case Throw(tag) => End(tag); state, left := EXCEPT, None;
      case Ready(rest) => state, left := READY, Some(rest);
      case Hold(rest) => state, left := EXEC, Some(rest);
    }

    method End(tag: nat)
      modifies this`v, this`ended
      ensures ended == old(ended) + [tag] && v == old(v).(log := old(v).log + [tag])
    {
      ended := ended + [tag];
      v := v.(log := v.log + [tag]);
    }

    /** schedule() from inside a task: a new fiber, or a callback. */
    method SpawnOne(p: Program, asFiber: bool, thread: int, ghost f: Fiber?)
      requires TableOk(f) && QueueOk() && Formed(v)
      modifies this`fibers, this`v, this`slots
      ensures TableOk(f) && QueueOk() && Formed(v)
      ensures v == Enqueue(old(v), p, asFiber, thread)
      ensures |slots| >= |old(slots)| && slots[..|old(slots)|] == old(slots)
      ensures forall k :: |old(slots)| <= k < |slots| ==> fresh(slots[k])
    {
      if asFiber {
        var n := new Fiber(p);
        slots := slots + [n];
        v := v.(table := v.table + [Rec(INIT, Some(p))]);
        var t := ScheduleNoLock(Node(n, None, thread), |slots| - 1);
      } else {
        var t := ScheduleNoLock(Node(null, Some(p), thread), 0);
      }
    }

    /** swapIn, and what the fiber does until it swaps out. */
    method SwapIn(f: Fiber)
      requires TableOk(f) && QueueOk() && Formed(v)
      requires f.state != EXEC && f.left.Some?
      modifies f, this`fibers, this`v, this`slots, this`ended
      ensures TableOk(f) && QueueOk() && Formed(v)
      ensures Slice(v, f.state, f.left) == RunSlice(old(v), old(f.left.value))
      ensures |slots| >= |old(slots)| && slots[..|old(slots)|] == old(slots)
      ensures forall k :: |old(slots)| <= k < |slots| ==> fresh(slots[k])
    {
      f.state := EXEC;
      var state, left := Execute(f.left.value, f);
      f.state := state;
      f.left := left;
    }
  
    /** The branch for fibers: run it, count it off, and queue it again if it is READY. */
    method RunFiber(f: Fiber, ghost k: nat)
      requires Valid() && k < |slots| && slots[k] == f && f.left.Some? && active > 0
      modifies f, this`fibers, this`v, this`slots, this`ended, this`active
      ensures Valid() && v == StepFiber(old(v), k) && active == old(active) - 1
      ensures |slots| >= |old(slots)| && slots[..|old(slots)|] == old(slots)
      ensures forall i :: |old(slots)| <= i < |slots| ==> fresh(slots[i])
    {
      assert v.table[k].left == f.left;
      SwapIn(f);
      SliceEnds(old(v), old(f.left.value));
      assert slots[k] == f by { assert slots[k] == slots[..|old(slots)|][k]; }
      active := active - 1;
      AfterRun(f, k);
    }

    /** What the loop does with a fiber that swapped out: queue it again, or mark it HOLD, or leave it. */
    method AfterRun(f: Fiber, ghost k: nat)
      requires TableOk(f) && QueueOk() && Formed(v) && k < |slots| && slots[k] == f
      requires ((f.state == READY || f.state == EXEC) && f.left.Some?) || (Finished(f.state) && f.left.None?)
      modifies f`state, this`fibers, this`v
      ensures Valid()
      ensures var w := old(v).(table := old(v).table[k := Rec(Marked(old(f.state)), f.left)]);
              v == if old(f.state) == READY then Requeue(w, k) else w
    {
      v := v.(table := v.table[k := Rec(Marked(f.state), f.left)]);
      if f.state == READY {
        var t := ScheduleNoLock(Node(f, None, -1), k);
      } else if f.state != TERM && f.state != EXCEPT {
        f.state := HOLD;
      }
    }

    /** The fiber kept for callbacks: known to nobody else and ready to be given a function. */
    ghost predicate Spare(c: Fiber?)
      reads this, c
    {
      c != null ==> c !in slots && c.state == INIT
    }

    /** The branch for callbacks: run it on the spare fiber or on a new one. If it is not through, that fiber
        is queued or put on HOLD like any other and is spare no more. */
    method RunCallback(p: Program, spare: Fiber?) returns (kept: Fiber?)
      requires Valid() && Spare(spare) && active > 0
      modifies spare, this`fibers, this`v, this`slots, this`ended, this`active
      ensures Valid() && v == StepCallback(old(v), p) && active == old(active) - 1
      ensures Spare(kept) && (kept == spare || kept == null || fresh(kept))
      ensures |slots| >= |old(slots)| && slots[..|old(slots)|] == old(slots)
      ensures forall i :: |old(slots)| <= i < |slots| ==> fresh(slots[i]) || slots[i] == spare
    {
      var c: Fiber;
      if spare != null {
        c := spare;
        c.Reset(Some(p));
      } else {
        c := new Fiber(p);
      }
      assert c !in slots;
      SwapIn(c);
      SliceEnds(old(v), p);
      active := active - 1;
      if c.state == READY || c.state == EXEC {
        Dismiss(c);
        kept := null;
      } else {
        c.Reset(None);
        kept := c;
      }
    }

    /** A callback's fiber that is not through is given up: queued again, or marked HOLD. */
    method Dismiss(c: Fiber)
      requires TableOk(null) && QueueOk() && Formed(v) && c !in slots
      requires c.left.Some? && (c.state == READY || c.state == EXEC)
      modifies c, this`fibers, this`v, this`slots
      ensures Valid() && slots == old(slots) + [c]
      ensures var w := old(v).(table := old(v).table + [Rec(Marked(old(c.state)), old(c.left))]);
              v == if old(c.state) == READY then Requeue(w, |old(slots)|) else w
    {
      slots := slots + [c];
      v := v.(table := v.table + [Rec(Marked(c.state), c.left)]);
      AfterRun(c, |slots| - 1);
    }

    // -------------------------------------------------------------- run and stop

    /** stopping() of the base class. */
    predicate StoppingNow()
      reads this
    {
      autoStop && stopping && fibers == [] && active == 0
    }

    /** One stay in the idle fiber: it ends if the scheduler is stopping and yields otherwise. */
    method IdleTurn() returns (state: Status)
      ensures state == if StoppingNow() then TERM else EXEC
    {
      state := if StoppingNow() then TERM else EXEC;
    }
  
    /** Running here at all times: no node or program pinned elsewhere, no running fiber in the queue. */
    lemma FirstRuns()
      requires Valid() && Local(v, me) && fibers != []
      ensures Runnable(fibers[0])
    {
      assert LocalJob(v.jobs[0], me) && Matches(fibers[0], v.jobs[0], slots);
      if v.jobs[0].Fib? { assert FormedRec(v.table[v.jobs[0].k]); }
    }

    /** The three branches for a node that was picked. */
    method Dispatch(ft: Node, spare: Fiber?, ghost j: Job) returns (kept: Fiber?)
      requires Valid() && Spare(spare) && active > 0 && Matches(ft, j, slots)
      modifies spare, ft.fiber, this`fibers, this`v, this`slots, this`ended, this`active
      ensures Valid() && Spare(kept) && active == old(active) - 1
      ensures v == match j case Fib(k, _) => StepFiber(old(v), k) case Cb(p, _) => StepCallback(old(v), p)
      ensures kept == spare || kept == null || fresh(kept)
      ensures |slots| >= |old(slots)| && slots[..|old(slots)|] == old(slots)
      ensures forall i :: |old(slots)| <= i < |slots| ==> fresh(slots[i]) || slots[i] == spare
    {
      kept := spare;
      if ft.fiber != null && ft.fiber.state != TERM && ft.fiber.state != EXCEPT {
        RunFiber(ft.fiber, j.k);
      } else if ft.cb.Some? {
        kept := RunCallback(ft.cb.value, spare);
      } else {
        active := active - 1;
      }
    }

    /** The loop body: a turn on the queue, or a stay in the idle fiber, or the end. */
    method Turn(idle: Status, spare: Fiber?) returns (idleNow: Status, kept: Fiber?, over: bool)
      requires Valid() && Local(v, me) && active == 0 && autoStop && stopping && Spare(spare)
      requires idle == INIT || idle == TERM
      modifies spare, this`fibers, this`v, this`slots, this`ended, this`active, this`idleCount, set f | f in slots
      ensures Valid() && Spare(kept) && active == 0 && idleCount == old(idleCount)
      ensures old(fibers) != [] ==> v == Step(old(v)) && idleNow == idle && !over
      ensures old(fibers) == [] ==> v == old(v) && fibers == [] && over == (idle == TERM) && idleNow == TERM
      ensures kept == spare || kept == null || fresh(kept)
      ensures forall f :: f in slots ==> f in old(slots) || fresh(f) || f == spare
    {
      idleNow, kept, over := idle, spare, false;
      if fibers != [] { FirstRuns(); }
      ghost var before := v;
      var ft, tickle, picked, at := PickTask();
      if picked {
        assert RemoveAt(before.jobs, 0) == before.jobs[1..];
        kept := Dispatch(ft, spare, before.jobs[0]);
        assert forall i :: 0 <= i < |old(slots)| ==> slots[i] == slots[..|old(slots)|][i];
      } else if idle == TERM {
        over := true;
      } else {
        idleCount := idleCount + 1;
        var left := IdleTurn();
        idleNow := Marked(left);
        idleCount := idleCount - 1;
      }
    }

    /** run(), entered from stop(): it ends, and what it leaves is what the queue comes to when drained. */
    method Run()
      requires Valid() && Local(v, me) && active == 0 && autoStop && stopping
      modifies this`fibers, this`v, this`slots, this`ended, this`active, this`idleCount, slots
      ensures Valid() && v == Drain(old(v)) && fibers == []
      ensures active == 0 && idleCount == old(idleCount)
    {
      var idle := INIT;
      var spare: Fiber? := null;
      var over := false;
      ghost var known := slots;
      while !over
        invariant Valid() && Local(v, me) && Drain(v) == Drain(old(v))
        invariant active == 0 && idleCount == old(idleCount)
        invariant idle == INIT || idle == TERM
        invariant over ==> fibers == []
        invariant Spare(spare) && (spare == null || fresh(spare))
        invariant forall f :: f in slots ==> f in known || fresh(f)
        decreases Weight(v), if idle == TERM then 0 else 1, if over then 0 else 1
      {
        if v.jobs != [] { StepDrains(v, me); }
        idle, spare, over := Turn(idle, spare);
      }
    }

    /** What a drained scheduler means for the objects: every fiber it knows has finished, and the ends it
        has seen are those of all the work there was. */
    lemma Drained(before: View)
      requires Valid() && Formed(before) && v == Drain(before) && Complete(before)
      ensures forall k :: 0 <= k < |slots| ==> Finished(slots[k].state)
      ensures forall l :: Sum(ended, Logged(l)) == Accounted(before, l)
    {
      forall l: nat ensures Sum(ended, Logged(l)) == Accounted(before, l) { DrainFinishesEverything(before, l); }
      DrainFinishesEverything(before, 0);
    }

    /** stop(). It fails (by the assertion at the end of the root fiber's function) if the root fiber has run
        before and there is something to do again. */
    method Stop() returns (ok: bool)
      requires Valid() && Local(v, me) && active == 0 && (root == INIT || root == TERM)
      modifies this`fibers, this`v, this`slots, this`ended, this`active, this`idleCount,
               this`root, this`autoStop, this`stopping, slots
      ensures ok <==> old(root) == INIT || old(fibers) == []
      ensures autoStop && stopping
      ensures ok ==> Valid() && v == Drain(old(v)) && fibers == [] && active == 0
      ensures ok && Complete(old(v)) ==> forall k :: 0 <= k < |slots| ==> Finished(slots[k].state)
      ensures ok && Complete(old(v)) ==> forall l :: Sum(ended, Logged(l)) == Accounted(old(v), l)
    {
      autoStop := true;
      stopping := true;
      if StoppingNow() {
        if Complete(old(v)) { Drained(old(v)); }
        return true;
      }
      if root == TERM {
        return false;
      }
      root := EXEC;
      Run();
      root := TERM;
      if Complete(old(v)) { Drained(old(v)); }
      return true;
    }
  }

  /** The nodes a batch puts into the queue. */
  function Nodes(batch: seq<Work>): seq<Node> {
    if batch == [] then [] else Nodes(batch[..|batch|-1]) + NodeOf(batch[|batch|-1])
  }

  function NodeOf(w: Work): seq<Node> {
    match w
    case FiberWork(f) => [Node(f, None, -1)]
    case CbWork(p) => [Node(null, Some(p), -1)]
    case NoWork => []
  }
}
