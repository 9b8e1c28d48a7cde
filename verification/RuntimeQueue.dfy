/** The shared queue: which entry a worker takes, who serves a pinned one, and in what order. */
module RuntimeQueue {
  import opened Options
  import opened Runtime
  import opened RuntimeEffects
  import opened RuntimeInvariant
  import opened RuntimeTheorems
  import opened RuntimeDrain

  // ---------------------------------------------------------------- the pick

  /** Open to worker `w`: for any thread or this one, and its fiber not executing. */
  predicate OpenTo(s: State, e: Entry, w: nat) {
    (e.thread == -1 || e.thread == w) && !(e.task in s.status && s.status[e.task] == EXEC)
  }

  /** A worker can pick exactly if it is about to and some entry is open to it. It takes the first such entry, and the
      others keep their order. */
  lemma PickExactly(s: State, w: nat)
    requires Sized(s) && !s.aborted
    ensures Possible(s, Pick(w)) <==>
              At(s, w) && s.workers[w].Top? && exists i :: 0 <= i < |s.queue| && OpenTo(s, s.queue[i], w)
    ensures Possible(s, Pick(w)) ==>
              exists i :: 0 <= i < |s.queue| && TakenFrom(s, w, i) && OpenTo(s, s.queue[i], w)
                          && forall j :: 0 <= j < i ==> !OpenTo(s, s.queue[j], w)
  {
    if Possible(s, Pick(w)) {
      var i := FirstEligible(s.queue, s.status, w);
      assert Eligible(s.queue[i], s.status, w);
      assert TakenFrom(s, w, i) && OpenTo(s, s.queue[i], w);
    }
  }

  /** A worker in its idle fiber comes back to take what is open to it. */
  lemma IdleWorkerFindsWork(s: State, w: nat, i: nat)
    requires Sized(s) && !s.aborted && At(s, w) && s.workers[w].Idle? && i < |s.queue| && OpenTo(s, s.queue[i], w)
    ensures var es := [Leave(w), Pick(w)]; Run(s, es) && At(Exec(s, es), w) && Exec(s, es).workers[w].Picked?
  {
    var (es, s') := ([Leave(w), Pick(w)], Apply(s, Leave(w)));
    assert es[1..] == [Pick(w)] && [Pick(w)][1..] == [];
    assert OpenTo(s', s'.queue[i], w);
    PickExactly(s', w);
    OneStep(s', Pick(w));
  }

  lemma OneStep(s: State, e: Event)
    requires Possible(s, e)
    ensures Run(s, [e]) && Exec(s, [e]) == Apply(s, e)
  {
    var es := [e];
    assert es[1..] == [] && es[0] == e;
    assert Run(s, es);
    assert Exec(s, es) == Exec(Apply(s, e), es[1..]);
  }

  /** The worker has taken the `i`-th entry. */
  predicate TakenFrom(s: State, w: nat, i: nat)
    requires Possible(s, Pick(w))
  {
    && i < |s.queue| && Apply(s, Pick(w)).workers == s.workers[w := Picked(s.queue[i].task)]
    && Apply(s, Pick(w)).queue == s.queue[..i] + s.queue[i+1..]
  }

  // ---------------------------------------------------------------- pinned entries

  /** Every entry of the task is for this thread. */
  predicate AllFor(q: seq<Entry>, t: Task, thread: int) {
    forall i :: 0 <= i < |q| && q[i].task == t ==> q[i].thread == thread
  }

  /** The task is not queued again in this run. */
  ghost predicate NotQueuedAgain(s: State, es: seq<Event>, t: Task)
    requires Run(s, es)
    decreases |es|
  {
    es == [] || (Queued(Apply(s, es[0]).queue, t) <= Queued(s.queue, t) && NotQueuedAgain(Apply(s, es[0]), es[1..], t))
  }

  /** Whoever picks the task in this run is worker `v`. */
  ghost predicate OnlyTakenBy(s: State, es: seq<Event>, t: Task, v: int)
    requires Run(s, es)
    decreases |es|
  {
    es == [] || ((es[0].Pick? && Apply(s, es[0]).workers[es[0].w] == Picked(t) ==> es[0].w == v)
                 && OnlyTakenBy(Apply(s, es[0]), es[1..], t, v))
  }

  lemma {:induction false} InQueueCount(q: seq<Entry>, i: nat)
    requires i < |q|
    ensures Queued(q, q[i].task) > 0
  {
    if i < |q| - 1 { InQueueCount(q[..|q|-1], i); }
  }

  lemma AllForRemove(q: seq<Entry>, i: nat, t: Task, v: int)
    requires i < |q| && AllFor(q, t, v)
    ensures AllFor(RemoveAt(q, i), t, v)
  {
  }

  lemma AllForAppend(q: seq<Entry>, r: seq<Entry>, t: Task, v: int)
    requires AllFor(q, t, v) && Queued(q + r, t) <= Queued(q, t)
    ensures AllFor(q + r, t, v)
  {
    QueuedAppend(q, r, t);
    forall i | 0 <= i < |r| ensures r[i].task != t { InQueueCount(r, i); }
  }

  lemma AllForSub(q: seq<Entry>, a: Task, u: Task, t: Task, v: int)
    requires a != u && AllFor(q, t, v) && Queued(SubQueue(q, a, u), t) <= Queued(q, t)
    ensures AllFor(SubQueue(q, a, u), t, v)
  {
    SubQueued(q, a, u, t);
    forall i | 0 <= i < |q| && SubQueue(q, a, u)[i].task == t ensures q[i].thread == v {
      InQueueCount(q, i);
    }
  }

  lemma AllForStep(s: State, e: Event, t: Task, v: int)
    requires Possible(s, e) && AllFor(s.queue, t, v) && Queued(Apply(s, e).queue, t) <= Queued(s.queue, t)
    ensures AllFor(Apply(s, e).queue, t, v)
  {
    if e.Pick? {
      AllForRemove(s.queue, FirstEligible(s.queue, s.status, e.w), t, v);
    } else if e.SwapIn? {
      SwapInQueue(s, e.w);
      if Apply(s, e).queue != s.queue { AllForSub(s.queue, s.cbFibers[e.w].task, s.workers[e.w].task, t, v); }
    } else {
      var r := QueueStep(s, e);
      AllForAppend(s.queue, r, t, v);
    }
  }

  lemma SwapInQueue(s: State, w: nat)
    requires Possible(s, SwapIn(w))
    ensures var s' := Apply(s, SwapIn(w));
            || s'.queue == s.queue
            || (HandsOn(s, w) && s.cbFibers[w].task != s.workers[w].task
                && s'.queue == SubQueue(s.queue, s.cbFibers[w].task, s.workers[w].task))
  {
  }

  lemma {:induction false} PinKept(s: State, es: seq<Event>, t: Task, v: int)
    requires Run(s, es) && NotQueuedAgain(s, es, t) && AllFor(s.queue, t, v) && v != -1
    ensures OnlyTakenBy(s, es, t, v)
    decreases |es|
  {
    if es != [] {
      AllForStep(s, es[0], t, v);
      if es[0].Pick? { PickedForThread(s, es[0].w, t, v); }
      PinKept(Apply(s, es[0]), es[1..], t, v);
    }
  }

  lemma PickedForThread(s: State, w: nat, t: Task, v: int)
    requires Possible(s, Pick(w)) && AllFor(s.queue, t, v) && v != -1
    ensures Apply(s, Pick(w)).workers[w] == Picked(t) ==> w == v
  {
    PickExactly(s, w);
    var i :| 0 <= i < |s.queue| && TakenFrom(s, w, i) && OpenTo(s, s.queue[i], w);
  }

  lemma AllForPush(q: seq<Entry>, e: Entry)
    requires Queued(q, e.task) == 0
    ensures AllFor(q + [e], e.task, e.thread)
  {
    forall i | 0 <= i < |q + [e]| && (q + [e])[i].task == e.task ensures (q + [e])[i].thread == e.thread {
      if i < |q| { InQueueCount(q, i); }
    }
  }

  /** In every run: a task scheduled for a thread, new or not queued before, is picked by that worker alone, until it is
      queued again. */
  lemma ServedByItsThread(s: State, n: nat, caller: bool, es: seq<Event>, e: Event, t: Task, later: seq<Event>)
    requires Visited(s, n, caller, es) && Possible(s, e) && (e.Submit? || e.Wake?) && e.thread != -1
    requires t == (if e.Submit? then e.t else Heir(s, e.t)) && (e.Wake? ==> Queued(s.queue, t) == 0)
    requires Run(Apply(s, e), later) && NotQueuedAgain(Apply(s, e), later, t)
    ensures Apply(s, e).queue == s.queue + [Entry(t, e.thread)]
    ensures OnlyTakenBy(Apply(s, e), later, t, e.thread)
  {
    VisitedSane(s, n, caller, es);
    assert Loose(s, t);
    AllForPush(s.queue, Entry(t, e.thread));
    PinKept(Apply(s, e), later, t, e.thread);
  }

  // ---------------------------------------------------------------- who pins

  predicate Pins(e: Event, thread: int) { (e.Submit? || e.Wake?) && e.thread == thread }

  ghost predicate SomeFor(q: seq<Entry>, thread: int) { exists i :: 0 <= i < |q| && q[i].thread == thread }

  lemma PinsStep(s: State, e: Event, thread: int)
    requires Possible(s, e) && thread != -1 && SomeFor(Apply(s, e).queue, thread)
    ensures SomeFor(s.queue, thread) || Pins(e, thread)
  {
    var q := Apply(s, e).queue;
    var i :| 0 <= i < |q| && q[i].thread == thread;
    if e.Pick? {
      var k := FirstEligible(s.queue, s.status, e.w);
      assert q[i] == s.queue[if i < k then i else i + 1];
    } else if e.SwapIn? {
      SwapInQueue(s, e.w);
      assert s.queue[i].thread == thread;
    } else {
      PinsAppend(s, e, thread);
    }
  }

  lemma PinsAppend(s: State, e: Event, thread: int)
    requires Possible(s, e) && !e.Pick? && !e.SwapIn? && thread != -1 && SomeFor(Apply(s, e).queue, thread)
    ensures SomeFor(s.queue, thread) || Pins(e, thread)
  {
    var r := Added(s, e);
    var i :| 0 <= i < |s.queue + r| && (s.queue + r)[i].thread == thread;
    if i < |s.queue| { assert s.queue[i].thread == thread; }
  }

  /** What a step adds to the queue: only submissions and wake-ups may be for one thread. */
  lemma Added(s: State, e: Event) returns (r: seq<Entry>)
    requires Possible(s, e) && !e.Pick? && !e.SwapIn?
    ensures Apply(s, e).queue == s.queue + r
    ensures !e.Submit? && !e.Wake? ==> forall i :: 0 <= i < |r| ==> r[i].thread == -1
    ensures e.Submit? || e.Wake? ==> forall i :: 0 <= i < |r| ==> r[i].thread == e.thread
  {
    r := QueueStep(s, e);
    assert r == Apply(s, e).queue[|s.queue|..];
  }

  lemma {:induction false} PinsRun(s: State, es: seq<Event>, thread: int)
    requires Run(s, es) && thread != -1 && SomeFor(Exec(s, es).queue, thread)
    ensures SomeFor(s.queue, thread) || exists i :: 0 <= i < |es| && Pins(es[i], thread)
    decreases |es|
  {
    if es != [] {
      PinsRun(Apply(s, es[0]), es[1..], thread);
      if i :| 0 <= i < |es[1..]| && Pins(es[1..][i], thread) {
        assert Pins(es[i+1], thread);
      } else {
        PinsStep(s, es[0], thread);
      }
    }
  }

  /** In every run an entry for one thread was put there by a client that asked for it: neither a trigger, nor a timer,
      nor a READY fiber is ever pinned. */
  lemma OnlyClientsPin(s: State, n: nat, caller: bool, es: seq<Event>, i: nat)
    requires Visited(s, n, caller, es) && i < |s.queue| && s.queue[i].thread != -1
    ensures exists k :: 0 <= k < |es| && Pins(es[k], s.queue[i].thread)
  {
    PinsRun(Init(n, caller), es, s.queue[i].thread);
  }

  // ---------------------------------------------------------------- order

  /** Where the `i`-th entry has got to, if it was not picked. */
  ghost function Place(s: State, es: seq<Event>, i: nat): Option<nat>
    requires Run(s, es)
    decreases |es|
  {
    if es == [] then Some(i)
    else
      var k := if es[0].Pick? then FirstEligible(s.queue, s.status, es[0].w) else |s.queue|;
      if k == i then None else Place(Apply(s, es[0]), es[1..], if k < i then i - 1 else i)
  }

  /** No fiber of the task is given to another one in this run. */
  ghost predicate KeepsFiber(s: State, es: seq<Event>, t: Task)
    requires Run(s, es)
    decreases |es|
  {
    es == [] || (!(es[0].SwapIn? && HandsOn(s, es[0].w) && s.cbFibers[es[0].w].task == t)
                 && KeepsFiber(Apply(s, es[0]), es[1..], t))
  }

  lemma PlaceStep(s: State, e: Event, i: nat) returns (j: nat)
    requires Possible(s, e) && i < |s.queue| && !(e.Pick? && FirstEligible(s.queue, s.status, e.w) == i)
    ensures j == if e.Pick? && FirstEligible(s.queue, s.status, e.w) < i then i - 1 else i
    ensures var q := Apply(s, e).queue;
            && j < |q| && q[j].thread == s.queue[i].thread
            && (!(e.SwapIn? && HandsOn(s, e.w) && s.cbFibers[e.w].task == s.queue[i].task) ==> q[j] == s.queue[i])
  {
    j := if e.Pick? && FirstEligible(s.queue, s.status, e.w) < i then i - 1 else i;
    if e.Pick? { }
    else if e.SwapIn? { SwapInQueue(s, e.w); }
    else { var r := QueueStep(s, e); }
  }

  /** First come, first served, in every run: an entry that nobody has picked never gets further back, */
  lemma {:induction false} NeverOvertaken(s: State, es: seq<Event>, i: nat)
    requires Run(s, es) && i < |s.queue|
    ensures var (p, q) := (Place(s, es, i), Exec(s, es).queue);
            p.Some? ==>
              && p.value <= i && p.value < |q| && q[p.value].thread == s.queue[i].thread
              && (KeepsFiber(s, es, s.queue[i].task) ==> q[p.value] == s.queue[i])
    decreases |es|
  {
    if es != [] && !(es[0].Pick? && FirstEligible(s.queue, s.status, es[0].w) == i) {
      var j := PlaceStep(s, es[0], i);
      NeverOvertaken(Apply(s, es[0]), es[1..], j);
    }
  }

  /** and what is behind it stays behind it. */
  lemma {:induction false} OrderKept(s: State, es: seq<Event>, i: nat, j: nat)
    requires Run(s, es) && i < j < |s.queue|
    ensures Place(s, es, i).Some? && Place(s, es, j).Some? ==> Place(s, es, i).value < Place(s, es, j).value
    decreases |es|
  {
    if es != [] {
      var k := if es[0].Pick? then FirstEligible(s.queue, s.status, es[0].w) else |s.queue|;
      if k != i && k != j {
        var i' := PlaceStep(s, es[0], i);
        var j' := PlaceStep(s, es[0], j);
        OrderKept(Apply(s, es[0]), es[1..], i', j');
      }
    }
  }
}
