/** What every step of the scheduler machine does to what is held of a task, and to the counters. */
module RuntimeEffects {
  import opened Counting
  import opened Runtime

  // ---------------------------------------------------------------- sums over workers and queue

  /** Replacing one worker's position replaces its share of the totals. */
  lemma {:induction false} SetWorker(ws: seq<Pc>, w: nat, pc: Pc, t: Task)
    requires w < |ws|
    ensures var (a, b, x, y) := (Total(ws, t), Total(ws[w := pc], t), Of(ws[w], t), Of(pc, t));
            && b.picked + x.picked == a.picked + y.picked && b.batch + x.batch == a.batch + y.batch
            && b.running + x.running == a.running + y.running && b.out + x.out == a.out + y.out
  {
    var n := |ws| - 1;
    if w == n {
      assert ws[w := pc][..n] == ws[..n];
    } else {
      assert ws[w := pc][..n] == ws[..n][w := pc];
      SetWorker(ws[..n], w, pc, t);
    }
  }

  lemma {:induction false} SetActive(ws: seq<Pc>, w: nat, pc: Pc)
    requires w < |ws|
    ensures Active(ws[w := pc]) + B(IsActive(ws[w])) == Active(ws) + B(IsActive(pc))
  {
    var n := |ws| - 1;
    if w == n {
      assert ws[w := pc][..n] == ws[..n];
    } else {
      assert ws[w := pc][..n] == ws[..n][w := pc];
      SetActive(ws[..n], w, pc);
    }
  }

  /** A worker's own share is part of the total. */
  lemma {:induction false} Share(ws: seq<Pc>, w: nat, t: Task)
    requires w < |ws|
    ensures var (a, x) := (Total(ws, t), Of(ws[w], t));
            a.picked >= x.picked && a.batch >= x.batch && a.running >= x.running && a.out >= x.out
  {
    if w < |ws| - 1 {
      Share(ws[..|ws|-1], w, t);
    }
  }

  lemma {:induction false} QueuedAppend(q: seq<Entry>, r: seq<Entry>, t: Task)
    ensures Queued(q + r, t) == Queued(q, t) + Queued(r, t)
  {
    if r == [] {
      assert q + r == q;
    } else {
      assert (q + r)[..|q + r| - 1] == q + r[..|r| - 1];
      QueuedAppend(q, r[..|r| - 1], t);
    }
  }

  lemma QueuedPush(q: seq<Entry>, e: Entry, t: Task)
    ensures Queued(q + [e], t) == Queued(q, t) + Is(e.task, t)
  {
    assert (q + [e])[..|q|] == q;
  }

  lemma QueuedRemove(q: seq<Entry>, i: nat, t: Task)
    requires i < |q|
    ensures Queued(q, t) == Queued(RemoveAt(q, i), t) + Is(q[i].task, t)
  {
    assert q == (q[..i] + [q[i]]) + q[i+1..];
    QueuedAppend(q[..i] + [q[i]], q[i+1..], t);
    QueuedPush(q[..i], q[i], t);
    QueuedAppend(q[..i], q[i+1..], t);
  }

  lemma {:induction false} QueuedEntries(ts: seq<Task>, t: Task)
    ensures Queued(Entries(ts), t) == Occurrences(ts, t)
  {
    if ts == [] {
      assert Entries(ts) == [];
    } else {
      assert Entries(ts)[..|ts|-1] == Entries(ts[..|ts|-1]);
      QueuedEntries(ts[..|ts|-1], t);
    }
  }

  lemma {:induction false} OccurrencesOf(ts: seq<Task>, t: Task)
    ensures Occurrences(ts, t) == multiset(ts)[t]
  {
    if ts != [] {
      var n := |ts| - 1;
      OccurrencesOf(ts[..n], t);
      assert ts == ts[..n] + [ts[n]];
    }
  }

  // ---------------------------------------------------------------- handing a fiber on

  lemma {:induction false} SubQueued(q: seq<Entry>, a: Task, u: Task, t: Task)
    requires a != u
    ensures Queued(SubQueue(q, a, u), t)
         == if t == a then 0 else Queued(q, t) + if t == u then Queued(q, a) else 0
  {
    if q != [] {
      var n := |q| - 1;
      assert SubQueue(q, a, u)[..n] == SubQueue(q[..n], a, u);
      SubQueued(q[..n], a, u, t);
    }
  }

  function SubTally(x: Tally, z: Tally, a: Task, u: Task, t: Task): Tally {
    if t == a then Tally(0, x.batch, 0, 0)
    else if t == u then Tally(x.picked + z.picked, x.batch, x.running + z.running, x.out + z.out)
    else x
  }

  lemma SubOf(pc: Pc, a: Task, u: Task, t: Task)
    requires a != u
    ensures Of(SubPc(pc, a, u), t) == SubTally(Of(pc, t), Of(pc, a), a, u, t)
  {
  }

  lemma {:induction false} SubTotal(ws: seq<Pc>, a: Task, u: Task, t: Task)
    requires a != u
    ensures Total(SubWorkers(ws, a, u), t) == SubTally(Total(ws, t), Total(ws, a), a, u, t)
  {
    if ws != [] {
      var n := |ws| - 1;
      assert SubWorkers(ws, a, u)[..n] == SubWorkers(ws[..n], a, u);
      SubTotal(ws[..n], a, u, t);
      SubOf(ws[n], a, u, t);
    }
  }

  lemma {:induction false} SubActive(ws: seq<Pc>, a: Task, u: Task)
    ensures Active(SubWorkers(ws, a, u)) == Active(ws)
  {
    if ws != [] {
      var n := |ws| - 1;
      assert SubWorkers(ws, a, u)[..n] == SubWorkers(ws[..n], a, u);
      SubActive(ws[..n], a, u);
    }
  }

  lemma SubWakers(m: map<Task, Task>, a: Task, u: Task, t: Task)
    requires a != u
    ensures |Wakers(SubMap(m, a, u), t)|
         == if t == a then 0 else |Wakers(m, t)| + if t == u then |Wakers(m, a)| else 0
  {
    if t == a {
      assert Wakers(SubMap(m, a, u), t) == {};
    } else if t == u {
      assert Wakers(SubMap(m, a, u), t) == Wakers(m, u) + Wakers(m, a);
      assert Wakers(m, u) !! Wakers(m, a);
    } else {
      assert Wakers(SubMap(m, a, u), t) == Wakers(m, t);
    }
  }

  lemma SubWaitsSize(m: multiset<Task>, a: Task, u: Task)
    requires a != u
    ensures |SubWaits(m, a, u)| == |m|
  {
    var m1 := m[a := 0];
    Resize(m, a, 0);
    Resize(m1, u, m[u] + m[a]);
  }

  lemma Resize(m: multiset<Task>, x: Task, n: nat)
    ensures |m[x := n]| + m[x] == |m| + n
  {
    var r := m[x := 0];
    assert m == r[x := m[x]];
    Fill(r, x, m[x]);
    Fill(r, x, n);
    assert m[x := n] == r[x := n];
  }

  lemma {:induction false} Fill(r: multiset<Task>, x: Task, n: nat)
    requires r[x] == 0
    ensures |r[x := n]| == |r| + n
    decreases n
  {
    if n == 0 {
      assert r[x := 0] == r;
    } else {
      Fill(r, x, n - 1);
      assert r[x := n] == r[x := n - 1] + multiset{x};
    }
  }

  // ---------------------------------------------------------------- what a step changes

  /** By how much each of the counts of a task changes. */
  datatype Delta = Delta(
    queued: int, picked: int, batch: int, running: int, out: int, waits: int, asleep: int, timers: int)

  const NONE: Delta := Delta(0, 0, 0, 0, 0, 0, 0, 0)

  predicate Moves(c: Count, d: Delta, c': Count) {
    && c'.queued == c.queued + d.queued && c'.picked == c.picked + d.picked && c'.batch == c.batch + d.batch
    && c'.running == c.running + d.running && c'.out == c.out + d.out && c'.waits == c.waits + d.waits
    && c'.asleep == c.asleep + d.asleep && c'.timers == c.timers + d.timers
  }

  /** Whether a callback is about to be given the spare fiber of another task. */
  predicate HandsOn(s: State, w: nat)
    requires At(s, w) && Sized(s) && s.workers[w].Picked?
  {
    s.workers[w].task in s.cbs && s.cbFibers[w].Spare?
  }

  function Neg(n: nat): int { 0 - n }

  /** Everything held of `a`, except as a callback, is now held of `u`. */
  function Handed(s: State, a: Task, u: Task, t: Task): Delta {
    var c := CountOf(s, a);
    if t == a then Delta(Neg(c.queued), Neg(c.picked), 0, Neg(c.running), Neg(c.out), Neg(c.waits), Neg(c.asleep), 0)
    else if t == u then Delta(c.queued, c.picked, 0, c.running, c.out, c.waits, c.asleep, 0)
    else NONE
  }

  function Change(s: State, e: Event, t: Task): Delta
    requires Possible(s, e)
  {
    match e
    case Submit(u, _, _) => NONE.(queued := Is(u, t))
    case Wake(u, _) => NONE.(queued := Is(Heir(s, u), t))
    case Register(u) => NONE.(waits := Is(u, t))
    case RegisterCb(u) => NONE.(waits := Is(u, t))
    case Withdraw(u) => NONE.(waits := Neg(Is(u, t)))
    case AddTimer(u) => NONE.(timers := Is(u, t))
    case CancelTimer(u) => NONE.(timers := Neg(Is(u, t)))
    case Sleep(u, c) => NONE.(asleep := Is(u, t), timers := Is(c, t))
    case Deliver(c) => NONE.(queued := Is(s.sleeps[c], t), asleep := Neg(Is(s.sleeps[c], t)))
    case Trigger(u) => NONE.(queued := Is(u, t), waits := Neg(Is(u, t)))
    case Pick(w) =>
      var d := Is(s.queue[FirstEligible(s.queue, s.status, w)].task, t);
      NONE.(queued := Neg(d), picked := d)
    case SwapIn(w) =>
      var u := s.workers[w].task;
      if Apply(s, e).aborted then NONE
      else
        var h := if HandsOn(s, w) then Handed(s, s.cbFibers[w].task, u, t) else NONE;
        h.(picked := h.picked - Is(u, t), running := h.running + Is(u, t))
    case Skip(w) => NONE.(picked := Neg(Is(s.workers[w].task, t)))
    case YieldReady(w) => NONE.(running := Neg(Is(s.workers[w].task, t)), out := Is(s.workers[w].task, t))
    case YieldHold(w) => NONE.(running := Neg(Is(s.workers[w].task, t)), out := Is(s.workers[w].task, t))
    case Finish(w, _) => NONE.(running := Neg(Is(s.workers[w].task, t)), out := Is(s.workers[w].task, t))
    case Post(w) =>
      var d := Is(s.workers[w].task, t);
      NONE.(out := Neg(d), queued := if s.status[s.workers[w].task] == READY then d else 0)
    case Expire(_, due) => NONE.(batch := Occurrences(due, t), timers := Neg(Occurrences(due, t)))
    case Flush(w) => NONE.(queued := Occurrences(s.workers[w].due, t), batch := Neg(Occurrences(s.workers[w].due, t)))
    case _ => NONE
  }

  predicate ByWorker(e: Event) {
    || e.Start? || e.Pick? || e.PickNone? || e.SwapIn? || e.Skip? || e.YieldReady? || e.YieldHold? || e.Finish?
    || e.Decrement? || e.Post? || e.Expire? || e.Flush? || e.StopCheck? || e.Leave?
  }

  // ---------------------------------------------------------------- one lemma a kind of step

  /** One worker elsewhere, and more in the queue. */
  lemma Relocate(s: State, s': State, w: nat, pc: Pc, t: Task)
    requires At(s, w) && s'.workers == s.workers[w := pc] && s'.sleeps == s.sleeps
    ensures var (c, d, x, y) := (CountOf(s, t), CountOf(s', t), Of(s.workers[w], t), Of(pc, t));
            && d.picked + x.picked == c.picked + y.picked && d.batch + x.batch == c.batch + y.batch
            && d.running + x.running == c.running + y.running && d.out + x.out == c.out + y.out
            && d.asleep == c.asleep
  {
    SetWorker(s.workers, w, pc, t);
  }

  lemma Push(s: State, s': State, e: Entry, t: Task)
    requires s'.queue == s.queue + [e]
    ensures CountOf(s', t).queued == CountOf(s, t).queued + Is(e.task, t)
  {
    QueuedPush(s.queue, e, t);
  }

  lemma PushEffect(s: State, e: Event, t: Task)
    requires Possible(s, e) && (e.Submit? || e.Wake? || e.Trigger?)
    ensures Moves(CountOf(s, t), Change(s, e, t), CountOf(Apply(s, e), t))
  {
    var u := if e.Wake? then Heir(s, e.t) else e.t;
    Push(s, Apply(s, e), Entry(u, if e.Trigger? then -1 else e.thread), t);
  }

  lemma DeliverEffect(s: State, c: Task, t: Task)
    requires Possible(s, Deliver(c))
    ensures Moves(CountOf(s, t), Change(s, Deliver(c), t), CountOf(Apply(s, Deliver(c)), t))
  {
    Push(s, Apply(s, Deliver(c)), Entry(s.sleeps[c], -1), t);
    OneWakerLess(s.sleeps, c, t);
  }

  lemma OneWakerLess(m: map<Task, Task>, c: Task, t: Task)
    requires c in m
    ensures |Wakers(m, t)| == |Wakers(m - {c}, t)| + Is(m[c], t)
  {
    assert Wakers(m, t) == Wakers(m - {c}, t) + if m[c] == t then {c} else {};
  }

  lemma SleepEffect(s: State, u: Task, c: Task, t: Task)
    requires Possible(s, Sleep(u, c))
    ensures Moves(CountOf(s, t), Change(s, Sleep(u, c), t), CountOf(Apply(s, Sleep(u, c)), t))
  {
    if u == t {
      assert Wakers(s.sleeps[c := u], t) == Wakers(s.sleeps, t) + {c};
    } else {
      assert Wakers(s.sleeps[c := u], t) == Wakers(s.sleeps, t);
    }
  }

  lemma SetEffect(s: State, e: Event, t: Task)
    requires Possible(s, e)
    requires e.Register? || e.RegisterCb? || e.Withdraw? || e.AddTimer? || e.CancelTimer? || e.RequestStop? || e.Settle?
    ensures Moves(CountOf(s, t), Change(s, e, t), CountOf(Apply(s, e), t))
  {
  }

  lemma PickEffect(s: State, w: nat, t: Task)
    requires Possible(s, Pick(w))
    ensures Moves(CountOf(s, t), Change(s, Pick(w), t), CountOf(Apply(s, Pick(w)), t))
  {
    var i := FirstEligible(s.queue, s.status, w);
    QueuedRemove(s.queue, i, t);
    SetWorker(s.workers, w, Picked(s.queue[i].task), t);
  }

  lemma HandOnEffect(s: State, a: Task, u: Task, t: Task)
    requires a != u
    ensures Moves(CountOf(s, t), Handed(s, a, u, t), CountOf(HandOn(s, a, u), t))
  {
    SubQueued(s.queue, a, u, t);
    SubTotal(s.workers, a, u, t);
    SubWakers(s.sleeps, a, u, t);
  }

  lemma SwapInEffect(s: State, w: nat, t: Task)
    requires Possible(s, SwapIn(w))
    ensures Moves(CountOf(s, t), Change(s, SwapIn(w), t), CountOf(Apply(s, SwapIn(w)), t))
  {
    var (s', u) := (Apply(s, SwapIn(w)), s.workers[w].task);
    if !s'.aborted { DispatchEffect(s, s', w, u, t); }
  }

  /** A callback gets its fiber, and the worker enters it. */
  lemma DispatchEffect(s: State, s': State, w: nat, u: Task, t: Task)
    requires At(s, w) && Sized(s) && s.workers[w] == Picked(u) && !ResetFails(s, w, u)
    requires s' == Move(Dispatch(s, w, u), w, Running(u)).(status := s.status[u := EXEC])
    ensures var h := if HandsOn(s, w) then Handed(s, s.cbFibers[w].task, u, t) else NONE;
            Moves(CountOf(s, t), h.(picked := h.picked - Is(u, t), running := h.running + Is(u, t)), CountOf(s', t))
  {
    var s1 := Dispatch(s, w, u);
    if HandsOn(s, w) {
      HandOnEffect(s, s.cbFibers[w].task, u, t);
      SubShare(s.workers, w, s.cbFibers[w].task, u);
    }
    assert s1.workers[w] == Picked(u);
    Relocate(s1, s', w, Running(u), t);
  }

  lemma SubShare(ws: seq<Pc>, w: nat, a: Task, u: Task)
    requires w < |ws| && ws[w] == Picked(u) && a != u
    ensures SubWorkers(ws, a, u)[w] == Picked(u)
  {
  }

  lemma SwitchEffect(s: State, e: Event, w: nat, t: Task)
    requires Possible(s, e) && (e.Skip? || e.YieldReady? || e.YieldHold? || e.Finish? || e.Decrement?) && e.w == w
    ensures Moves(CountOf(s, t), Change(s, e, t), CountOf(Apply(s, e), t))
  {
    var u := s.workers[w].task;
    Relocate(s, Apply(s, e), w, if e.Skip? then Top else if e.Decrement? then Back(u) else Out(u), t);
  }

  lemma IdleEffect(s: State, e: Event, w: nat, t: Task)
    requires Possible(s, e) && (e.Start? || e.PickNone? || e.Leave?) && e.w == w
    ensures Moves(CountOf(s, t), Change(s, e, t), CountOf(Apply(s, e), t))
  {
    Relocate(s, Apply(s, e), w, Apply(s, e).workers[w], t);
  }

  lemma StopCheckEffect(s: State, w: nat, t: Task)
    requires Possible(s, StopCheck(w))
    ensures Moves(CountOf(s, t), Change(s, StopCheck(w), t), CountOf(Apply(s, StopCheck(w)), t))
  {
    if Stopping(s) { Relocate(s, Apply(s, StopCheck(w)), w, Top, t); }
  }

  lemma PostEffect(s: State, w: nat, t: Task)
    requires Possible(s, Post(w))
    ensures Moves(CountOf(s, t), Change(s, Post(w), t), CountOf(Apply(s, Post(w)), t))
  {
    var (s', u) := (Apply(s, Post(w)), s.workers[w].task);
    Relocate(s, s', w, Top, t);
    if s.status[u] == READY { Push(s, s', Entry(u, -1), t); }
  }

  lemma ExpireEffect(s: State, e: Event, w: nat, t: Task)
    requires Possible(s, e) && e.Expire? && e.w == w
    ensures Moves(CountOf(s, t), Change(s, e, t), CountOf(Apply(s, e), t))
  {
    Relocate(s, Apply(s, e), w, Batch(e.due), t);
    OccurrencesOf(e.due, t);
  }

  lemma PushAll(s: State, s': State, due: seq<Task>, t: Task)
    requires s'.queue == s.queue + Entries(due)
    ensures CountOf(s', t).queued == CountOf(s, t).queued + Occurrences(due, t)
  {
    QueuedAppend(s.queue, Entries(due), t);
    QueuedEntries(due, t);
  }

  lemma FlushEffect(s: State, w: nat, t: Task)
    requires Possible(s, Flush(w))
    ensures Moves(CountOf(s, t), Change(s, Flush(w), t), CountOf(Apply(s, Flush(w)), t))
  {
    var due := s.workers[w].due;
    Relocate(s, Apply(s, Flush(w)), w, Idle, t);
    PushAll(s, Apply(s, Flush(w)), due, t);
  }

  /** What every step does to what is held of a task. */
  lemma Effects(s: State, e: Event, t: Task)
    requires Possible(s, e)
    ensures Moves(CountOf(s, t), Change(s, e, t), CountOf(Apply(s, e), t))
  {
    if ByWorker(e) {
      WorkerEffects(s, e, e.w, t);
    } else if e.Submit? || e.Wake? || e.Trigger? {
      PushEffect(s, e, t);
    } else if e.Deliver? {
      DeliverEffect(s, e.c, t);
    } else if e.Sleep? {
      SleepEffect(s, e.t, e.c, t);
    } else {
      SetEffect(s, e, t);
    }
  }

  lemma WorkerEffects(s: State, e: Event, w: nat, t: Task)
    requires Possible(s, e) && ByWorker(e) && e.w == w
    ensures Moves(CountOf(s, t), Change(s, e, t), CountOf(Apply(s, e), t))
  {
    if e.Pick? { PickEffect(s, w, t); }
    else if e.SwapIn? { SwapInEffect(s, w, t); }
    else if e.Post? { PostEffect(s, w, t); }
    else if e.Expire? { ExpireEffect(s, e, w, t); }
    else if e.Flush? { FlushEffect(s, w, t); }
    else if e.StopCheck? { StopCheckEffect(s, w, t); }
    else if e.Start? || e.PickNone? || e.Leave? { IdleEffect(s, e, w, t); }
    else { SwitchEffect(s, e, w, t); }
  }
}
