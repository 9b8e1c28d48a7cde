/** The rule of one wake source is needed: where a waiting fiber is scheduled twice and two workers are about to
    pick, the two can always end up with it both. */
module RuntimeCollision {
  import opened Runtime
  import opened RuntimeEffects
  import opened RuntimeInvariant
  import opened RuntimeTheorems

  /** Some continuation meets the failed ASSERT. */
  ghost predicate CanAbort(s: State) { exists es :: Aborts(s, es) }

  ghost predicate Aborts(s: State, es: seq<Event>) { Run(s, es) && Exec(s, es).aborted }

  lemma OneMore(s: State, e: Event)
    requires Possible(s, e) && (Apply(s, e).aborted || CanAbort(Apply(s, e)))
    ensures CanAbort(s)
  {
    var es: seq<Event> := [];
    if !Apply(s, e).aborted { es :| Aborts(Apply(s, e), es); }
    assert ([e] + es)[1..] == es;
    assert Aborts(Apply(s, e), es);
    assert Aborts(s, [e] + es);
  }

  /** `t` can be entered, and is queued for any worker at least `n` times. */
  ghost predicate Loaded(s: State, t: Task, n: nat) {
    && Sane(s) && !s.aborted
    && t in s.status && s.status[t] != EXEC && !Finished(s.status[t]) && t !in s.cbs
    && multiset(s.queue)[Entry(t, -1)] >= n
  }

  // ---------------------------------------------------------------- the steps of one worker

  lemma RemoveAtContents(q: seq<Entry>, i: nat)
    requires i < |q|
    ensures multiset(RemoveAt(q, i)) == multiset(q) - multiset{q[i]} && |RemoveAt(q, i)| == |q| - 1
  {
    assert q == q[..i] + ([q[i]] + q[i+1..]);
  }

  /** The worker picks something, */
  lemma Picks(s: State, w: nat, t: Task, n: nat)
    requires Loaded(s, t, n) && n > 0 && At(s, w) && s.workers[w] == Top
    ensures Possible(s, Pick(w))
    ensures var i := FirstEligible(s.queue, s.status, w);
            var (u, s') := (s.queue[i].task, Apply(s, Pick(w)));
            && Loaded(s', t, if u == t then n - 1 else n) && s'.workers == s.workers[w := Picked(u)] && u in s'.status
            && s'.sleeps == s.sleeps && |s'.queue| < |s.queue|
  {
    var i := FirstEligible(s.queue, s.status, w);
    assert Entry(t, -1) in s.queue;
    SaneStep(s, Pick(w));
    RemoveAtContents(s.queue, i);
    PickedKnown(Apply(s, Pick(w)), w, s.queue[i].task);
  }

  lemma PickedKnown(s: State, w: nat, u: Task)
    requires Sane(s) && At(s, w) && s.workers[w] == Picked(u)
    ensures u in s.status
  {
    Share(s.workers, w, u);
    assert Loose(s, u);
  }

  /** passes by a task that is through, */
  lemma Skips(s: State, w: nat, u: Task, t: Task, n: nat)
    requires Loaded(s, t, n) && At(s, w) && s.workers[w] == Picked(u) && u in s.status && Finished(s.status[u])
    ensures Possible(s, Skip(w)) && Loaded(Apply(s, Skip(w)), t, n)
    ensures var s' := Apply(s, Skip(w));
            s'.workers == s.workers[w := Top] && s'.sleeps == s.sleeps && s'.queue == s.queue
  {
    SaneStep(s, Skip(w));
  }

  lemma {:induction false} SubContents(q: seq<Entry>, a: Task, u: Task, t: Task)
    requires t != a
    ensures multiset(SubQueue(q, a, u))[Entry(t, -1)] >= multiset(q)[Entry(t, -1)]
  {
    if q != [] {
      var n := |q| - 1;
      assert q == q[..n] + [q[n]];
      assert SubQueue(q, a, u) == SubQueue(q[..n], a, u) + [SubQueue(q, a, u)[n]];
      SubContents(q[..n], a, u, t);
    }
  }

  /** A step of the worker leaves the others where they are to be. */
  predicate OthersStay(s: State, s': State, w: nat, t: Task) {
    && |s'.workers| == |s.workers|
    && forall v :: 0 <= v < |s.workers| && v != w && (s.workers[v] == Top || s.workers[v] == Picked(t)) ==>
         s'.workers[v] == s.workers[v]
  }

  /** enters another task, unless that fails, */
  lemma Enters(s: State, w: nat, u: Task, t: Task, n: nat)
    requires Loaded(s, t, n) && At(s, w) && s.workers[w] == Picked(u) && u != t && u in s.status
    requires !Finished(s.status[u])
    ensures Possible(s, SwapIn(w))
    ensures var s' := Apply(s, SwapIn(w));
            !s'.aborted ==>
              && Loaded(s', t, n) && OthersStay(s, s', w, t) && At(s', w) && s'.workers[w] == Running(u)
              && u in s'.status && s'.status[u] == EXEC
              && s'.sleeps.Keys == s.sleeps.Keys && |s'.queue| == |s.queue|
  {
    var s' := Apply(s, SwapIn(w));
    SaneStep(s, SwapIn(w));
    if !s'.aborted {
      SwapInFields(s, w);
      SwapInNames(s, w);
      if HandsOn(s, w) { SubContents(s.queue, s.cbFibers[w].task, u, t); }
      EntersElse(s, w, u, t);
    }
  }

  lemma EntersElse(s: State, w: nat, u: Task, t: Task)
    requires Possible(s, SwapIn(w)) && s.workers[w] == Picked(u) && u != t && t in s.status && !Finished(s.status[t])
    requires !Apply(s, SwapIn(w)).aborted
    ensures var s' := Apply(s, SwapIn(w));
            OthersStay(s, s', w, t) && s'.sleeps.Keys == s.sleeps.Keys && |s'.queue| == |s.queue|
  {
  }

  /** schedules its sleeper, if it is the callback of a sleep, */
  lemma Delivers(s: State, w: nat, u: Task, t: Task, n: nat)
    requires Loaded(s, t, n) && At(s, w) && s.workers[w] == Running(u) && u in s.sleeps
    ensures Possible(s, Deliver(u)) && Loaded(Apply(s, Deliver(u)), t, n)
    ensures var s' := Apply(s, Deliver(u));
            s'.workers == s.workers && s'.sleeps.Keys == s.sleeps.Keys - {u} && s'.status == s.status
  {
    SaneStep(s, Deliver(u));
  }

  /** gives up, */
  lemma Yields(s: State, w: nat, u: Task, t: Task, n: nat)
    requires Loaded(s, t, n) && At(s, w) && s.workers[w] == Running(u) && u !in s.sleeps
    ensures Possible(s, YieldHold(w)) && Loaded(Apply(s, YieldHold(w)), t, n)
    ensures var s' := Apply(s, YieldHold(w));
            && s'.workers == s.workers[w := Out(u)] && s'.sleeps == s.sleeps && s'.queue == s.queue
            && s'.status == s.status
  {
    SaneStep(s, YieldHold(w));
  }

  lemma Decrements(s: State, w: nat, u: Task, t: Task, n: nat)
    requires Loaded(s, t, n) && At(s, w) && s.workers[w] == Out(u)
    ensures Possible(s, Decrement(w)) && Loaded(Apply(s, Decrement(w)), t, n)
    ensures var s' := Apply(s, Decrement(w));
            && s'.workers == s.workers[w := Back(u)] && s'.sleeps == s.sleeps && s'.queue == s.queue
            && s'.status == s.status
  {
    SaneStep(s, Decrement(w));
  }

  /** and is back where it picks. */
  lemma Posts(s: State, w: nat, u: Task, t: Task, n: nat)
    requires Loaded(s, t, n) && At(s, w) && s.workers[w] == Back(u) && u != t && u in s.status && s.status[u] == EXEC
    ensures Possible(s, Post(w)) && Loaded(Apply(s, Post(w)), t, n)
    ensures var s' := Apply(s, Post(w));
            s'.workers == s.workers[w := Top] && s'.sleeps == s.sleeps && s'.queue == s.queue
  {
    SaneStep(s, Post(w));
  }

  // ---------------------------------------------------------------- the collision

  /** Back at the top, with the others where they were and less to do before `t` has its turn. */
  ghost predicate Nearer(s: State, s': State, w: nat, t: Task, n: nat) {
    && Loaded(s', t, n) && OthersStay(s, s', w, t) && At(s', w) && s'.workers[w] == Top
    && (s'.sleeps.Keys < s.sleeps.Keys || (s'.sleeps.Keys == s.sleeps.Keys && |s'.queue| <= |s.queue|))
  }

  /** A worker that has picked another task can come back. */
  lemma OtherTurn(s: State, w: nat, u: Task, t: Task, n: nat) returns (r: State)
    requires Loaded(s, t, n) && At(s, w) && s.workers[w] == Picked(u) && u != t && u in s.status
    ensures CanAbort(s) || (Nearer(s, r, w, t, n) && (CanAbort(r) ==> CanAbort(s)))
  {
    if Finished(s.status[u]) {
      Skips(s, w, u, t, n);
      r := Apply(s, Skip(w));
      if CanAbort(r) { OneMore(s, Skip(w)); }
    } else {
      Enters(s, w, u, t, n);
      var s' := Apply(s, SwapIn(w));
      r := s';
      if s'.aborted {
        OneMore(s, SwapIn(w));
      } else {
        r := OutTurn(s', w, u, t, n);
        if CanAbort(s') { OneMore(s, SwapIn(w)); }
      }
    }
  }

  lemma OutTurn(s: State, w: nat, u: Task, t: Task, n: nat) returns (r: State)
    requires Loaded(s, t, n) && At(s, w) && s.workers[w] == Running(u) && u != t && u in s.status && s.status[u] == EXEC
    ensures Nearer(s, r, w, t, n) && (CanAbort(r) ==> CanAbort(s))
  {
    if u in s.sleeps {
      Delivers(s, w, u, t, n);
      var s' := Apply(s, Deliver(u));
      r := LastTurn(s', w, u, t, n);
      if CanAbort(s') { OneMore(s, Deliver(u)); }
    } else {
      r := LastTurn(s, w, u, t, n);
    }
  }

  lemma LastTurn(s: State, w: nat, u: Task, t: Task, n: nat) returns (r: State)
    requires Loaded(s, t, n) && At(s, w) && s.workers[w] == Running(u) && u != t && u in s.status && s.status[u] == EXEC
    requires u !in s.sleeps
    ensures Loaded(r, t, n) && r.workers == s.workers[w := Top] && r.sleeps == s.sleeps && r.queue == s.queue
    ensures CanAbort(r) ==> CanAbort(s)
  {
    Yields(s, w, u, t, n);
    var s1 := Apply(s, YieldHold(w));
    Decrements(s1, w, u, t, n);
    var s2 := Apply(s1, Decrement(w));
    Posts(s2, w, u, t, n);
    r := Apply(s2, Post(w));
    if CanAbort(r) {
      OneMore(s2, Post(w));
      OneMore(s1, Decrement(w));
      OneMore(s, YieldHold(w));
    }
  }

  /** Two workers that have both picked `t`: one of the two swapIns fails. */
  lemma BothEnter(s: State, x: nat, y: nat, t: Task)
    requires Loaded(s, t, 0) && x != y && At(s, x) && At(s, y) && s.workers[x] == s.workers[y] == Picked(t)
    ensures CanAbort(s)
  {
    var s' := Apply(s, SwapIn(x));
    if !s'.aborted {
      SwapInFields(s, x);
      assert s'.workers[y] == Picked(t) && s'.status[t] == EXEC && Sized(s');
      OneMore(s', SwapIn(y));
    }
    OneMore(s, SwapIn(x));
  }

  /** Two workers, about to pick or with `t` in the hand: they can be brought to collide. */
  lemma {:induction false} Collide(s: State, x: nat, y: nat, t: Task)
    requires x != y && At(s, x) && At(s, y) && s.workers[x] == Top
    requires (s.workers[y] == Top && Loaded(s, t, 2)) || (s.workers[y] == Picked(t) && Loaded(s, t, 1))
    ensures CanAbort(s)
    decreases |s.sleeps.Keys|, |s.queue|
  {
    var n := if s.workers[y] == Top then 2 else 1;
    Picks(s, x, t, n);
    var (s', u) := (Apply(s, Pick(x)), s.queue[FirstEligible(s.queue, s.status, x)].task);
    if u == t {
      if n == 1 { BothEnter(s', x, y, t); } else { Collide(s', y, x, t); }
    } else {
      var r := OtherTurn(s', x, u, t, n);
      if !CanAbort(s') {
        Fewer(r.sleeps.Keys, s'.sleeps.Keys);
        Collide(r, x, y, t);
      }
    }
    OneMore(s, Pick(x));
  }

  lemma Fewer(a: set<Task>, b: set<Task>)
    requires a < b || a == b
    ensures a < b ==> |a| < |b|
  {
    if a < b {
      assert b == a + (b - a) && b - a != {};
    }
  }

  /** In a run that kept to the rule so far, a fiber waits and its wake-up is queued for any worker, or held by an
      fd context; two workers are about to pick. If it is scheduled once more, an ASSERT can fail. */
  lemma SecondWakeCollides(s: State, n: nat, caller: bool, es: seq<Event>, x: nat, y: nat, t: Task)
    requires Reached(s, n, caller, es) && x != y && At(s, x) && At(s, y) && s.workers[x] == s.workers[y] == Top
    requires t in s.status && s.status[t] != EXEC && t !in s.cbs
    requires Entry(t, -1) in s.queue || t in s.waits
    ensures Possible(s, Wake(t, -1)) && !OneWakeSource(s, Wake(t, -1)) && CanAbort(Apply(s, Wake(t, -1)))
  {
    ReachedInv(s, n, caller, es);
    assert TaskInv(s, t) && HeirOk(s, t);
    assert Tokens(s, t) > 0 by { if Entry(t, -1) in s.queue { InQueue(s.queue, t); } }
    var s' := Apply(s, Wake(t, -1));
    SaneStep(s, Wake(t, -1));
    if Entry(t, -1) in s.queue {
      Collide(s', x, y, t);
    } else {
      SaneStep(s', Trigger(t));
      Collide(Apply(s', Trigger(t)), x, y, t);
      OneMore(s', Trigger(t));
    }
  }

  lemma {:induction false} InQueue(q: seq<Entry>, t: Task)
    requires Entry(t, -1) in q
    ensures Queued(q, t) > 0
  {
    var n := |q| - 1;
    if q[n] != Entry(t, -1) {
      assert q == q[..n] + [q[n]];
      InQueue(q[..n], t);
    }
  }
}
