/** What holds of the timer manager over whole runs. */
module TimerRuns {
  import opened Counting
  import opened Words
  import opened TimerSpec
  import opened TimerOrder

  /** A manager with what happened to it so far. */
  datatype World = World(
    m: Manager,
    clock: Word,                // the latest time read
    fronts: nat,                // onTimerInsertedAtFront calls since the last getNextTimer
    seen: nat,                  // the earliest deadline that call saw, WORD if there was none
    added: map<nat, bool>,      // every timer ever added, and whether it recurs
    emitted: multiset<nat>,     // one occurrence a callback handed out
    cancelled: multiset<nat>,   // one occurrence a successful cancel
    last: map<nat, Word>)       // when a recurring timer fired last, forgotten when it is reset

  function Addrs(q: seq<Entry>): seq<nat> { seq(|q|, i requires 0 <= i < |q| => q[i].addr) }

  ghost function Advance(w: World, op: Op, now: Word): World {
    var o := Step(w.m, op, now);
    var w1 := w.(m := o.m, clock := now, fronts := w.fronts + (if o.front then 1 else 0),
                 emitted := w.emitted + multiset(Addrs(o.fired)));
    match op
    case Add(a, _, _, recurring) => w1.(added := w.added[a := recurring])
    case Cancel(a) => if o.ok then w1.(cancelled := w.cancelled + multiset{a}) else w1
    case Refresh(_) => w1
    case Reset(a, _, _) => if o.m == w.m then w1 else w1.(last := w.last - {a})
    case Next => w1.(fronts := 0, seen := if w.m.q == [] then WORD else w.m.q[0].next)
    case Expire => w1.(last := w.last + Stamp(o.fired, now))
  }

  ghost function Stamp(fired: seq<Entry>, now: Word): map<nat, Word> {
    if fired == [] then map[]
    else Stamp(fired[1..], now) + if fired[0].recurring then map[fired[0].addr := now] else map[]
  }

  /** A new timer object is not one seen before. */
  ghost predicate Possible(w: World, op: Op) { op.Add? ==> op.addr !in w.added }

  ghost function Start(now: Word): World {
    World(Manager([], false, now), now, 0, WORD, map[], multiset{}, multiset{}, map[])
  }

  ghost predicate Run(w: World, ops: seq<(Op, Word)>)
    decreases |ops|
  {
    ops == [] || (Possible(w, ops[0].0) && Run(Advance(w, ops[0].0, ops[0].1), ops[1..]))
  }

  ghost function Exec(w: World, ops: seq<(Op, Word)>): World
    decreases |ops|
  {
    if ops == [] then w else Exec(Advance(w, ops[0].0, ops[0].1), ops[1..])
  }

  // ---------------------------------------------------------------- membership

  ghost predicate Has(q: seq<Entry>, a: nat, recurring: bool) {
    exists e :: e in q && e.addr == a && e.recurring == recurring
  }

  lemma InsertMember(q: seq<Entry>, e: Entry)
    ensures forall x :: x in Insert(q, e) <==> x in q || x == e
  {
    var i := Rank(q, e.next, e.addr);
    assert q == q[..i] + q[i..];
  }

  lemma WithoutMember(q: seq<Entry>, i: nat)
    requires Distinct(q) && i < |q|
    ensures forall x :: x in Without(q, i) <==> x in q && x.addr != q[i].addr
  {
    assert q == q[..i] + [q[i]] + q[i+1..];
  }

  lemma {:induction false} RearmMember(q: seq<Entry>, fired: seq<Entry>, now: Word)
    ensures forall x :: x in Rearm(q, fired, now) <==>
              x in q || exists f :: f in fired && f.recurring && x == f.(next := Plus(now, f.ms))
    decreases |fired|
  {
    if fired != [] {
      var e := fired[0];
      var e' := e.(next := Plus(now, e.ms));
      InsertMember(q, e');
      RearmMember(if e.recurring then Insert(q, e') else q, fired[1..], now);
      assert forall f :: f in fired <==> f == fired[0] || f in fired[1..];
    }
  }

  lemma {:induction false} AddrsCount(q: seq<Entry>, a: nat)
    requires Distinct(q)
    ensures multiset(Addrs(q))[a] == if Has(q, a, true) || Has(q, a, false) then 1 else 0
  {
    if q == [] {
      assert Addrs(q) == [];
    } else {
      AddrsCount(q[1..], a);
      assert Addrs(q) == [q[0].addr] + Addrs(q[1..]);
      assert forall e :: e in q <==> e == q[0] || e in q[1..];
      assert forall r :: Has(q, a, r) <==> Has(q[1..], a, r) || (q[0].addr == a && q[0].recurring == r);
    }
  }

  lemma ArmedHas(q: seq<Entry>, a: nat)
    ensures Armed(q, a) <==> Has(q, a, true) || Has(q, a, false)
  {
    if Armed(q, a) {
      var i :| 0 <= i < |q| && q[i].addr == a;
      assert q[i] in q && Has(q, a, q[i].recurring);
    }
  }

  /** Re-inserting one timer changed: what is in the set afterwards. */
  lemma MovedMember(q: seq<Entry>, i: nat, e: Entry, x: Entry)
    requires Distinct(q) && i < |q| && e.addr == q[i].addr
    ensures x in Insert(Without(q, i), e) <==> (x in q && x.addr != e.addr) || x == e
  {
    WithoutMember(q, i);
    InsertMember(Without(q, i), e);
  }

  lemma OnlyEntryOf(q: seq<Entry>, a: nat, f: Entry)
    requires Distinct(q) && f in q && f.addr == a
    ensures Index(q, a) < |q| && f == q[Index(q, a)]
  {
    var i :| 0 <= i < |q| && q[i] == f;
    IndexUnique(q, i);
  }

  /** Adding, cancelling, refreshing or resetting a timer does to that timer what it says and leaves every
      other one in the set as it is. */
  lemma {:induction false} StepMembers(m: Manager, op: Op, now: Word, x: Entry)
    requires Valid(m.q) && (op.Add? ==> !Armed(m.q, op.addr)) && !op.Expire?
    ensures x in Step(m, op, now).m.q <==>
              match op
              case Add(a, ms, cb, recurring) => x in m.q || x == Entry(a, recurring, ms, Plus(now, ms), cb)
              case Cancel(a) => x in m.q && x.addr != a
              case Refresh(a) =>
                || (x in m.q && x.addr != a)
                || exists f :: f in m.q && f.addr == a && x == f.(next := Plus(now, f.ms))
              case Reset(a, ms, fromNow) =>
                || (x in m.q && x.addr != a)
                || exists f :: f in m.q && f.addr == a && x == Restarted(f, ms, fromNow, now)
              case _ => x in m.q
  {
    match op
    case Add(a, ms, cb, recurring) => InsertMember(m.q, Entry(a, recurring, ms, Plus(now, ms), cb));
    case Next =>
    case Cancel(a) =>
      if Index(m.q, a) < |m.q| { WithoutMember(m.q, Index(m.q, a)); } else { Unarmed(m.q, a); }
    case Refresh(a) =>
      var i := Index(m.q, a);
      if i < |m.q| {
        MovedMember(m.q, i, m.q[i].(next := Plus(now, m.q[i].ms)), x);
        forall f | f in m.q && f.addr == a ensures f == m.q[i] { OnlyEntryOf(m.q, a, f); }
      } else { Unarmed(m.q, a); }
    case Reset(a, ms, fromNow) => ResetMembers(m, a, ms, fromNow, now, x);
  }

  function Restarted(f: Entry, ms: Word, fromNow: bool, now: Word): Entry {
    if ms == f.ms && !fromNow then f
    else f.(ms := ms, next := Plus(if fromNow then now else Minus(f.next, f.ms), ms))
  }

  lemma Unarmed(q: seq<Entry>, a: nat)
    requires Index(q, a) == |q|
    ensures forall f :: f in q ==> f.addr != a
  {
  }

  lemma ResetMembers(m: Manager, a: nat, ms: Word, fromNow: bool, now: Word, x: Entry)
    requires Valid(m.q)
    ensures x in ResetStep(m, a, ms, fromNow, now).m.q <==>
              || (x in m.q && x.addr != a)
              || exists f :: f in m.q && f.addr == a && x == Restarted(f, ms, fromNow, now)
  {
    var i := Index(m.q, a);
    if i < |m.q| {
      var e := Restarted(m.q[i], ms, fromNow, now);
      MovedMember(m.q, i, e, x);
      assert m.q[i] in m.q;
      forall f | f in m.q && f.addr == a ensures f == m.q[i] { OnlyEntryOf(m.q, a, f); }
    } else {
      Unarmed(m.q, a);
    }
  }

  // ---------------------------------------------------------------- exactly once

  /** The account of one timer: what was added is armed, or was cancelled once, or (one-shot) fired once. */
  ghost predicate Accounted(w: World, a: nat) {
    var r := a in w.added && w.added[a];
    && !Has(w.m.q, a, !r)
    && (a !in w.added ==> !Has(w.m.q, a, r) && w.emitted[a] == 0 && w.cancelled[a] == 0)
    && (a in w.added && r ==> B(Has(w.m.q, a, true)) + w.cancelled[a] == 1)
    && (a in w.added && !r ==> B(Has(w.m.q, a, false)) + w.cancelled[a] + w.emitted[a] == 1)
  }

  ghost predicate Sound(w: World) {
    Valid(w.m.q) && forall a :: Accounted(w, a)
  }

  lemma SplitHas(q: seq<Entry>, k: nat, a: nat, r: bool)
    requires Valid(q) && k <= |q|
    ensures Has(q, a, r) <==> Has(q[..k], a, r) || Has(q[k..], a, r)
  {
    assert q == q[..k] + q[k..];
    assert forall e :: e in q <==> e in q[..k] || e in q[k..];
  }

  lemma SplitOnce(q: seq<Entry>, k: nat, a: nat)
    requires Valid(q) && k <= |q| && Armed(q[..k], a)
    ensures !Armed(q[k..], a)
  {
    CutValid(q, k);
    var j :| 0 <= j < k && q[..k][j].addr == a;
    assert !Armed(q[k..], q[..k][j].addr);
  }

  lemma RearmHas(rest: seq<Entry>, fired: seq<Entry>, now: Word, a: nat)
    ensures Has(Rearm(rest, fired, now), a, false) <==> Has(rest, a, false)
    ensures Has(Rearm(rest, fired, now), a, true) <==> Has(rest, a, true) || Has(fired, a, true)
  {
    RearmMember(rest, fired, now);
    if Has(fired, a, true) {
      var f :| f in fired && f.addr == a && f.recurring;
      assert f.(next := Plus(now, f.ms)) in Rearm(rest, fired, now);
    }
    assert forall e :: e in rest ==> e in Rearm(rest, fired, now);
  }

  lemma AdvanceSoundExpire(w: World, now: Word, a: nat)
    requires Sound(w)
    ensures Accounted(Advance(w, Expire, now), a)
  {
    assert Accounted(w, a);
    var m := w.m;
    if m.q == [] {
      assert Addrs([]) == [];
    } else {
      var k := if Rollover(now, m.previous) then |m.q| else Due(m.q, now);
      SplitHas(m.q, k, a, true);
      SplitHas(m.q, k, a, false);
      ArmedHas(m.q[k..], a);
      ArmedHas(m.q[..k], a);
      if Armed(m.q[..k], a) { SplitOnce(m.q, k, a); }
      RearmHas(m.q[k..], m.q[..k], now, a);
      AddrsCount(m.q[..k], a);
    }
  }

  /** Taking a timer out and putting it back with another deadline or period changes no account. */
  lemma MovedHas(q: seq<Entry>, i: nat, e: Entry, a: nat, r: bool)
    requires Distinct(q) && i < |q| && e.addr == q[i].addr && e.recurring == q[i].recurring
    ensures Has(Insert(Without(q, i), e), a, r) <==> Has(q, a, r)
  {
    WithoutMember(q, i);
    InsertMember(Without(q, i), e);
    assert q[i] in q && e in Insert(Without(q, i), e);
    forall x | x in q && x.addr == q[i].addr ensures x == q[i] {}
  }

  lemma AdvanceSoundMoved(w: World, op: Op, now: Word, a: nat)
    requires Sound(w) && (op.Refresh? || op.Reset?)
    ensures Accounted(Advance(w, op, now), a)
  {
    assert Accounted(w, a);
    assert Addrs([]) == [];
    var i := Index(w.m.q, op.addr);
    if i < |w.m.q| {
      var e := w.m.q[i];
      forall e': Entry, r | e'.addr == e.addr && e'.recurring == e.recurring
        ensures Has(Insert(Without(w.m.q, i), e'), a, r) <==> Has(w.m.q, a, r)
      {
        MovedHas(w.m.q, i, e', a, r);
      }
    }
  }

  lemma AdvanceSoundOther(w: World, op: Op, now: Word, a: nat)
    requires Sound(w) && Possible(w, op) && (op.Add? || op.Next? || op.Cancel?)
    ensures Accounted(Advance(w, op, now), a)
  {
    assert Accounted(w, a);
    assert Addrs([]) == [];
    match op
    case Add(b, ms, cb, recurring) =>
      InsertMember(w.m.q, Entry(b, recurring, ms, Plus(now, ms), cb));
    case Next =>
    case Cancel(b) =>
      var i := Index(w.m.q, b);
      if i < |w.m.q| { WithoutMember(w.m.q, i); assert Has(w.m.q, b, w.m.q[i].recurring); }
  }

  lemma AdvanceSound(w: World, op: Op, now: Word)
    requires Sound(w) && Possible(w, op)
    ensures Sound(Advance(w, op, now))
  {
    if op.Add? { assert Accounted(w, op.addr); ArmedHas(w.m.q, op.addr); }
    StepValid(w.m, op, now);
    forall a ensures Accounted(Advance(w, op, now), a) {
      if op.Expire? { AdvanceSoundExpire(w, now, a); }
      else if op.Refresh? || op.Reset? { AdvanceSoundMoved(w, op, now, a); }
      else { AdvanceSoundOther(w, op, now, a); }
    }
  }

  lemma {:induction false} RunSound(w: World, ops: seq<(Op, Word)>)
    requires Sound(w) && Run(w, ops)
    ensures Sound(Exec(w, ops))
    decreases |ops|
  {
    if ops != [] {
      AdvanceSound(w, ops[0].0, ops[0].1);
      RunSound(Advance(w, ops[0].0, ops[0].1), ops[1..]);
    }
  }

  /** Whatever the clock does: a one-shot timer fires or is successfully cancelled at most once in all, and
      exactly once when it has left the set. */
  lemma OneShotExactlyOnce(now: Word, ops: seq<(Op, Word)>, a: nat)
    requires Run(Start(now), ops)
    requires var w := Exec(Start(now), ops); a in w.added && !w.added[a]
    ensures var w := Exec(Start(now), ops);
            && w.emitted[a] + w.cancelled[a] <= 1
            && (w.emitted[a] + w.cancelled[a] == 1 <==> !Armed(w.m.q, a))
  {
    var w := Exec(Start(now), ops);
    RunSound(Start(now), ops);
    assert Accounted(w, a);
    ArmedHas(w.m.q, a);
  }

  /** A timer that was cancelled, one-shot or recurring, is out of the set and fires no more. */
  lemma NoEmissionAfterCancel(now: Word, ops: seq<(Op, Word)>, a: nat, op: Op, t: Word)
    requires Run(Start(now), ops) && Exec(Start(now), ops).cancelled[a] > 0
    ensures var w := Exec(Start(now), ops);
            !Armed(w.m.q, a) && forall e :: e in Step(w.m, op, t).fired ==> e.addr != a
  {
    var w := Exec(Start(now), ops);
    RunSound(Start(now), ops);
    assert Accounted(w, a);
    ArmedHas(w.m.q, a);
    forall e | e in Step(w.m, op, t).fired ensures e.addr != a {
      var i :| 0 <= i < |Step(w.m, op, t).fired| && Step(w.m, op, t).fired[i] == e;
      assert w.m.q[i] == e;
    }
  }

  // ---------------------------------------------------------------- wake-ups and spacing

  /** The clock does not go back and no deadline overflows. */
  ghost predicate Steady(w: World, op: Op, now: Word) {
    && w.clock <= now
    && match op
       case Add(_, ms, _, _) => now + ms < WORD
       case Refresh(a) => forall e :: e in w.m.q && e.addr == a ==> now + e.ms < WORD
       case Reset(a, ms, fromNow) =>
         forall e :: e in w.m.q && e.addr == a ==> (if fromNow then now else Minus(e.next, e.ms)) + ms < WORD
       case Expire => forall e :: e in w.m.q && e.recurring && e.next <= now ==> now + e.ms < WORD
       case _ => true
  }

  ghost predicate SteadyRun(w: World, ops: seq<(Op, Word)>)
    decreases |ops|
  {
    ops == [] || (Steady(w, ops[0].0, ops[0].1) && SteadyRun(Advance(w, ops[0].0, ops[0].1), ops[1..]))
  }

  /** What is true of one armed timer: it was started in the past, its deadline is not before the one last
      announced unless an announcement is out, and a period has passed since it fired last. */
  ghost predicate Fits(w: World, e: Entry) {
    && e.ms <= e.next && e.next - e.ms <= w.clock
    && (!w.m.tickled ==> e.next >= w.seen)
    && (e.addr in w.last ==> w.last[e.addr] + e.ms <= e.next)
  }

  ghost predicate Awake(w: World) {
    && w.m.previous <= w.clock
    && w.fronts == B(w.m.tickled)
    && (forall a :: a in w.last ==> a in w.added && w.last[a] <= w.clock)
    && (forall e :: e in w.m.q ==> Fits(w, e))
  }

  lemma FirstIsEarliest(q: seq<Entry>, e: Entry)
    requires Valid(q) && e in q
    ensures q[0].next <= e.next
  {
    var i :| 0 <= i < |q| && q[i] == e;
    assert i > 0 ==> Less(q[0], q[i]);
  }

  /** Insertion with the latch: a new front is announced, anything else lies behind what is armed. */
  lemma AddAwake(w: World, e: Entry, w': World)
    requires Awake(w)
    requires w'.m == AddLocked(w.m, e).m && w'.fronts == w.fronts + B(AddLocked(w.m, e).front)
    requires w'.seen == w.seen && w'.last == w.last && w'.clock >= w.clock
    requires w'.added.Keys >= w.added.Keys
    requires e.ms <= e.next && e.next - e.ms <= w'.clock && e.addr !in w.last
    ensures Awake(w')
  {
    InsertMember(w.m.q, e);
    var r := Rank(w.m.q, e.next, e.addr);
    if !w'.m.tickled {
      assert r > 0 && Before(w.m.q[0].next, w.m.q[0].addr, e.next, e.addr);
      assert Fits(w, w.m.q[0]);
    }
  }

  lemma AwakeAdd(w: World, op: Op, now: Word)
    requires Sound(w) && Awake(w) && Possible(w, op) && Steady(w, op, now) && op.Add?
    ensures Awake(Advance(w, op, now))
  {
    AddAwake(w, Entry(op.addr, op.recurring, op.ms, Plus(now, op.ms), op.cb), Advance(w, op, now));
  }

  lemma AwakeReset(w: World, op: Op, now: Word)
    requires Sound(w) && Awake(w) && Steady(w, op, now) && op.Reset?
    ensures Awake(Advance(w, op, now))
  {
    var m, i := w.m, Index(w.m.q, op.addr);
    if Step(m, op, now).m == m {
      assert Addrs([]) == [];
      forall e | e in m.q ensures Fits(Advance(w, op, now), e) { assert Fits(w, e); }
    } else {
      var e := m.q[i];
      assert e in m.q && Fits(w, e);
      var w1 := w.(m := m.(q := Without(m.q, i)), last := w.last - {op.addr});
      WithoutAwake(w, i, w1);
      var start := if op.fromNow then now else Minus(e.next, e.ms);
      AddAwake(w1, e.(ms := op.ms, next := Plus(start, op.ms)), Advance(w, op, now));
    }
  }

  lemma WithoutAwake(w: World, i: nat, w': World)
    requires Awake(w) && Distinct(w.m.q) && i < |w.m.q|
    requires w' == w.(m := w.m.(q := Without(w.m.q, i)), last := w.last - {w.m.q[i].addr})
    ensures Awake(w')
  {
    WithoutMember(w.m.q, i);
    forall x | x in w'.m.q ensures Fits(w', x) { assert Fits(w, x); }
  }

  /** Moving a deadline back needs no announcement. */
  lemma Postpone(w: World, i: nat, e: Entry, w': World)
    requires Awake(w) && Distinct(w.m.q) && i < |w.m.q|
    requires w' == w.(m := w.m.(q := Insert(Without(w.m.q, i), e)), clock := w'.clock) && w.clock <= w'.clock
    requires e.addr == w.m.q[i].addr && e.ms == w.m.q[i].ms && e.next >= w.m.q[i].next
    requires e.next - e.ms <= w'.clock
    ensures Awake(w')
  {
    WithoutMember(w.m.q, i);
    InsertMember(Without(w.m.q, i), e);
    assert Fits(w, w.m.q[i]);
    forall x | x in w'.m.q ensures Fits(w', x) {
      if x != e { assert Fits(w, x); }
    }
  }

  /** `refresh` does not look at the front: it only moves a deadline back. */
  lemma AwakeRefresh(w: World, op: Op, now: Word)
    requires Sound(w) && Awake(w) && Steady(w, op, now) && op.Refresh?
    ensures Awake(Advance(w, op, now))
  {
    var i := Index(w.m.q, op.addr);
    assert Addrs([]) == [];
    if i < |w.m.q| {
      var e := w.m.q[i];
      assert e in w.m.q && Fits(w, e);
      Postpone(w, i, e.(next := Plus(now, e.ms)), Advance(w, op, now));
    }
  }

  lemma AwakeCancel(w: World, op: Op, now: Word)
    requires Sound(w) && Awake(w) && Steady(w, op, now) && op.Cancel?
    ensures Awake(Advance(w, op, now))
  {
    if Index(w.m.q, op.addr) < |w.m.q| { WithoutMember(w.m.q, Index(w.m.q, op.addr)); }
  }

  lemma AwakeNext(w: World, op: Op, now: Word)
    requires Sound(w) && Awake(w) && Steady(w, op, now) && op.Next?
    ensures Awake(Advance(w, op, now))
  {
    forall e | e in w.m.q ensures Fits(Advance(w, op, now), e) {
      assert Fits(w, e);
      FirstIsEarliest(w.m.q, e);
    }
  }

  lemma {:induction false} StampKeys(fired: seq<Entry>, now: Word)
    ensures forall a :: a in Stamp(fired, now) <==> Has(fired, a, true)
    ensures forall a :: a in Stamp(fired, now) ==> Stamp(fired, now)[a] == now
  {
    if fired != [] {
      StampKeys(fired[1..], now);
      assert forall e :: e in fired <==> e == fired[0] || e in fired[1..];
      assert forall a :: Has(fired, a, true) <==>
               Has(fired[1..], a, true) || (fired[0].recurring && fired[0].addr == a);
    }
  }

  /** After expiry: what was not due fits as before, what was re-armed lies a period ahead. */
  lemma ExpireFits(w: World, now: Word, w': World, e: Entry)
    requires Sound(w) && Awake(w) && Steady(w, Expire, now)
    requires var k := Due(w.m.q, now);
             && w'.m == w.m.(q := Rearm(w.m.q[k..], w.m.q[..k], now), previous := now)
             && w'.last == w.last + Stamp(w.m.q[..k], now) && w'.clock == now && w'.seen == w.seen
    requires e in w'.m.q
    ensures Fits(w', e)
  {
    var k := Due(w.m.q, now);
    RearmMember(w.m.q[k..], w.m.q[..k], now);
    StampKeys(w.m.q[..k], now);
    if e in w.m.q[k..] {
      assert e in w.m.q && Fits(w, e);
      NotBoth(w.m.q, k, e);
    } else {
      RearmedFits(w, now, w', e, k);
    }
  }

  lemma RearmedFits(w: World, now: Word, w': World, e: Entry, k: nat)
    requires Awake(w) && Steady(w, Expire, now) && k == Due(w.m.q, now) && w'.m.tickled == w.m.tickled
    requires w'.last == w.last + Stamp(w.m.q[..k], now) && w'.clock == now && w'.seen == w.seen
    requires exists f :: f in w.m.q[..k] && f.recurring && e == f.(next := Plus(now, f.ms))
    ensures Fits(w', e)
  {
    var fired := w.m.q[..k];
    StampKeys(fired, now);
    var f :| f in fired && f.recurring && e == f.(next := Plus(now, f.ms));
    var i :| 0 <= i < k && fired[i] == f;
    assert w.m.q[i] == f && f in w.m.q && Fits(w, f);
    assert Has(fired, f.addr, true);
  }

  lemma StampAdded(w: World, k: nat, now: Word, a: nat)
    requires Sound(w) && k <= |w.m.q| && a in Stamp(w.m.q[..k], now)
    ensures a in w.added && Stamp(w.m.q[..k], now)[a] == now
  {
    StampKeys(w.m.q[..k], now);
    SplitHas(w.m.q, k, a, true);
    assert Accounted(w, a);
  }

  lemma AwakeExpire(w: World, op: Op, now: Word)
    requires Sound(w) && Awake(w) && Steady(w, op, now) && op.Expire?
    ensures Awake(Advance(w, op, now))
  {
    var w' := Advance(w, op, now);
    var k := Due(w.m.q, now);
    if w.m.q != [] {
      assert !Rollover(now, w.m.previous);
      forall e | e in w'.m.q ensures Fits(w', e) { ExpireFits(w, now, w', e); }
      forall a | a in w'.last ensures a in w'.added && w'.last[a] <= w'.clock {
        if a in Stamp(w.m.q[..k], now) { StampAdded(w, k, now, a); }
      }
    }
  }

  lemma NotBoth(q: seq<Entry>, k: nat, e: Entry)
    requires Valid(q) && k <= |q| && e in q[k..]
    ensures !Has(q[..k], e.addr, true)
  {
    ArmedHas(q[..k], e.addr);
    ArmedHas(q[k..], e.addr);
    assert Has(q[k..], e.addr, e.recurring);
    if Armed(q[..k], e.addr) { SplitOnce(q, k, e.addr); }
  }

  lemma {:induction false} RunAwake(w: World, ops: seq<(Op, Word)>)
    requires Sound(w) && Awake(w) && Run(w, ops) && SteadyRun(w, ops)
    ensures Sound(Exec(w, ops)) && Awake(Exec(w, ops))
    decreases |ops|
  {
    if ops != [] {
      var (op, now) := ops[0];
      AdvanceSound(w, op, now);
      match op
      case Add(_, _, _, _) => AwakeAdd(w, op, now);
      case Cancel(_) => AwakeCancel(w, op, now);
      case Refresh(_) => AwakeRefresh(w, op, now);
      case Reset(_, _, _) => AwakeReset(w, op, now);
      case Next => AwakeNext(w, op, now);
      case Expire => AwakeExpire(w, op, now);
    }
    if ops != [] {
      RunAwake(Advance(w, ops[0].0, ops[0].1), ops[1..]);
    }
  }

  /** `w` is where a run under a steady clock has got to. */
  ghost predicate Reached(w: World, now: Word, ops: seq<(Op, Word)>) {
    Run(Start(now), ops) && SteadyRun(Start(now), ops) && w == Exec(Start(now), ops)
  }

  lemma ReachedAwake(w: World, now: Word, ops: seq<(Op, Word)>)
    requires Reached(w, now, ops)
    ensures Sound(w) && Awake(w)
  {
    RunAwake(Start(now), ops);
  }

  /** No lost wake-up: in every reachable state either one call of onTimerInsertedAtFront is out since the
      last getNextTimer and the latch is set, or no deadline is earlier than the one that call saw. */
  lemma NoLostWakeUp(w: World, now: Word, ops: seq<(Op, Word)>)
    requires Reached(w, now, ops)
    ensures || (w.m.tickled && w.fronts == 1)
            || (!w.m.tickled && w.fronts == 0 && (w.m.q == [] || w.m.q[0].next >= w.seen))
  {
    ReachedAwake(w, now, ops);
    assert w.m.q != [] ==> w.m.q[0] in w.m.q && Fits(w, w.m.q[0]);
  }

  /** A recurring timer that was not reset fires again only a full period after it fired last. */
  lemma RecurringSpacing(w: World, now: Word, ops: seq<(Op, Word)>, t: Word, e: Entry)
    requires Reached(w, now, ops) && Steady(w, Expire, t)
    requires e in Step(w.m, Expire, t).fired && e.addr in w.last
    ensures w.last[e.addr] + e.ms <= t
  {
    ReachedAwake(w, now, ops);
    var k := Due(w.m.q, t);
    var i :| 0 <= i < |w.m.q[..k]| && w.m.q[..k][i] == e;
    assert w.m.q[i] == e && e in w.m.q && Fits(w, e);
  }
}
