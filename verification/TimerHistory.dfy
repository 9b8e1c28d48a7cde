/** What the timer manager does in terms of what happened before: which expiry counts as a rollover, and when a new
    front is reported. */
module TimerHistory {
  import opened Words
  import opened TimerSpec
  import opened TimerOrder
  import opened TimerDeadlines
  import opened TimerRuns

  /** When the set was last looked through for expired timers while there were any; `t` if it was not. */
  ghost function LastExpiry(w: World, ops: seq<(Op, Word)>, t: Word): Word
    decreases |ops|
  {
    if ops == [] then t
    else LastExpiry(Advance(w, ops[0].0, ops[0].1), ops[1..], if ops[0].0.Expire? && w.m.q != [] then ops[0].1 else t)
  }

  lemma PreviousStep(w: World, op: Op, now: Word)
    ensures Advance(w, op, now).m.previous == if op.Expire? && w.m.q != [] then now else w.m.previous
  {
    assert Advance(w, op, now).m == Step(w.m, op, now).m;
  }

  lemma {:induction false} PreviousIs(w: World, ops: seq<(Op, Word)>)
    ensures Exec(w, ops).m.previous == LastExpiry(w, ops, w.m.previous)
    decreases |ops|
  {
    if ops != [] {
      PreviousStep(w, ops[0].0, ops[0].1);
      PreviousIs(Advance(w, ops[0].0, ops[0].1), ops[1..]);
    }
  }

  /** Over every run, whatever the clock does: an expiry hands out exactly the timers that are due, and the others
      too if the clock has gone back by more than an hour since the last one -- or at all, if that was within the
      first hour of the clock. */
  lemma ExpiryOverRuns(start: Word, ops: seq<(Op, Word)>, now: Word, e: Entry)
    requires Run(Start(start), ops)
    ensures var (w, t) := (Exec(Start(start), ops), LastExpiry(Start(start), ops, start));
            e in Step(w.m, Expire, now).fired
            <==> e in w.m.q && (e.next <= now || (if t >= 3600000 then now + 3600000 < t else now < t))
  {
    var w := Exec(Start(start), ops);
    RunSound(Start(start), ops);
    PreviousIs(Start(start), ops);
    ExpiryFires(w.m, now);
    RolloverExactly(now, w.m.previous);
  }

  /** Two expiries, the first of which left timers: when the clock has gone back by more than an hour in between, the
      second fires all of them, else those that are due. */
  lemma SecondExpiry(m: Manager, t1: Word, t2: Word)
    requires Valid(m.q) && m.q != [] && t1 >= 3600000
    ensures var m' := Step(m, Expire, t1).m;
            && (t2 + 3600000 < t1 ==> Step(m', Expire, t2).fired == m'.q)
            && (t2 + 3600000 >= t1 ==> forall e :: e in Step(m', Expire, t2).fired <==> e in m'.q && e.next <= t2)
  {
    var m' := Step(m, Expire, t1).m;
    StepValid(m, Expire, t1);
    ExpiryFires(m', t2);
    RolloverExactly(t2, t1);
    assert m'.q[..|m'.q|] == m'.q;
  }

  /** The operation adds the timer, or resets it to something else. */
  ghost predicate Moved(m: Manager, op: Op, a: nat) {
    match op
    case Add(b, _, _, _) => a == b
    case Reset(b, ms, fromNow) => a == b && exists e :: e in m.q && e.addr == a && (fromNow || e.ms != ms)
    case _ => false
  }

  /** A new front is reported exactly for a timer that was added, or really reset, and is now first, unless one was
      reported since the last getNextTimer. */
  lemma FrontExactly(m: Manager, op: Op, now: Word)
    requires Valid(m.q) && (op.Add? ==> !Armed(m.q, op.addr))
    ensures var o := Step(m, op, now);
            && (o.front <==> !m.tickled && o.m.q != [] && Moved(m, op, o.m.q[0].addr))
            && o.m.tickled == (!op.Next? && (m.tickled || o.front))
  {
    match op
    case Add(a, ms, cb, recurring) => FrontOfAdd(m, Entry(a, recurring, ms, Plus(now, ms), cb));
    case Reset(a, ms, fromNow) =>
      var i := Index(m.q, a);
      if i < |m.q| {
        assert m.q[i] in m.q;
        forall e | e in m.q && e.addr == a ensures e == m.q[i] { OnlyEntryOf(m.q, a, e); }
        if ms != m.q[i].ms || fromNow { FrontOfReset(m, i, ms, fromNow, now); }
      } else {
        Unarmed(m.q, a);
      }
    case _ =>
  }

  lemma FrontOfAdd(m: Manager, e: Entry)
    requires !Armed(m.q, e.addr)
    ensures AddLocked(m, e).front <==> !m.tickled && AddLocked(m, e).m.q[0].addr == e.addr
  {
    if Rank(m.q, e.next, e.addr) > 0 { assert m.q[0].addr != e.addr; }
  }

  lemma FrontOfReset(m: Manager, i: nat, ms: Word, fromNow: bool, now: Word)
    requires Valid(m.q) && i < |m.q| && (ms != m.q[i].ms || fromNow)
    ensures var o := ResetStep(m, m.q[i].addr, ms, fromNow, now);
            && (o.front <==> !m.tickled && o.m.q[0].addr == m.q[i].addr) && o.m.tickled == (m.tickled || o.front)
  {
    var (e, rest) := (m.q[i], Without(m.q, i));
    IndexUnique(m.q, i);
    assert !Armed(rest, e.addr);
    FrontOfAdd(m.(q := rest), e.(ms := ms, next := Plus(if fromNow then now else Minus(e.next, e.ms), ms)));
  }

  /** Cancelling, refreshing and resetting succeed exactly on a timer that is in the set. */
  lemma OkExactly(m: Manager, op: Op, now: Word)
    requires op.Cancel? || op.Refresh? || op.Reset?
    ensures Step(m, op, now).ok <==> Armed(m.q, op.addr)
  {
    IndexArmed(m.q, op.addr);
  }

  /** The arithmetic is that of unsigned 64-bit words. */
  lemma WordArithmetic(a: Word, b: Word)
    ensures Plus(a, b) == (a + b) % 0x1_0000_0000_0000_0000
    ensures Minus(a, b) == (a - b) % 0x1_0000_0000_0000_0000
  {
  }
}
