/** The order of the timer set through insertion, removal and re-arming. */
module TimerOrder {
  import opened Words
  import opened TimerSpec

  ghost predicate Valid(q: seq<Entry>) { Sorted(q) && Distinct(q) }

  lemma {:induction false} RankUnique(q: seq<Entry>, n: Word, a: nat, i: nat)
    requires i <= |q| && (forall j :: 0 <= j < i ==> Before(q[j].next, q[j].addr, n, a))
    requires i < |q| ==> !Before(q[i].next, q[i].addr, n, a)
    ensures Rank(q, n, a) == i
  {
    var r := Rank(q, n, a);
  }

  lemma DueUnique(q: seq<Entry>, now: Word, k: nat)
    requires k <= |q| && (forall j :: 0 <= j < k ==> q[j].next <= now) && (k < |q| ==> q[k].next > now)
    ensures Due(q, now) == k
  {
    var d := Due(q, now);
  }

  lemma IndexUnique(q: seq<Entry>, i: nat)
    requires Distinct(q) && i < |q|
    ensures Index(q, q[i].addr) == i
  {
    var j := Index(q, q[i].addr);
  }

  lemma IndexArmed(q: seq<Entry>, a: nat)
    ensures Index(q, a) < |q| <==> Armed(q, a)
  {
    if Armed(q, a) {
      var i :| 0 <= i < |q| && q[i].addr == a;
      assert !(i < Index(q, a));
    }
  }

  lemma InsertValid(q: seq<Entry>, e: Entry)
    requires Valid(q) && !Armed(q, e.addr)
    ensures Valid(Insert(q, e))
    ensures multiset(Insert(q, e)) == multiset(q) + multiset{e}
    ensures forall a :: Armed(Insert(q, e), a) <==> Armed(q, a) || a == e.addr
  {
    InsertSorted(q, e);
    InsertDistinct(q, e);
    InsertArmed(q, e);
    InsertCounts(q, e);
  }

  lemma InsertCounts(q: seq<Entry>, e: Entry)
    ensures multiset(Insert(q, e)) == multiset(q) + multiset{e}
  {
    var i := Rank(q, e.next, e.addr);
    assert q == q[..i] + q[i..];
  }

  lemma InsertSorted(q: seq<Entry>, e: Entry)
    requires Sorted(q) && !Armed(q, e.addr)
    ensures Sorted(Insert(q, e))
  {
    var i := Rank(q, e.next, e.addr);
    forall j | i <= j < |q| ensures Less(e, q[j]) {
      assert q[j].addr != e.addr;
      if i < j { assert Less(q[i], q[j]); }
    }
  }

  lemma InsertDistinct(q: seq<Entry>, e: Entry)
    requires Distinct(q) && !Armed(q, e.addr)
    ensures Distinct(Insert(q, e))
  {
  }

  lemma InsertArmed(q: seq<Entry>, e: Entry)
    ensures forall a :: Armed(Insert(q, e), a) <==> Armed(q, a) || a == e.addr
  {
    var i := Rank(q, e.next, e.addr);
    var r := Insert(q, e);
    forall a ensures Armed(r, a) <==> Armed(q, a) || a == e.addr {
      if Armed(q, a) {
        var j :| 0 <= j < |q| && q[j].addr == a;
        assert r[if j < i then j else j + 1].addr == a;
      }
      assert r[i].addr == e.addr;
    }
  }

  lemma WithoutValid(q: seq<Entry>, i: nat)
    requires Valid(q) && i < |q|
    ensures Valid(Without(q, i)) && multiset(Without(q, i)) == multiset(q) - multiset{q[i]}
    ensures forall a :: Armed(Without(q, i), a) <==> Armed(q, a) && a != q[i].addr
  {
    WithoutCounts(q, i);
    forall a ensures Armed(Without(q, i), a) <==> Armed(q, a) && a != q[i].addr { WithoutArmed(q, i, a); }
  }

  lemma WithoutCounts(q: seq<Entry>, i: nat)
    requires i < |q|
    ensures multiset(Without(q, i)) == multiset(q) - multiset{q[i]}
  {
    assert q == q[..i] + [q[i]] + q[i+1..];
  }

  lemma WithoutArmed(q: seq<Entry>, i: nat, a: nat)
    requires Distinct(q) && i < |q|
    ensures Armed(Without(q, i), a) <==> Armed(q, a) && a != q[i].addr
  {
    var r := Without(q, i);
    if Armed(q, a) && a != q[i].addr {
      var j :| 0 <= j < |q| && q[j].addr == a;
      assert r[if j < i then j else j - 1].addr == a;
    }
    if Armed(r, a) {
      var j :| 0 <= j < |r| && r[j].addr == a;
      assert q[if j < i then j else j + 1].addr == a;
    }
  }

  /** The recurring ones among `fired`, a period from `now`. */
  function Again(fired: seq<Entry>, now: Word): seq<Entry> {
    if fired == [] then []
    else
      var e := fired[0];
      (if e.recurring then [e.(next := Plus(now, e.ms))] else []) + Again(fired[1..], now)
  }

  ghost predicate Apart(q: seq<Entry>, fired: seq<Entry>) {
    forall j :: 0 <= j < |fired| ==> !Armed(q, fired[j].addr)
  }

  /** Re-arming keeps the order and adds exactly the recurring timers, each at `now` plus its period. */
  lemma {:induction false} RearmValid(q: seq<Entry>, fired: seq<Entry>, now: Word)
    requires Valid(q) && Distinct(fired) && Apart(q, fired)
    ensures Valid(Rearm(q, fired, now))
    ensures multiset(Rearm(q, fired, now)) == multiset(q) + multiset(Again(fired, now))
    decreases |fired|
  {
    if fired != [] {
      var e := fired[0];
      var e' := e.(next := Plus(now, e.ms));
      if e.recurring {
        InsertValid(q, e');
        assert forall j :: 0 <= j < |fired[1..]| ==> fired[1..][j].addr != fired[0].addr;
      }
      RearmValid(if e.recurring then Insert(q, e') else q, fired[1..], now);
      assert multiset([e'] + Again(fired[1..], now)) == multiset{e'} + multiset(Again(fired[1..], now));
    }
  }

  lemma {:induction false} RearmSnoc(q: seq<Entry>, fired: seq<Entry>, e: Entry, now: Word)
    ensures Rearm(q, fired + [e], now)
            == (var r := Rearm(q, fired, now); if e.recurring then Insert(r, e.(next := Plus(now, e.ms))) else r)
    decreases |fired|
  {
    if fired == [] {
      assert fired + [e] == [e];
      assert [e][1..] == [];
    } else {
      var f := fired[0];
      assert (fired + [e])[1..] == fired[1..] + [e];
      RearmSnoc(if f.recurring then Insert(q, f.(next := Plus(now, f.ms))) else q, fired[1..], e, now);
    }
  }

  lemma CutValid(q: seq<Entry>, k: nat)
    requires Valid(q) && k <= |q|
    ensures Valid(q[k..]) && Valid(q[..k]) && Apart(q[k..], q[..k])
  {
    forall j | 0 <= j < k ensures !Armed(q[k..], q[j].addr) {
      assert forall i :: 0 <= i < |q[k..]| ==> q[k..][i] == q[k + i] && q[k + i].addr != q[j].addr;
    }
  }

  lemma ExpireValid(m: Manager, now: Word)
    requires Valid(m.q)
    ensures Valid(ExpireStep(m, now).m.q)
  {
    if m.q != [] {
      var k := if Rollover(now, m.previous) then |m.q| else Due(m.q, now);
      CutValid(m.q, k);
      RearmValid(m.q[k..], m.q[..k], now);
    }
  }

  /** A timer taken out and put back with another deadline or period. */
  lemma MovedValid(q: seq<Entry>, i: nat, e: Entry)
    requires Valid(q) && i < |q| && e.addr == q[i].addr
    ensures Valid(Without(q, i)) && Valid(Insert(Without(q, i), e))
  {
    WithoutValid(q, i);
    InsertValid(Without(q, i), e);
  }

  /** Every operation keeps the timer set strictly sorted, with one entry a timer. */
  lemma {:induction false} StepValid(m: Manager, op: Op, now: Word)
    requires Valid(m.q) && (op.Add? ==> !Armed(m.q, op.addr))
    ensures Valid(Step(m, op, now).m.q)
  {
    match op
    case Add(a, ms, cb, recurring) => InsertValid(m.q, Entry(a, recurring, ms, Plus(now, ms), cb));
    case Next =>
    case Expire => ExpireValid(m, now);
    case Cancel(a) =>
      if Index(m.q, a) < |m.q| { WithoutValid(m.q, Index(m.q, a)); }
    case Refresh(a) =>
      var i := Index(m.q, a);
      if i < |m.q| { MovedValid(m.q, i, m.q[i].(next := Plus(now, m.q[i].ms))); }
    case Reset(a, ms, fromNow) =>
      var i := Index(m.q, a);
      if i < |m.q| {
        var start := if fromNow then now else Minus(m.q[i].next, m.q[i].ms);
        MovedValid(m.q, i, m.q[i].(ms := ms, next := Plus(start, ms)));
      }
  }
}
