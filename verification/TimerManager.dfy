/** The timers of `timer.cc` as objects: a manager holding a set ordered by a key that its elements carry
    and change. Every method is tied to the step of `TimerSpec` it performs. */
module Timers {
  import opened Options
  import opened Words
  import opened TimerSpec
  import opened TimerOrder

  class Timer {
    const addr: nat               // the object's address, all that the comparator uses of it
    const recurring: bool
    const manager: TimerManager
    var ms: Word
    var next: Word
    var cb: Option<Callback>

    constructor (addr: nat, ms: Word, cb: Callback, recurring: bool, manager: TimerManager, now: Word)
      ensures this.addr == addr && this.recurring == recurring && this.manager == manager
      ensures this.ms == ms && this.next == Plus(now, ms) && this.cb == Some(cb)
    {
      this.addr, this.recurring, this.manager := addr, recurring, manager;
      this.ms, this.next, this.cb := ms, Plus(now, ms), Some(cb);
    }

    /** The object agrees with an entry; a callback already dropped agrees with any. */
    predicate Is(e: Entry) reads this {
      addr == e.addr && recurring == e.recurring && ms == e.ms && next == e.next && (cb.Some? ==> cb.value == e.cb)
    }

    /** Timer::cancel. The erase is unchecked: it relies on `find` having found the timer. */
    method Cancel() returns (ok: bool)
      requires manager.Valid() && this in manager.all
      modifies this`cb, manager`timers, manager`q
      ensures manager.Valid() && cb.None?
      ensures manager.View() == CancelStep(old(manager.View()), addr).m
      ensures ok == old(cb.Some?) == CancelStep(old(manager.View()), addr).ok
    {
      IndexArmed(manager.q, addr);
      if cb.Some? {
        cb := None;
        var i := manager.Find(this);
        IndexUnique(manager.q, i);
        manager.EraseAt(i);
        return true;
      }
      return false;
    }

    /** Timer::refresh. */
    method Refresh(now: Word) returns (ok: bool)
      requires manager.Valid() && this in manager.all
      modifies this`next, manager`timers, manager`q
      ensures manager.Valid()
      ensures manager.View() == RefreshStep(old(manager.View()), addr, now).m
      ensures ok == cb.Some? == RefreshStep(old(manager.View()), addr, now).ok
    {
      IndexArmed(manager.q, addr);
      manager.IndexOf(this);
      if cb.None? {
        return false;
      }
      var i := manager.Find(this);
      if i == |manager.timers| {
        return false;
      }
      IndexUnique(manager.q, i);
      ghost var e := manager.q[i].(next := Plus(now, ms));
      manager.EraseAt(i);
      InsertAgain(Plus(now, ms), e);
      return true;
    }

    /** The deadline changes while the timer is outside the set. */
    method InsertAgain(next: Word, ghost e: Entry)
      requires manager.Placed() && this in manager.all && !Armed(manager.q, addr)
      requires e.addr == addr && e.recurring == recurring && e.ms == ms && e.next == next && cb == Some(e.cb)
      modifies this`next, manager`timers, manager`q
      ensures manager.Placed() && manager.q == Insert(old(manager.q), e)
      ensures forall a :: Armed(manager.q, a) <==> Armed(old(manager.q), a) || a == addr
    {
      this.next := next;
      var j := manager.InsertTimer(this, e);
    }

    /** Timer::reset. */
    method Reset(ms: Word, fromNow: bool, now: Word) returns (ok: bool)
      requires manager.Valid() && this in manager.all
      modifies this`ms, this`next, manager`timers, manager`q, manager`tickled, manager`fronts
      ensures manager.Valid()
      ensures ok == (cb.Some? || (ms == old(this.ms) && !fromNow))
      ensures manager.View() == ResetStep(old(manager.View()), addr, ms, fromNow, now).m
      ensures manager.fronts == old(manager.fronts)
              + (if ResetStep(old(manager.View()), addr, ms, fromNow, now).front then 1 else 0)
    {
      IndexArmed(manager.q, addr);
      manager.IndexOf(this);
      if ms == this.ms && !fromNow {
        return true;
      }
      if cb.None? {
        return false;
      }
      var i := manager.Find(this);
      if i == |manager.timers| {
        return false;
      }
      IndexUnique(manager.q, i);
      var start := if fromNow then now else Minus(next, this.ms);
      ghost var e := manager.q[i].(ms := ms, next := Plus(start, ms));
      ghost var r := ResetStep(manager.View(), addr, ms, fromNow, now);
      manager.EraseAt(i);
      assert r == AddLocked(manager.View(), e);
      AddAgain(ms, Plus(start, ms), e);
      return true;
    }

    /** The same, with a new period and through addTimer. */
    method AddAgain(ms: Word, next: Word, ghost e: Entry)
      requires manager.Placed() && this in manager.all && !Armed(manager.q, addr)
      requires e.addr == addr && e.recurring == recurring && e.ms == ms && e.next == next && cb == Some(e.cb)
      modifies this`ms, this`next, manager`timers, manager`q, manager`tickled, manager`fronts
      ensures manager.Placed() && manager.View() == AddLocked(old(manager.View()), e).m
      ensures manager.fronts == old(manager.fronts) + (if AddLocked(old(manager.View()), e).front then 1 else 0)
      ensures forall a :: Armed(manager.q, a) <==> Armed(old(manager.q), a) || a == addr
    {
      this.ms := ms;
      this.next := next;
      manager.AddTimerLocked(this, e);
    }
  }

  class TimerManager {
    var timers: seq<Timer>        // m_timers
    var tickled: bool
    var previous: Word            // m_previouseTime
    ghost var q: seq<Entry>       // what the set holds, as values
    ghost var all: set<Timer>     // every timer object of this manager
    ghost var fronts: nat         // calls of onTimerInsertedAtFront

    constructor (now: Word)
      ensures Valid() && View() == Manager([], false, now) && all == {} && fronts == 0
    {
      timers, tickled, previous := [], false, now;
      q, all, fronts := [], {}, 0;
    }

    ghost function View(): Manager reads this {
      Manager(q, tickled, previous)
    }

    /** The set is strictly ordered by (deadline, address); objects alive have different addresses. */
    ghost predicate Placed()
      reads this, timers, all
    {
      && TimerOrder.Valid(q)
      && |q| == |timers|
      && (forall i :: 0 <= i < |timers| ==> timers[i] in all && timers[i].Is(q[i]))
      && (forall t, u :: t in all && u in all && t.addr == u.addr ==> t == u)
      && (forall t :: t in all ==> t.manager == this)
    }

    /** A timer has its callback exactly if it is in the set. */
    ghost predicate Valid()
      reads this, timers, all
    {
      Placed() && forall t :: t in all ==> (t.cb.Some? <==> Armed(q, t.addr))
    }

    lemma IndexOf(t: Timer)
      requires Placed() && t in all
      ensures Armed(q, t.addr) ==> var i := Index(q, t.addr); i < |timers| && timers[i] == t
    {
      IndexArmed(q, t.addr);
    }

    /** std::set::lower_bound under the comparator. */
    method LowerBound(n: Word, a: nat) returns (i: nat)
      requires Placed()
      ensures i <= |timers| && i == Rank(q, n, a)
    {
      i := 0;
      while i < |timers| && Before(timers[i].next, timers[i].addr, n, a)
        invariant i <= |timers|
        invariant forall j :: 0 <= j < i ==> Before(q[j].next, q[j].addr, n, a)
      {
        i := i + 1;
      }
      RankUnique(q, n, a, i);
    }

    /** std::set::find: |timers| stands for end(). */
    method Find(t: Timer) returns (i: nat)
      requires Placed() && t in all
      ensures i <= |timers|
      ensures i < |timers| <==> Armed(q, t.addr)
      ensures i < |timers| ==> timers[i] == t
    {
      i := LowerBound(t.next, t.addr);
      IndexOf(t);
      if Armed(q, t.addr) {
        RankUnique(q, t.next, t.addr, Index(q, t.addr));
      } else {
        assert i < |timers| ==> q[i].addr != t.addr;
      }
      if i < |timers| && Before(t.next, t.addr, timers[i].next, timers[i].addr) {
        i := |timers|;
      }
    }

    method EraseAt(i: nat)
      requires Placed() && i < |timers|
      modifies this`timers, this`q
      ensures Placed() && q == Without(old(q), i) && timers == old(timers)[..i] + old(timers)[i+1..]
      ensures forall a :: Armed(q, a) <==> Armed(old(q), a) && a != old(q)[i].addr
    {
      WithoutValid(q, i);
      timers := timers[..i] + timers[i+1..];
      q := Without(q, i);
    }

    /** std::set::insert of a timer that is not in the set. */
    method InsertTimer(t: Timer, ghost e: Entry) returns (i: nat)
      requires Placed() && t in all && t.Is(e) && !Armed(q, t.addr)
      modifies this`timers, this`q
      ensures Placed() && q == Insert(old(q), e) && i == Rank(old(q), e.next, e.addr)
      ensures forall a :: Armed(q, a) <==> Armed(old(q), a) || a == t.addr
    {
      i := LowerBound(t.next, t.addr);
      InsertAt(i, t, e);
    }

    /** A new pair of timer and entry keeps the two sequences in step. */
    lemma PairUp(i: nat, t: Timer, e: Entry)
      requires Placed() && t in all && t.Is(e) && i == Rank(q, e.next, e.addr)
      ensures var (ts, es) := (timers[..i] + [t] + timers[i..], Insert(q, e));
              |ts| == |es| && forall j :: 0 <= j < |ts| ==> ts[j] in all && ts[j].Is(es[j])
    {
      var (ts, es) := (timers[..i] + [t] + timers[i..], Insert(q, e));
      forall j | 0 <= j < |ts| ensures ts[j] in all && ts[j].Is(es[j]) {
        if j < i {
          assert ts[j] == timers[j] && es[j] == q[j];
        } else if j > i {
          assert ts[j] == timers[j-1] && es[j] == q[j-1];
        }
      }
    }

    method InsertAt(i: nat, t: Timer, ghost e: Entry)
      requires Placed() && t in all && t.Is(e) && !Armed(q, t.addr) && i == Rank(q, e.next, e.addr)
      modifies this`timers, this`q
      ensures Placed() && q == Insert(old(q), e)
      ensures forall a :: Armed(q, a) <==> Armed(old(q), a) || a == t.addr
    {
      InsertValid(q, e);
      PairUp(i, t, e);
      timers := timers[..i] + [t] + timers[i..];
      q := Insert(q, e);
    }

    /** The protected addTimer: insert, and latch the first insertion at the front. */
    method AddTimerLocked(t: Timer, ghost e: Entry)
      requires Placed() && t in all && t.Is(e) && !Armed(q, t.addr)
      modifies this`timers, this`q, this`tickled, this`fronts
      ensures Placed() && View() == AddLocked(old(View()), e).m
      ensures fronts == old(fronts) + (if AddLocked(old(View()), e).front then 1 else 0)
      ensures forall a :: Armed(q, a) <==> Armed(old(q), a) || a == t.addr
    {
      var i := InsertTimer(t, e);
      var atFront := i == 0 && !tickled;
      if atFront {
        tickled := true;
      }
      if atFront {
        fronts := fronts + 1;    // onTimerInsertedAtFront()
      }
    }

    /** TimerManager::addTimer; `addr` is where the new object lies. */
    method AddTimer(addr: nat, ms: Word, cb: Callback, recurring: bool, now: Word) returns (t: Timer)
      requires Valid() && forall t :: t in all ==> t.addr != addr
      modifies this
      ensures Valid() && fresh(t) && all == old(all) + {t} && t.addr == addr && t.recurring == recurring
      ensures View() == AddLocked(old(View()), Entry(addr, recurring, ms, Plus(now, ms), cb)).m
      ensures fronts == old(fronts)
              + (if AddLocked(old(View()), Entry(addr, recurring, ms, Plus(now, ms), cb)).front then 1 else 0)
    {
      t := new Timer(addr, ms, cb, recurring, this, now);
      all := all + {t};
      AddTimerLocked(t, Entry(addr, recurring, ms, Plus(now, ms), cb));
    }

    /** TimerManager::getNextTimer. */
    method GetNextTimer(now: Word) returns (wait: Word)
      requires Valid()
      modifies this`tickled
      ensures Valid()
      ensures View() == NextStep(old(View()), now).m && wait == NextStep(old(View()), now).wait
    {
      tickled := false;
      if timers == [] {
        return NEVER;
      }
      var first := timers[0];
      if now >= first.next {
        return 0;
      } else {
        return first.next - now;
      }
    }

    method DetectClockRollover(now: Word) returns (rollover: bool)
      modifies this`previous
      ensures rollover == Rollover(now, old(previous)) && previous == now
    {
      rollover := false;
      if now < previous && now < Minus(previous, 60 * 60 * 1000) {
        rollover := true;
      }
      previous := now;
    }

    /** How far listExpiredCb cuts: lower_bound with the probe, then past the equal deadlines. */
    method CutAt(rollover: bool, now: Word, probe: nat) returns (it: nat)
      requires Placed()
      ensures it == if rollover then |q| else Due(q, now)
    {
      if rollover {
        it := |timers|;
      } else {
        it := LowerBound(now, probe);
      }
      while it < |timers| && timers[it].next == now
        invariant it <= |timers| && (rollover ==> it == |timers|)
        invariant !rollover ==> (forall j :: 0 <= j < it ==> q[j].next <= now)
        invariant !rollover && it < |timers| ==> q[it].next >= now
      {
        it := it + 1;
        assert it < |timers| ==> Less(q[it-1], q[it]);
      }
      if !rollover { DueUnique(q, now, it); }
    }

    /** Move the first `it` timers out of the set. */
    method TakeFirst(it: nat) returns (expired: seq<Timer>)
      requires Valid() && it <= |timers|
      modifies this`timers, this`q
      ensures Placed() && q == old(q)[it..] && |expired| == it
      ensures Distinct(old(q)[..it]) && Apart(q, old(q)[..it])
      ensures forall i :: 0 <= i < it ==> expired[i] in all && expired[i].Is(old(q)[..it][i])
      ensures forall t :: t in all ==> (t.cb.Some? <==> Armed(q, t.addr) || Armed(old(q)[..it], t.addr))
    {
      expired := timers[..it];
      CutValid(q, it);
      CutArmed(q, it);
      timers := timers[it..];
      q := q[it..];
    }

    /** Cut the set, hand out what was cut. The probe lies at an arbitrary address. */
    method FireDue(rollover: bool, now: Word, probe: nat) returns (cbs: seq<Callback>)
      requires Valid()
      modifies this`timers, this`q, all`next, all`cb
      ensures Valid()
      ensures var k := if rollover then |old(q)| else Due(old(q), now);
              q == Rearm(old(q)[k..], old(q)[..k], now) && cbs == Callbacks(old(q)[..k])
    {
      var it := CutAt(rollover, now, probe);
      ghost var fired := q[..it];
      var expired := TakeFirst(it);
      assert fired[0..] == fired;
      cbs := FireAll(expired, fired, now);
    }

    /** TimerManager::listExpiredCb. */
    method ListExpiredCb(now: Word, probe: nat) returns (cbs: seq<Callback>)
      requires Valid()
      modifies this`timers, this`previous, this`q, all`next, all`cb
      ensures Valid()
      ensures View() == ExpireStep(old(View()), now).m
      ensures cbs == Callbacks(ExpireStep(old(View()), now).fired)
      ensures forall i :: 0 <= i < |cbs| ==> cbs[i] == ExpireStep(old(View()), now).fired[i].cb
      ensures |cbs| == |ExpireStep(old(View()), now).fired|
    {
      if timers == [] {
        return [];
      }
      var rollover := DetectClockRollover(now);
      if !rollover && timers[0].next > now {
        assert q[0..] == q;
        return [];
      }
      cbs := FireDue(rollover, now, probe);
    }

    /** Hand out one expired timer and put it back if it recurs. */
    method FireOne(t: Timer, ghost e: Entry, now: Word) returns (cb: Callback)
      requires Placed() && t in all && t.Is(e) && t.cb.Some? && !Armed(q, t.addr)
      modifies this`timers, this`q, t`next, t`cb
      ensures Placed() && cb == e.cb && (t.recurring ==> t.cb == old(t.cb)) && (!t.recurring ==> t.cb.None?)
      ensures q == if e.recurring then Insert(old(q), e.(next := Plus(now, e.ms))) else old(q)
      ensures forall a :: Armed(q, a) <==> Armed(old(q), a) || (t.recurring && a == t.addr)
    {
      cb := t.cb.value;
      if t.recurring {
        t.next := Plus(now, t.ms);
        var k := InsertTimer(t, e.(next := Plus(now, e.ms)));
      } else {
        t.cb := None;
      }
    }

    /** In the loop at the end of listExpiredCb: the timers from `i` on are out of the set and still to do. */
    ghost predicate Firing(expired: seq<Timer>, fired: seq<Entry>, i: nat)
      reads this, timers, all, expired
    {
      && Placed() && Distinct(fired) && i <= |fired| == |expired|
      && (forall j :: i <= j < |expired| ==> expired[j] in all && expired[j].Is(fired[j]) && !Armed(q, fired[j].addr))
      && (forall t :: t in all ==> (t.cb.Some? <==> Armed(q, t.addr) || Armed(fired[i..], t.addr)))
    }

    method FireNext(t: Timer, now: Word, ghost expired: seq<Timer>, ghost fired: seq<Entry>, ghost i: nat)
      returns (cb: Callback)
      requires Firing(expired, fired, i) && i < |expired| && t == expired[i]
      modifies this`timers, this`q, t`next, t`cb
      ensures Firing(expired, fired, i + 1) && cb == fired[i].cb
      ensures q == if fired[i].recurring then Insert(old(q), fired[i].(next := Plus(now, fired[i].ms))) else old(q)
    {
      ArmedTail(fired, i);
      cb := FireOne(t, fired[i], now);
    }

    /** The loop at the end of listExpiredCb: hand out the callbacks, re-arm what recurs. */
    method FireAll(expired: seq<Timer>, ghost fired: seq<Entry>, now: Word) returns (cbs: seq<Callback>)
      requires Firing(expired, fired, 0)
      modifies this`timers, this`q, expired`next, expired`cb
      ensures Valid()
      ensures q == Rearm(old(q), fired, now)
      ensures cbs == Callbacks(fired)
    {
      cbs := [];
      ghost var q0 := q;
      for i := 0 to |expired|
        invariant Firing(expired, fired, i)
        invariant cbs == Callbacks(fired[..i])
        invariant q == Rearm(q0, fired[..i], now)
      {
        FiredNext(q0, fired, i, now);
        var cb := FireNext(expired[i], now, expired, fired, i);
        cbs := cbs + [cb];
      }
      assert fired[..|expired|] == fired && fired[|expired|..] == [];
    }
  }

  lemma FiredNext(q: seq<Entry>, fired: seq<Entry>, i: nat, now: Word)
    requires i < |fired|
    ensures Callbacks(fired[..i+1]) == Callbacks(fired[..i]) + [fired[i].cb]
    ensures Rearm(q, fired[..i+1], now)
            == (var r := Rearm(q, fired[..i], now);
                if fired[i].recurring then Insert(r, fired[i].(next := Plus(now, fired[i].ms))) else r)
  {
    assert fired[..i+1] == fired[..i] + [fired[i]];
    RearmSnoc(q, fired[..i], fired[i], now);
  }

  lemma ArmedTail(q: seq<Entry>, i: nat)
    requires i < |q|
    ensures forall a :: Armed(q[i..], a) <==> a == q[i].addr || Armed(q[i+1..], a)
  {
    forall a ensures Armed(q[i..], a) <==> a == q[i].addr || Armed(q[i+1..], a) {
      IndexArmed(q[i..], a);
      assert q[i..][0] == q[i] && q[i..][1..] == q[i+1..];
      IndexArmed(q[i+1..], a);
    }
  }

  lemma CutArmed(q: seq<Entry>, k: nat)
    requires k <= |q|
    ensures forall a :: Armed(q, a) <==> Armed(q[k..], a) || Armed(q[..k], a)
  {
    forall a | Armed(q, a) ensures Armed(q[k..], a) || Armed(q[..k], a) {
      var i :| 0 <= i < |q| && q[i].addr == a;
      if i < k { assert q[..k][i].addr == a; } else { assert q[k..][i-k].addr == a; }
    }
    forall a | Armed(q[k..], a) ensures Armed(q, a) {
      var i :| 0 <= i < |q[k..]| && q[k..][i].addr == a;
      assert q[k + i].addr == a;
    }
    forall a | Armed(q[..k], a) ensures Armed(q, a) {
      var i :| 0 <= i < |q[..k]| && q[..k][i].addr == a;
      assert q[i].addr == a;
    }
  }
}
