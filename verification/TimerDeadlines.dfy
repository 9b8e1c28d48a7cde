/** Expiry and the deadline the idle loop waits for agree with each other and with the timer set. */
module TimerDeadlines {
  import opened Words
  import opened TimerSpec
  import opened TimerOrder

  /** The comparator orders timers that are not null strictly and totally. */
  lemma LessIsStrictTotal(x: Entry, y: Entry, z: Entry)
    ensures !Less(x, x)
    ensures Less(x, y) && Less(y, z) ==> Less(x, z)
    ensures x.addr != y.addr ==> (Less(x, y) <==> !Less(y, x))
  {
  }

  lemma DueCut(q: seq<Entry>, now: Word)
    requires Valid(q)
    ensures forall e :: e in q[..Due(q, now)] <==> e in q && e.next <= now
  {
    var k := Due(q, now);
    forall i | k <= i < |q| ensures q[i].next > now {
      assert i > k ==> Less(q[k], q[i]);
    }
    forall e | e in q && e.next <= now ensures e in q[..k] {
      var i :| 0 <= i < |q| && q[i] == e;
      assert q[..k][i] == e;
    }
    forall e | e in q[..k] ensures e in q && e.next <= now {
      var i :| 0 <= i < k && q[..k][i] == e;
      assert q[i] == e;
    }
  }

  lemma CutMultiset(q: seq<Entry>, k: nat)
    requires k <= |q|
    ensures multiset(q[..k]) + multiset(q[k..]) == multiset(q)
  {
    assert q == q[..k] + q[k..];
  }

  /** One expiry hands out exactly the timers that are due -- all of them after a rollover -- in deadline
      order and once each. */
  lemma ExpiryFires(m: Manager, now: Word)
    requires Valid(m.q)
    ensures var fired := Step(m, Expire, now).fired;
            && Valid(fired)
            && (forall e :: e in fired <==> e in m.q && (Rollover(now, m.previous) || e.next <= now))
  {
    var k := if Rollover(now, m.previous) then |m.q| else Due(m.q, now);
    CutValid(m.q, k);
    DueCut(m.q, now);
    assert m.q[..|m.q|] == m.q;
  }

  /** They are handed out by deadline, those with the same deadline by address. */
  lemma ExpiryOrder(m: Manager, now: Word, i: nat, j: nat)
    requires Valid(m.q) && i < j < |Step(m, Expire, now).fired|
    ensures var (x, y) := (Step(m, Expire, now).fired[i], Step(m, Expire, now).fired[j]);
            x.next < y.next || (x.next == y.next && x.addr < y.addr)
  {
    assert Less(m.q[i], m.q[j]);
  }

  /** What remains is what was not due, and the recurring ones a period from now. */
  lemma ExpiryLeaves(m: Manager, now: Word)
    requires Valid(m.q)
    ensures var o := Step(m, Expire, now);
            multiset(o.m.q) + multiset(o.fired) == multiset(m.q) + multiset(Again(o.fired, now))
  {
    if m.q != [] {
      var k := if Rollover(now, m.previous) then |m.q| else Due(m.q, now);
      CutValid(m.q, k);
      CutMultiset(m.q, k);
      RearmValid(m.q[k..], m.q[..k], now);
    }
  }

  /** A rollover is a step back by more than an hour -- except that the unsigned subtraction wraps while the
      previous time is below an hour, and then any step back counts. */
  lemma RolloverExactly(now: Word, previous: Word)
    ensures Rollover(now, previous) <==> (if previous >= HOUR then now + HOUR < previous else now < previous)
  {
  }

  /** getNextTimer says 0 exactly when an expiry at the same time has something to hand out. */
  lemma ZeroWaitMeansDue(m: Manager, now: Word)
    requires Valid(m.q) && !Rollover(now, m.previous)
    ensures Step(m, Next, now).wait == 0 <==> Step(m, Expire, now).fired != []
  {
  }

  /** getNextTimer says "none" exactly when there is no timer, or at time 0 for one at the largest deadline. */
  lemma NeverMeansEmpty(m: Manager, now: Word)
    ensures Step(m, Next, now).wait == NEVER <==> m.q == [] || (now == 0 && m.q[0].next == NEVER)
  {
  }

  /** Sleeping for what getNextTimer said is enough, and nothing less is. */
  lemma WaitReachesDeadline(m: Manager, now: Word, later: Word)
    requires Valid(m.q) && m.q != [] && now <= later && !Rollover(later, m.previous)
    ensures Step(m, Expire, later).fired != [] <==> later >= now + Step(m, Next, now).wait
  {
  }
}

/** The wait of IOManager::idle. */
module IdleWait {
  import opened Words

  const MAX_TIMEOUT: nat := 3000

  /** `(int)x` for an unsigned 64-bit x. */
  function AsInt(x: Word): int {
    var low := x % 0x1_0000_0000;
    if low < 0x8000_0000 then low else low - 0x1_0000_0000
  }

  function Clamp(next: Word): Word {
    if next != NEVER then (if AsInt(next) > MAX_TIMEOUT then MAX_TIMEOUT else next) else MAX_TIMEOUT
  }

  /** The do-while around epoll_wait: `interrupts` calls fail with EINTR before one returns.
      `args` are the timeouts passed, call by call. */
  method Wait(nextTimeout: Word, interrupts: nat) returns (args: seq<int>)
    ensures |args| == interrupts + 1
    ensures forall i :: 0 <= i < |args| ==> args[i] == AsInt(Clamp(nextTimeout))
  {
    var next := nextTimeout;
    args := [];
    var left := interrupts;
    while true
      invariant |args| + left == interrupts
      invariant forall i :: 0 <= i < |args| ==> args[i] == AsInt(Clamp(nextTimeout))
      invariant next == nextTimeout || next == Clamp(nextTimeout)
      decreases left
    {
      if next != NEVER {
        next := if AsInt(next) > MAX_TIMEOUT then MAX_TIMEOUT else next;
      } else {
        next := MAX_TIMEOUT;
      }
      ClampTwice(nextTimeout);
      args := args + [AsInt(next)];
      if left == 0 {
        break;
      }
      left := left - 1;
    }
  }

  lemma ClampTwice(next: Word)
    ensures Clamp(Clamp(next)) == Clamp(next)
  {
    assert AsInt(MAX_TIMEOUT) == 3000;
  }

  /** Every timeout passed to epoll_wait is at most three seconds and at most the deadline, exactly if the
      cast to int does not make the deadline negative. */
  lemma WaitBounded(next: Word)
    ensures 0 <= AsInt(Clamp(next)) <= MAX_TIMEOUT && AsInt(Clamp(next)) <= next
            <==> next == NEVER || next % 0x1_0000_0000 < 0x8000_0000
  {
    assert AsInt(MAX_TIMEOUT) == 3000;
    assert NEVER % 0x1_0000_0000 == 0xFFFF_FFFF;
  }

  /** The cast keeps the low 32 bits and reads them as signed. */
  lemma CastExactly(x: Word)
    ensures -0x8000_0000 <= AsInt(x) < 0x8000_0000 && (x - AsInt(x)) % 0x1_0000_0000 == 0
  {
    var high := x / 0x1_0000_0000;
    assert x == high * 0x1_0000_0000 + x % 0x1_0000_0000;
  }

  /** The timeout is the smaller of the deadline and three seconds, exactly if the deadline's low 32 bits, which are
      all that is looked at, are the whole of it or still no less than three seconds. */
  lemma WaitExactly(next: Word)
    ensures var low := next % 0x1_0000_0000;
            AsInt(Clamp(next)) == (if next < 3000 then next else 3000)
            <==> next == NEVER || (low < 0x8000_0000 && (low == next || low >= 3000))
  {
    assert AsInt(MAX_TIMEOUT) == 3000;
    assert NEVER % 0x1_0000_0000 == 0xFFFF_FFFF;
  }

  /** A deadline just short of 25 days away makes the idle fiber wait without limit. */
  lemma FarDeadlineWaitsForever()
    ensures AsInt(Clamp(0x8000_0000)) < 0
  {
    assert 0x8000_0000 % 0x1_0000_0000 == 0x8000_0000;
  }
}
