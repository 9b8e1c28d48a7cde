/** Unsigned 64-bit arithmetic, as the timers use it. */
module Words {
  const WORD: nat := 0x1_0000_0000_0000_0000

  type Word = x: nat | x < WORD

  function Plus(a: Word, b: Word): Word { if a + b < WORD then a + b else a + b - WORD }

  function Minus(a: Word, b: Word): Word { if a >= b then a - b else a - b + WORD }

  /** `~0ull`: no timer. */
  const NEVER: Word := WORD - 1
}

/** What the timer manager promises, on values: the set of armed timers as a sequence in deadline order.

    `addr` stands for the address of a timer object, which decides between equal deadlines. */
module TimerSpec {
  import opened Words

  type Callback = nat

  datatype Entry = Entry(addr: nat, recurring: bool, ms: Word, next: Word, cb: Callback)

  /** The order of `Timer::Comparator` between timers that are not null. */
  predicate Before(n: Word, a: nat, n': Word, a': nat) { n < n' || (n == n' && a < a') }

  predicate Less(x: Entry, y: Entry) { Before(x.next, x.addr, y.next, y.addr) }

  ghost predicate Sorted(q: seq<Entry>) { forall i, j :: 0 <= i < j < |q| ==> Less(q[i], q[j]) }

  ghost predicate Distinct(q: seq<Entry>) { forall i, j :: 0 <= i < j < |q| ==> q[i].addr != q[j].addr }

  ghost predicate Armed(q: seq<Entry>, a: nat) { exists i :: 0 <= i < |q| && q[i].addr == a }

  function Index(q: seq<Entry>, a: nat): (i: nat)
    ensures i <= |q|
    ensures i < |q| ==> q[i].addr == a
    ensures forall j :: 0 <= j < i ==> q[j].addr != a
  {
    if q == [] || q[0].addr == a then 0 else 1 + Index(q[1..], a)
  }

  function Without(q: seq<Entry>, i: nat): seq<Entry>
    requires i < |q|
  {
    q[..i] + q[i+1..]
  }

  /** How many timers come before a deadline and address. */
  function Rank(q: seq<Entry>, n: Word, a: nat): (i: nat)
    ensures i <= |q|
    ensures forall j :: 0 <= j < i ==> Before(q[j].next, q[j].addr, n, a)
    ensures i < |q| ==> !Before(q[i].next, q[i].addr, n, a)
  {
    if q == [] || !Before(q[0].next, q[0].addr, n, a) then 0 else 1 + Rank(q[1..], n, a)
  }

  function Insert(q: seq<Entry>, e: Entry): seq<Entry> {
    var i := Rank(q, e.next, e.addr);
    q[..i] + [e] + q[i..]
  }

  /** How many timers at the head are due at `now`. */
  function Due(q: seq<Entry>, now: Word): (k: nat)
    ensures k <= |q|
    ensures forall j :: 0 <= j < k ==> q[j].next <= now
    ensures k < |q| ==> q[k].next > now
  {
    if q == [] || q[0].next > now then 0 else 1 + Due(q[1..], now)
  }

  /** Put the recurring ones among `fired` back, a period from `now`. */
  function Rearm(q: seq<Entry>, fired: seq<Entry>, now: Word): seq<Entry>
    decreases |fired|
  {
    if fired == [] then q
    else
      var e := fired[0];
      Rearm(if e.recurring then Insert(q, e.(next := Plus(now, e.ms))) else q, fired[1..], now)
  }

  function Callbacks(fired: seq<Entry>): seq<Callback> {
    seq(|fired|, i requires 0 <= i < |fired| => fired[i].cb)
  }

  const HOUR: nat := 3600000

  /** The test of `detectClockRollover`; the subtraction is unsigned. */
  predicate Rollover(now: Word, previous: Word) {
    now < previous && now < Minus(previous, HOUR)
  }

  // ---------------------------------------------------------------- the manager

  datatype Manager = Manager(q: seq<Entry>, tickled: bool, previous: Word)

  /** `front` says that onTimerInsertedAtFront was called. */
  datatype Outcome = Outcome(m: Manager, ok: bool, front: bool, fired: seq<Entry>, wait: Word)

  datatype Op =
    | Add(addr: nat, ms: Word, cb: Callback, recurring: bool)
    | Cancel(addr: nat)
    | Refresh(addr: nat)
    | Reset(addr: nat, ms: Word, fromNow: bool)
    | Next                       // getNextTimer
    | Expire                     // listExpiredCb

  /** TimerManager::addTimer with the lock held: insert, and report a new front unless already reported. */
  function AddLocked(m: Manager, e: Entry): Outcome {
    var q := Insert(m.q, e);
    var front := Rank(m.q, e.next, e.addr) == 0 && !m.tickled;
    Outcome(m.(q := q, tickled := m.tickled || front), true, front, [], 0)
  }

  function CancelStep(m: Manager, a: nat): Outcome {
    var i := Index(m.q, a);
    if i == |m.q| then Outcome(m, false, false, [], 0)
    else Outcome(m.(q := Without(m.q, i)), true, false, [], 0)
  }

  function RefreshStep(m: Manager, a: nat, now: Word): Outcome {
    var i := Index(m.q, a);
    if i == |m.q| then Outcome(m, false, false, [], 0)
    else
      var e := m.q[i];
      Outcome(m.(q := Insert(Without(m.q, i), e.(next := Plus(now, e.ms)))), true, false, [], 0)
  }

  function ResetStep(m: Manager, a: nat, ms: Word, fromNow: bool, now: Word): Outcome {
    var i := Index(m.q, a);
    if i == |m.q| then Outcome(m, false, false, [], 0)
    else
      var e := m.q[i];
      if ms == e.ms && !fromNow then Outcome(m, true, false, [], 0)
      else
        var start := if fromNow then now else Minus(e.next, e.ms);
        AddLocked(m.(q := Without(m.q, i)), e.(ms := ms, next := Plus(start, ms)))
  }

  function NextStep(m: Manager, now: Word): Outcome {
    var wait := if m.q == [] then NEVER else if now >= m.q[0].next then 0 else m.q[0].next - now;
    Outcome(m.(tickled := false), true, false, [], wait)
  }

  function ExpireStep(m: Manager, now: Word): Outcome {
    if m.q == [] then Outcome(m, true, false, [], 0)
    else
      var k := if Rollover(now, m.previous) then |m.q| else Due(m.q, now);
      Outcome(m.(q := Rearm(m.q[k..], m.q[..k], now), previous := now), true, false, m.q[..k], 0)
  }

  function Step(m: Manager, op: Op, now: Word): Outcome {
    match op
    case Add(a, ms, cb, recurring) => AddLocked(m, Entry(a, recurring, ms, Plus(now, ms), cb))
    case Cancel(a) => CancelStep(m, a)
    case Refresh(a) => RefreshStep(m, a, now)
    case Reset(a, ms, fromNow) => ResetStep(m, a, ms, fromNow, now)
    case Next => NextStep(m, now)
    case Expire => ExpireStep(m, now)
  }
}
