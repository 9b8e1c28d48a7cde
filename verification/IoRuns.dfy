/** What holds of event registrations over whole runs. */
module IoRuns {
  import opened IoSpec

  /** A registry with what happened to waiters so far; `r.queue` holds every waiter ever queued by a trigger. */
  datatype World = World(r: Registry, added: multiset<Waiter>, dropped: multiset<Waiter>)

  ghost predicate Possible(w: World, op: Op, fails: bool) { Step(w.r, op, fails).Done? }

  ghost function Advance(w: World, op: Op, fails: bool): World
    requires Possible(w, op, fails)
  {
    var d := Step(w.r, op, fails);
    match op
    case OpAdd(_, waiter) => World(d.r, if d.ok then w.added + multiset{waiter} else w.added, w.dropped)
    case OpDel(k) => World(d.r, w.added, if d.ok then w.dropped + multiset{w.r.reg[k]} else w.dropped)
    case _ => w.(r := d.r)
  }

  /** A run that no ASSERT ends, with any outcome of epoll_ctl at every call. */
  ghost predicate Run(w: World, ops: seq<(Op, bool)>)
    decreases |ops|
  {
    ops == [] || (Possible(w, ops[0].0, ops[0].1) && Run(Advance(w, ops[0].0, ops[0].1), ops[1..]))
  }

  ghost function Exec(w: World, ops: seq<(Op, bool)>): World
    requires Run(w, ops)
    decreases |ops|
  {
    if ops == [] then w else Exec(Advance(w, ops[0].0, ops[0].1), ops[1..])
  }

  const START: World := World(Registry(32, map[], []), multiset{}, multiset{})

  /** Where a waiter is still registered. */
  ghost function HeldAt(reg: map<Key, Waiter>, w: Waiter): set<Key> { set k | k in reg && reg[k] == w }

  ghost predicate BalancedFor(w: World, x: Waiter) {
    w.added[x] == multiset(w.r.queue)[x] + w.dropped[x] + |HeldAt(w.r.reg, x)|
  }

  ghost predicate Balanced(w: World) { forall x :: BalancedFor(w, x) }

  lemma HeldAdd(reg: map<Key, Waiter>, k: Key, w: Waiter, x: Waiter)
    requires k !in reg
    ensures |HeldAt(reg[k := w], x)| == |HeldAt(reg, x)| + if x == w then 1 else 0
  {
    assert HeldAt(reg[k := w], x) == HeldAt(reg, x) + if x == w then {k} else {};
  }

  lemma HeldRemove(reg: map<Key, Waiter>, k: Key, x: Waiter)
    requires k in reg
    ensures |HeldAt(reg, x)| == |HeldAt(reg - {k}, x)| + if x == reg[k] then 1 else 0
  {
    assert HeldAt(reg, x) == HeldAt(reg - {k}, x) + if x == reg[k] then {k} else {};
  }

  /** A trigger turns one registration of a waiter into one queue entry. */
  lemma TriggerMoves(r: Registry, k: Key, x: Waiter)
    ensures var r' := Trigger(r, k);
            multiset(r'.queue)[x] + |HeldAt(r'.reg, x)| == multiset(r.queue)[x] + |HeldAt(r.reg, x)|
  {
    if k in r.reg { HeldRemove(r.reg, k, x); }
  }

  lemma AdvanceBalanced(w: World, op: Op, fails: bool)
    requires Balanced(w) && Possible(w, op, fails)
    ensures Balanced(Advance(w, op, fails))
  {
    forall x ensures BalancedFor(Advance(w, op, fails), x) {
      assert BalancedFor(w, x);
      if op.OpAdd? { AddBalanced(w, op, fails, x); }
      else if op.OpDel? { DelBalanced(w, op, fails, x); }
      else { TriggerBalanced(w, op, fails, x); }
    }
  }

  lemma AddBalanced(w: World, op: Op, fails: bool, x: Waiter)
    requires BalancedFor(w, x) && op.OpAdd? && Possible(w, op, fails)
    ensures BalancedFor(Advance(w, op, fails), x)
  {
    HeldAdd(w.r.reg, op.k, op.w, x);
  }

  lemma DelBalanced(w: World, op: Op, fails: bool, x: Waiter)
    requires BalancedFor(w, x) && op.OpDel? && Possible(w, op, fails)
    ensures BalancedFor(Advance(w, op, fails), x)
  {
    if op.k in w.r.reg { HeldRemove(w.r.reg, op.k, x); }
  }

  lemma TriggerBalanced(w: World, op: Op, fails: bool, x: Waiter)
    requires BalancedFor(w, x) && !op.OpAdd? && !op.OpDel? && Possible(w, op, fails)
    ensures BalancedFor(Advance(w, op, fails), x)
  {
    match op
    case OpCancel(k) => TriggerMoves(w.r, k, x);
    case OpCancelAll(fd) => ReadyMoves(w.r, fd, Events(w.r.reg, fd), x);
    case OpDispatch(fd, rep) => ReadyMoves(w.r, fd, RealEvents(w.r.reg, fd, rep), x);
  }

  lemma ReadyMoves(r: Registry, fd: nat, ready: Bits, x: Waiter)
    ensures var r' := TriggerReady(r, fd, ready);
            multiset(r'.queue)[x] + |HeldAt(r'.reg, x)| == multiset(r.queue)[x] + |HeldAt(r.reg, x)|
  {
    var r1 := if ready.read then Trigger(r, Key(fd, READ)) else r;
    TriggerMoves(r, Key(fd, READ), x);
    TriggerMoves(r1, Key(fd, WRITE), x);
  }

  lemma {:induction false} RunBalanced(w: World, ops: seq<(Op, bool)>)
    requires Balanced(w) && Run(w, ops)
    ensures Balanced(Exec(w, ops))
    decreases |ops|
  {
    if ops != [] {
      AdvanceBalanced(w, ops[0].0, ops[0].1);
      RunBalanced(Advance(w, ops[0].0, ops[0].1), ops[1..]);
    }
  }

  /** Waiter conservation: over every run, whatever epoll_ctl answers, each successful registration of a
      waiter was queued once by a trigger, or dropped once by delEvent, or is still registered. */
  lemma WaiterConservation(ops: seq<(Op, bool)>, x: Waiter)
    requires Run(START, ops)
    ensures var w := Exec(START, ops);
            w.added[x] == multiset(w.r.queue)[x] + w.dropped[x] + |HeldAt(w.r.reg, x)|
  {
    assert HeldAt(map[], x) == {};
    forall y ensures BalancedFor(START, y) { assert HeldAt(START.r.reg, y) == {}; }
    RunBalanced(START, ops);
    assert BalancedFor(Exec(START, ops), x);
  }

  /** When a call ends the process: addEvent for a bit that is set, and a dispatch that reports an
      unregistered event next to a registered one -- never cancelling, deleting, or a failed epoll_ctl. */
  lemma AbortsExactly(r: Registry, op: Op, fails: bool)
    ensures Step(r, op, fails).Aborted? <==>
              match op
              case OpAdd(k, _) => k in r.reg
              case OpDispatch(fd, rep) =>
                && !fails
                && ((rep.epollIn && Key(fd, READ) !in r.reg && Key(fd, WRITE) in r.reg
                     && (rep.epollOut || rep.epollErr || rep.epollHup))
                    || (rep.epollOut && Key(fd, WRITE) !in r.reg && Key(fd, READ) in r.reg
                        && (rep.epollIn || rep.epollErr || rep.epollHup)))
              case _ => false
  {
  }

  /** The report is about this event; an error or hang-up is about both. */
  predicate Concerns(rep: Report, ev: Event) {
    rep.epollErr || rep.epollHup || (match ev case READ => rep.epollIn case WRITE => rep.epollOut)
  }

  lemma TriggerReadyKeys(r: Registry, fd: nat, ready: Bits, k: Key)
    ensures k in TriggerReady(r, fd, ready).reg <==> k in r.reg && !(k.fd == fd && ready.Has(k.ev))
    ensures k in TriggerReady(r, fd, ready).reg ==> TriggerReady(r, fd, ready).reg[k] == r.reg[k]
  {
    match k.ev case READ => assert k == Key(k.fd, READ); case WRITE => assert k == Key(k.fd, WRITE);
  }

  /** The waiter of one event, if that event is asked for and registered. */
  function Woken(reg: map<Key, Waiter>, k: Key, asked: bool): seq<Waiter> {
    if asked && k in reg then [reg[k]] else []
  }

  lemma TriggerReadyQueue(r: Registry, fd: nat, ready: Bits)
    ensures TriggerReady(r, fd, ready).queue
         == r.queue + Woken(r.reg, Key(fd, READ), ready.read) + Woken(r.reg, Key(fd, WRITE), ready.write)
  {
  }

  /** A report of what the kernel was asked for, dispatched while nothing else changed, never trips the
      ASSERT, and wakes exactly the waiters of the events it is about, the reader first. */
  lemma FreshReportWakesExactly(r: Registry, fd: nat, rep: Report)
    requires rep.epollIn ==> Key(fd, READ) in r.reg
    requires rep.epollOut ==> Key(fd, WRITE) in r.reg
    ensures var d := Dispatch(r, fd, rep, false);
            && d.Done?
            && (forall k :: k in d.r.reg <==> k in r.reg && !(k.fd == fd && Concerns(rep, k.ev)))
            && (forall k :: k in d.r.reg ==> d.r.reg[k] == r.reg[k])
            && d.r.queue == r.queue + Woken(r.reg, Key(fd, READ), Concerns(rep, READ))
                            + Woken(r.reg, Key(fd, WRITE), Concerns(rep, WRITE))
  {
    var ready, d := RealEvents(r.reg, fd, rep), Dispatch(r, fd, rep, false);
    TriggerReadyQueue(r, fd, ready);
    forall k ensures k in d.r.reg <==> k in r.reg && !(k.fd == fd && Concerns(rep, k.ev)) {
      TriggerReadyKeys(r, fd, ready, k);
      match k.ev case READ => assert k == Key(k.fd, READ); case WRITE => assert k == Key(k.fd, WRITE);
    }
    forall k | k in d.r.reg ensures d.r.reg[k] == r.reg[k] { TriggerReadyKeys(r, fd, ready, k); }
  }

  /** cancelAll, where epoll_ctl succeeds, empties the fd: every waiter on it is queued, the reader first,
      and every other registration stays. */
  lemma CancelAllWakesExactly(r: Registry, fd: nat)
    ensures var d := CancelAll(r, fd, false);
            && d.Done?
            && (forall k :: k in d.r.reg <==> k in r.reg && k.fd != fd)
            && (forall k :: k in d.r.reg ==> d.r.reg[k] == r.reg[k])
            && d.r.queue == r.queue + Woken(r.reg, Key(fd, READ), true) + Woken(r.reg, Key(fd, WRITE), true)
  {
    var ready, d := Events(r.reg, fd), CancelAll(r, fd, false);
    TriggerReadyQueue(r, fd, ready);
    forall k ensures k in d.r.reg <==> k in r.reg && k.fd != fd {
      TriggerReadyKeys(r, fd, ready, k);
      match k.ev case READ => assert k == Key(k.fd, READ); case WRITE => assert k == Key(k.fd, WRITE);
    }
    forall k | k in d.r.reg ensures d.r.reg[k] == r.reg[k] { TriggerReadyKeys(r, fd, ready, k); }
  }

  /** There is something for the call to act on. */
  predicate Applies(reg: map<Key, Waiter>, op: Op) {
    match op
    case OpAdd(k, _) => true
    case OpDel(k) => k in reg
    case OpCancel(k) => k in reg
    case OpCancelAll(fd) => Key(fd, READ) in reg || Key(fd, WRITE) in reg
    case OpDispatch(fd, rep) =>
      (Key(fd, READ) in reg && Concerns(rep, READ)) || (Key(fd, WRITE) in reg && Concerns(rep, WRITE))
  }

  /** When a call succeeds, whatever it is: epoll_ctl does, and there is something for it to act on. One that does not
      succeed changes no registration and queues nobody. */
  lemma SucceedsExactly(r: Registry, op: Op, fails: bool)
    requires Step(r, op, fails).Done?
    ensures Step(r, op, fails).ok <==> !fails && Applies(r.reg, op)
    ensures !Step(r, op, fails).ok ==> Step(r, op, fails).r.reg == r.reg && Step(r, op, fails).r.queue == r.queue
  {
  }

  /** What a call about one event does when it succeeds: addEvent registers the waiter, delEvent and cancelEvent take it
      back, and cancelEvent alone queues it, last. */
  lemma OneEventExactly(r: Registry, op: Op, k: Key)
    requires Step(r, op, false).Done? && Step(r, op, false).ok
    requires (op.OpAdd? || op.OpDel? || op.OpCancel?) && op.k == k
    ensures var r' := Step(r, op, false).r;
            && (k in r'.reg <==> op.OpAdd?) && (op.OpAdd? ==> r'.reg[k] == op.w)
            && (forall other :: other != k ==> (other in r'.reg <==> other in r.reg))
            && (forall other :: other != k && other in r.reg ==> r'.reg[other] == r.reg[other])
            && r'.queue == if op.OpCancel? then r.queue + [r.reg[k]] else r.queue
  {
  }

  // ---------------------------------------------------------------- the pending count

  function Count(b: Bits): nat { (if b.read then 1 else 0) + (if b.write then 1 else 0) }

  /** How many event bits are set in the whole table. */
  function BitTotal(table: seq<Bits>): nat {
    if table == [] then 0 else BitTotal(table[..|table|-1]) + Count(table[|table|-1])
  }

  /** As many registrations as event bits. */
  lemma {:induction false} BitsAreRegistrations(reg: map<Key, Waiter>, table: seq<Bits>)
    requires forall k :: k in reg ==> k.fd < |table|
    requires forall fd: nat :: fd < |table| ==> table[fd] == Events(reg, fd)
    ensures BitTotal(table) == |reg|
    decreases |table|
  {
    if table == [] {
      assert reg == map[];
    } else {
      var n := |table| - 1;
      var less := reg - {Key(n, READ), Key(n, WRITE)};
      BelowLast(reg, less, n);
      BitsAreRegistrations(less, table[..n]);
      LastFd(reg, n);
    }
  }

  lemma BelowLast(reg: map<Key, Waiter>, less: map<Key, Waiter>, fd: nat)
    requires less == reg - {Key(fd, READ), Key(fd, WRITE)} && forall k :: k in reg ==> k.fd <= fd
    ensures forall k :: k in less ==> k.fd < fd
    ensures forall other: nat :: other < fd ==> Events(less, other) == Events(reg, other)
  {
    forall k | k in less ensures k.fd < fd {
      match k.ev case READ => assert k == Key(k.fd, READ); case WRITE => assert k == Key(k.fd, WRITE);
    }
  }

  lemma LastFd(reg: map<Key, Waiter>, fd: nat)
    ensures |reg| == |reg - {Key(fd, READ), Key(fd, WRITE)}| + Count(Events(reg, fd))
  {
    var r1 := reg - {Key(fd, READ)};
    Removed(reg, Key(fd, READ));
    Removed(r1, Key(fd, WRITE));
    assert r1 - {Key(fd, WRITE)} == reg - {Key(fd, READ), Key(fd, WRITE)};
  }

  lemma Removed(reg: map<Key, Waiter>, k: Key)
    ensures |reg| == |reg - {k}| + if k in reg then 1 else 0
  {
    assert reg.Keys == (reg - {k}).Keys + if k in reg then {k} else {};
  }
}
