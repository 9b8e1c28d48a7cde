/** The fd contexts of `iomanager.cc` as objects. Every call is tied to the step of `IoSpec` it performs;
    `Valid` says how the event bits, the waiter slots, the pending counter and the kernel's interest set
    hang together. */
module IOManagers {
  import opened Options
  import opened IoSpec
  import IoRuns

  /** Scheduler::m_fibers, as far as triggerEvent uses it. */
  class WorkQueue {
    var tasks: seq<Waiter>

    constructor ()
      ensures tasks == []
    {
      tasks := [];
    }
  }

  datatype CtlOp = ADD | MOD | DEL

  /** The kernel's side of epoll_ctl. It rejects an ADD of a known fd and a MOD or DEL of an unknown one;
      callers here prove that they never make such a call, so `fails` is left to other causes. */
  class Epoll {
    var interest: map<nat, Bits>

    constructor ()
      ensures interest == map[]
    {
      interest := map[];
    }

    method Ctl(op: CtlOp, fd: nat, mask: Bits, fails: bool) returns (rt: int)
      requires op.ADD? <==> fd !in interest
      modifies this
      ensures rt == 0 <==> !fails
      ensures interest == if fails then old(interest)
                          else if op.DEL? then old(interest) - {fd} else old(interest)[fd := mask]
    {
      if fails {
        return -1;
      }
      interest := if op.DEL? then interest - {fd} else interest[fd := mask];
      return 0;
    }
  }

  /** EventContext. */
  datatype Slot = Slot(scheduler: WorkQueue?, fiber: Option<nat>, cb: Option<nat>)

  const EMPTY: Slot := Slot(null, None, None)

  function SlotOf(w: Waiter, scheduler: WorkQueue): Slot {
    match w
    case Fiber(f) => Slot(scheduler, Some(f), None)
    case Callback(c) => Slot(scheduler, None, Some(c))
  }

  class FdContext {
    const fd: nat
    var events: Bits
    var read: Slot
    var write: Slot

    constructor (fd: nat)
      ensures this.fd == fd && events == NONE && read == EMPTY && write == EMPTY
    {
      this.fd, events, read, write := fd, NONE, EMPTY, EMPTY;
    }

    function GetContext(ev: Event): Slot reads this {
      match ev case READ => read case WRITE => write
    }

    method SetContext(ev: Event, s: Slot)
      modifies this`read, this`write
      ensures GetContext(ev) == s
      ensures forall other :: other != ev ==> GetContext(other) == old(GetContext(other))
    {
      match ev {
        case READ => read := s;
        case WRITE => write := s;
      }
    }

    /** FdContext::triggerEvent; false means that its ASSERT failed. The waiter is swapped out of its slot. */
    method TriggerEvent(ev: Event, ghost w: Waiter, ghost scheduler: WorkQueue) returns (ok: bool)
      requires events.Has(ev) ==> GetContext(ev) == SlotOf(w, scheduler)
      modifies this`events, this`read, this`write, scheduler
      ensures ok == old(events).Has(ev) && events == old(events).But(ev)
      ensures forall other :: other != ev ==> GetContext(other) == old(GetContext(other))
      ensures ok ==> scheduler.tasks == old(scheduler.tasks) + [w] && GetContext(ev) == EMPTY
      ensures !ok ==> scheduler.tasks == old(scheduler.tasks) && GetContext(ev) == old(GetContext(ev))
    {
      if !events.Has(ev) {
        return false;
      }
      events := events.But(ev);
      var ctx := GetContext(ev);
      if ctx.cb.Some? {
        ctx.scheduler.tasks := ctx.scheduler.tasks + [Callback(ctx.cb.value)];
        ctx := ctx.(cb := None);
      } else {
        ctx.scheduler.tasks := ctx.scheduler.tasks + [Fiber(ctx.fiber.value)];
        ctx := ctx.(fiber := None);
      }
      ctx := ctx.(scheduler := null);
      SetContext(ev, ctx);
      return true;
    }
  }

  class IOManager {
    const scheduler: WorkQueue
    const epoll: Epoll
    var contexts: seq<FdContext>              // m_fdContexts
    var pending: nat                          // m_pendingEventCount
    ghost var reg: map<Key, Waiter>           // what is registered

    ghost function View(): Registry reads this, scheduler {
      Registry(|contexts|, reg, scheduler.tasks)
    }

    /** One fd context agrees with what is registered for it. */
    ghost predicate Agrees(c: FdContext, fd: nat) reads this, c {
      && c.fd == fd && c.events == Events(reg, fd)
      && (forall ev :: c.GetContext(ev) == if Key(fd, ev) in reg then SlotOf(reg[Key(fd, ev)], scheduler) else EMPTY)
    }

    /** A slot is full exactly if its event bit is set, and nothing is registered beyond the table. */
    ghost predicate TableOk() reads this, contexts {
      && |contexts| >= 32
      && (forall i, j :: 0 <= i < j < |contexts| ==> contexts[i] != contexts[j])
      && (forall fd :: 0 <= fd < |contexts| ==> Agrees(contexts[fd], fd))
      && (forall k :: k in reg ==> k.fd < |contexts|)
    }

    /** The kernel listens for exactly what is registered. */
    ghost predicate KernelOk(r: map<Key, Waiter>) reads this, epoll {
      && (forall fd: nat :: fd in epoll.interest <==> !Events(r, fd).None())
      && (forall fd: nat :: fd in epoll.interest ==> epoll.interest[fd] == Events(r, fd))
    }

    ghost predicate Valid()
      reads this, epoll, contexts
    {
      TableOk() && KernelOk(reg) && pending == |reg|
    }

    constructor ()
      ensures Valid() && fresh(scheduler) && fresh(epoll) && fresh(contexts)
      ensures View() == Registry(32, map[], [])
    {
      scheduler := new WorkQueue();
      epoll := new Epoll();
      contexts := [];
      pending := 0;
      reg := map[];
      new;
      ContextResize(32);
    }

    /** m_pendingEventCount is the number of event bits set in the whole table. */
    lemma PendingCountsBits(table: seq<Bits>)
      requires Valid() && |table| == |contexts|
      requires forall fd :: 0 <= fd < |contexts| ==> table[fd] == contexts[fd].events
      ensures pending == IoRuns.BitTotal(table)
    {
      IoRuns.BitsAreRegistrations(reg, table);
    }

    ghost predicate New(c: FdContext, fd: nat) reads c {
      c.fd == fd && c.events == NONE && c.read == EMPTY && c.write == EMPTY
    }

    /** contextResize; the table only ever grows. */
    method ContextResize(size: nat)
      requires size >= |contexts|
      modifies this`contexts
      ensures |contexts| == size && contexts[..old(|contexts|)] == old(contexts)
      ensures forall i :: old(|contexts|) <= i < size ==> fresh(contexts[i]) && New(contexts[i], i)
      ensures forall i, j :: old(|contexts|) <= i < j < size ==> contexts[i] != contexts[j]
    {
      ghost var n := |contexts|;
      while |contexts| < size
        invariant n <= |contexts| <= size && contexts[..n] == old(contexts)
        invariant forall i :: n <= i < |contexts| ==> fresh(contexts[i]) && New(contexts[i], i)
        invariant forall i, j :: n <= i < j < |contexts| ==> contexts[i] != contexts[j]
        decreases size - |contexts|
      {
        var c := new FdContext(|contexts|);
        contexts := contexts + [c];
      }
    }

    /** The table lookup of addEvent: grow to one and a half times the fd if the table is too small. */
    method ContextFor(fd: nat) returns (c: FdContext)
      requires Valid()
      modifies this`contexts
      ensures Valid() && |contexts| == Grown(old(|contexts|), fd) && fd < |contexts| && c == contexts[fd]
      ensures |contexts| == if old(|contexts|) <= fd then fd + fd / 2 else old(|contexts|)
      ensures forall x :: x in contexts ==> x in old(contexts) || fresh(x)
      ensures c in old(contexts) || fresh(c)
    {
      if |contexts| <= fd {
        ContextResize(fd * 3 / 2);
      }
      c := contexts[fd];
    }

    /** Take a slot into use: set the bit, fill the slot, which has to be empty. */
    method Fill(c: FdContext, fd: nat, ev: Event, w: Waiter)
      requires TableOk() && fd < |contexts| && c == contexts[fd] && Key(fd, ev) !in reg
      modifies this`reg, c`events, c`read, c`write
      ensures TableOk() && reg == old(reg)[Key(fd, ev) := w]
      ensures forall f :: Events(reg, f) == if f == fd then Events(old(reg), fd).With(ev) else Events(old(reg), f)
    {
      assert forall f :: 0 <= f < |contexts| && f != fd ==> contexts[f] != c;
      c.events := c.events.With(ev);
      assert c.GetContext(ev) == EMPTY;     // the ASSERT on the slot
      c.SetContext(ev, SlotOf(w, scheduler));
      reg := reg[Key(fd, ev) := w];
    }

    /** addEvent under the lock of the fd context. */
    method AddAt(c: FdContext, fd: nat, ev: Event, w: Waiter, fails: bool) returns (rt: int)
      requires Valid() && fd < |contexts| && c == contexts[fd] && Key(fd, ev) !in reg
      modifies this`reg, this`pending, epoll, c`events, c`read, c`write
      ensures Valid() && (rt == 0 <==> !fails)
      ensures reg == if fails then old(reg) else old(reg)[Key(fd, ev) := w]
    {
      var op := if !c.events.None() then MOD else ADD;
      rt := epoll.Ctl(op, fd, c.events.With(ev), fails);
      if rt != 0 {
        return -1;
      }
      pending := pending + 1;
      Fill(c, fd, ev, w);
      return 0;
    }

    /** addEvent; None means that an ASSERT failed. */
    method AddEvent(fd: nat, ev: Event, w: Waiter, fails: bool) returns (result: Option<int>)
      requires Valid()
      modifies this, epoll, contexts
      ensures result.None? <==> Add(old(View()), Key(fd, ev), w, fails).Aborted?
      ensures result.Some? ==> Valid() && View() == Add(old(View()), Key(fd, ev), w, fails).r
      ensures result.Some? ==> (result.value == 0 <==> Add(old(View()), Key(fd, ev), w, fails).ok)
    {
      var c := ContextFor(fd);
      if c.events.Has(ev) {
        return None;     // ASSERT(!(fd_ctx->events & event))
      }
      var rt := AddAt(c, fd, ev, w, fails);
      result := Some(rt);
    }

    /** Give a slot back: clear the bit, reset the slot. */
    method Clear(c: FdContext, fd: nat, ev: Event)
      requires TableOk() && fd < |contexts| && c == contexts[fd] && Key(fd, ev) in reg
      modifies this`reg, c`events, c`read, c`write
      ensures TableOk() && reg == old(reg) - {Key(fd, ev)}
      ensures forall f :: Events(reg, f) == if f == fd then Events(old(reg), fd).But(ev) else Events(old(reg), f)
    {
      assert forall f :: 0 <= f < |contexts| && f != fd ==> contexts[f] != c;
      c.events := c.events.But(ev);
      c.SetContext(ev, EMPTY);
      reg := reg - {Key(fd, ev)};
    }

    /** delEvent under the lock of the fd context. */
    method DelAt(c: FdContext, fd: nat, ev: Event, fails: bool) returns (ok: bool)
      requires Valid() && fd < |contexts| && c == contexts[fd] && Key(fd, ev) in reg
      modifies this`reg, this`pending, epoll, c`events, c`read, c`write
      ensures Valid() && ok == !fails
      ensures reg == if fails then old(reg) else old(reg) - {Key(fd, ev)}
    {
      var left := c.events.But(ev);
      var op := if !left.None() then MOD else DEL;
      var rt := epoll.Ctl(op, fd, left, fails);
      if rt != 0 {
        return false;
      }
      pending := pending - 1;
      Clear(c, fd, ev);
      return true;
    }

    /** delEvent: the waiter is dropped. */
    method DelEvent(fd: nat, ev: Event, fails: bool) returns (ok: bool)
      requires Valid()
      modifies this, epoll, contexts
      ensures Valid() && View() == Del(old(View()), Key(fd, ev), fails).r
      ensures ok == Del(old(View()), Key(fd, ev), fails).ok
    {
      if |contexts| <= fd {
        return false;
      }
      var c := contexts[fd];
      if !c.events.Has(ev) {
        return false;
      }
      ok := DelAt(c, fd, ev, fails);
    }

    /** triggerEvent; false means that its ASSERT failed. */
    method TakeOut(c: FdContext, fd: nat, ev: Event) returns (ok: bool)
      requires TableOk() && fd < |contexts| && c == contexts[fd]
      modifies this`reg, c`events, c`read, c`write, scheduler
      ensures TableOk() && ok == (Key(fd, ev) in old(reg)) && reg == old(reg) - {Key(fd, ev)}
      ensures scheduler.tasks == old(scheduler.tasks) + if ok then [old(reg)[Key(fd, ev)]] else []
    {
      ghost var w := if Key(fd, ev) in reg then reg[Key(fd, ev)] else Fiber(0);
      ok := c.TriggerEvent(ev, w, scheduler);
      reg := reg - {Key(fd, ev)};
    }

    /** triggerEvent and the decrement that follows it. */
    method TriggerAt(c: FdContext, fd: nat, ev: Event) returns (ok: bool)
      requires TableOk() && fd < |contexts| && c == contexts[fd] && pending == |reg|
      modifies this`reg, this`pending, c`events, c`read, c`write, scheduler
      ensures ok == (Key(fd, ev) in old(reg))
      ensures TableOk() && pending == |reg| && View() == Trigger(old(View()), Key(fd, ev))
    {
      EventsBut(reg, Key(fd, ev));
      ok := TakeOut(c, fd, ev);
      if ok {
        pending := pending - 1;
      } else {
        assert reg == old(reg);
      }
    }

    /** cancelEvent under the lock of the fd context. */
    method CancelAt(c: FdContext, fd: nat, ev: Event, fails: bool) returns (ok: bool)
      requires Valid() && fd < |contexts| && c == contexts[fd] && Key(fd, ev) in reg
      modifies this`reg, this`pending, epoll, c`events, c`read, c`write, scheduler
      ensures Valid() && ok == !fails
      ensures View() == if fails then old(View()) else Trigger(old(View()), Key(fd, ev))
    {
      var left := c.events.But(ev);
      var op := if !left.None() then MOD else DEL;
      var rt := epoll.Ctl(op, fd, left, fails);
      if rt != 0 {
        return false;
      }
      EventsBut(reg, Key(fd, ev));
      ghost var r := reg - {Key(fd, ev)};
      assert KernelOk(r);
      ok := TriggerAt(c, fd, ev);
    }

    /** cancelEvent: the waiter is queued. */
    method CancelEvent(fd: nat, ev: Event, fails: bool) returns (ok: bool)
      requires Valid()
      modifies this, epoll, contexts, scheduler
      ensures Valid() && View() == Cancel(old(View()), Key(fd, ev), fails).r
      ensures ok == Cancel(old(View()), Key(fd, ev), fails).ok
    {
      if |contexts| <= fd {
        return false;
      }
      var c := contexts[fd];
      if !c.events.Has(ev) {
        return false;
      }
      ok := CancelAt(c, fd, ev, fails);
    }

    /** Trigger the events of an fd that are asked for, READ first; false means a failed ASSERT. */
    method TriggerBoth(c: FdContext, fd: nat, ready: Bits) returns (ok: bool)
      requires TableOk() && fd < |contexts| && c == contexts[fd] && pending == |reg|
      modifies this`reg, this`pending, c`events, c`read, c`write, scheduler
      ensures ok <==> ready.Within(Events(old(reg), fd))
      ensures ok ==> TableOk() && pending == |reg|
      ensures ok ==> View() == TriggerReady(old(View()), fd, ready)
      ensures ok ==> forall f :: Events(reg, f)
                          == if f == fd then Events(old(reg), fd).AndNot(ready) else Events(old(reg), f)
    {
      if ready.read {
        ok := TriggerAt(c, fd, READ);
        if !ok { return false; }
      }
      if ready.write {
        ok := TriggerAt(c, fd, WRITE);
        if !ok { return false; }
      }
      EventsAfter(old(View()), fd, ready);
      return true;
    }

    /** cancelAll under the lock of the fd context. */
    method CancelAllAt(c: FdContext, fd: nat, fails: bool) returns (ok: bool)
      requires Valid() && fd < |contexts| && c == contexts[fd] && !c.events.None()
      modifies this`reg, this`pending, epoll, c`events, c`read, c`write, scheduler
      ensures Valid() && ok == !fails
      ensures View() == if fails then old(View()) else TriggerReady(old(View()), fd, Events(old(reg), fd))
    {
      var rt := epoll.Ctl(DEL, fd, NONE, fails);
      if rt != 0 {
        return false;
      }
      ghost var was := c.events;
      ok := TriggerBoth(c, fd, c.events);
      assert Events(reg, fd) == was.AndNot(was);
      assert c.events.None();     // the ASSERT at the end
    }

    /** cancelAll. */
    method CancelAllEvents(fd: nat, fails: bool) returns (ok: bool)
      requires Valid()
      modifies this, epoll, contexts, scheduler
      ensures Valid() && View() == CancelAll(old(View()), fd, fails).r
      ensures ok == CancelAll(old(View()), fd, fails).ok
    {
      if |contexts| <= fd {
        return false;
      }
      var c := contexts[fd];
      if c.events.None() {
        return false;
      }
      ok := CancelAllAt(c, fd, fails);
    }

    /** The second half of dispatch: stop listening for what is ready, and trigger it. */
    method DispatchReady(c: FdContext, fd: nat, ready: Bits, fails: bool) returns (result: Option<bool>)
      requires Valid() && fd < |contexts| && c == contexts[fd] && !c.events.And(ready).None()
      modifies this`reg, this`pending, epoll, c`events, c`read, c`write, scheduler
      ensures result.None? <==> !fails && !ready.Within(Events(old(reg), fd))
      ensures result.Some? ==> Valid() && result.value == !fails
                               && View() == if fails then old(View()) else TriggerReady(old(View()), fd, ready)
    {
      var left := c.events.AndNot(ready);
      var op := if !left.None() then MOD else DEL;
      var rt := epoll.Ctl(op, fd, left, fails);
      if rt != 0 {
        return Some(false);
      }
      var ok := TriggerBoth(c, fd, ready);
      result := if ok then Some(true) else None;
    }

    /** The dispatch of one report in IOManager::idle; None means that the ASSERT of triggerEvent failed. */
    method DispatchReport(fd: nat, rep: Report, fails: bool) returns (result: Option<bool>)
      requires Valid() && fd < |contexts|
      modifies this, epoll, contexts, scheduler
      ensures result.None? <==> Dispatch(old(View()), fd, rep, fails).Aborted?
      ensures result.Some? ==> Valid() && View() == Dispatch(old(View()), fd, rep, fails).r
      ensures result.Some? ==> result.value == Dispatch(old(View()), fd, rep, fails).ok
    {
      var c := contexts[fd];
      var epollIn, epollOut := rep.epollIn, rep.epollOut;
      if rep.epollErr || rep.epollHup {
        epollIn := epollIn || c.events.read;
        epollOut := epollOut || c.events.write;
      }
      var ready := Bits(epollIn, epollOut);
      if c.events.And(ready).None() {
        return Some(false);
      }
      result := DispatchReady(c, fd, ready, fails);
    }
  }

  /** What is registered after one event is taken back. */
  lemma EventsBut(reg: map<Key, Waiter>, k: Key)
    ensures forall fd: nat :: Events(reg - {k}, fd) == if fd == k.fd then Events(reg, fd).But(k.ev) else Events(reg, fd)
    ensures |reg - {k}| == |reg| - if k in reg then 1 else 0
  {
    assert reg.Keys == (reg - {k}).Keys + if k in reg then {k} else {};
  }

  /** What is registered after a dispatch, fd by fd. */
  lemma EventsAfter(r: Registry, fd: nat, ready: Bits)
    ensures forall f :: Events(TriggerReady(r, fd, ready).reg, f)
                        == if f == fd then Events(r.reg, fd).AndNot(ready) else Events(r.reg, f)
  {
  }
}
