/** What the IOManager promises about event registrations, on values: a map from (fd, event) to the waiter
    that is to be queued. Slots, event bits, the pending counter and the kernel's interest set are left to
    the implementation, which has to agree with this map. */
module IoSpec {

  datatype Event = READ | WRITE

  datatype Waiter = Fiber(id: nat) | Callback(id: nat)

  datatype Key = Key(fd: nat, ev: Event)

  /** What epoll_wait reports for an fd. */
  datatype Report = Report(epollIn: bool, epollOut: bool, epollErr: bool, epollHup: bool)

  datatype Registry = Registry(size: nat, reg: map<Key, Waiter>, queue: seq<Waiter>)

  /** The result of one call; an ASSERT that fails ends the process. */
  datatype Result = Done(r: Registry, ok: bool) | Aborted

  /** The two bits of IOManager::Event. */
  datatype Bits = Bits(read: bool, write: bool) {
    predicate Has(ev: Event) { match ev case READ => read case WRITE => write }
    function With(ev: Event): Bits { Bits(read || ev.READ?, write || ev.WRITE?) }
    function But(ev: Event): Bits { Bits(read && !ev.READ?, write && !ev.WRITE?) }
    function Or(b: Bits): Bits { Bits(read || b.read, write || b.write) }
    function And(b: Bits): Bits { Bits(read && b.read, write && b.write) }
    function AndNot(b: Bits): Bits { Bits(read && !b.read, write && !b.write) }
    predicate None() { !read && !write }
    predicate Within(b: Bits) { (read ==> b.read) && (write ==> b.write) }
  }

  const NONE: Bits := Bits(false, false)

  function Events(reg: map<Key, Waiter>, fd: nat): Bits { Bits(Key(fd, READ) in reg, Key(fd, WRITE) in reg) }

  /** The size after contextResize(fd * 1.5), if the table was too small. */
  function Grown(size: nat, fd: nat): nat { if size > fd then size else fd * 3 / 2 }

  /** Queue the waiter of a registered event and forget it. */
  function Trigger(r: Registry, k: Key): Registry {
    if k in r.reg then r.(reg := r.reg - {k}, queue := r.queue + [r.reg[k]]) else r
  }

  function Add(r: Registry, k: Key, w: Waiter, fails: bool): Result {
    if k in r.reg then Aborted
    else
      var r1 := r.(size := Grown(r.size, k.fd));
      if fails then Done(r1, false) else Done(r1.(reg := r.reg[k := w]), true)
  }

  function Del(r: Registry, k: Key, fails: bool): Result {
    if k !in r.reg || fails then Done(r, false) else Done(r.(reg := r.reg - {k}), true)
  }

  function Cancel(r: Registry, k: Key, fails: bool): Result {
    if k !in r.reg || fails then Done(r, false) else Done(Trigger(r, k), true)
  }

  function CancelAll(r: Registry, fd: nat, fails: bool): Result {
    if Events(r.reg, fd).None() || fails then Done(r, false)
    else Done(TriggerReady(r, fd, Events(r.reg, fd)), true)
  }

  /** The events a report stands for: an error or hang-up wakes whatever is registered. */
  function RealEvents(reg: map<Key, Waiter>, fd: nat, rep: Report): Bits {
    var b := Bits(rep.epollIn, rep.epollOut);
    if rep.epollErr || rep.epollHup then b.Or(Events(reg, fd)) else b
  }

  function Dispatch(r: Registry, fd: nat, rep: Report, fails: bool): Result {
    var ready := RealEvents(r.reg, fd, rep);
    if Events(r.reg, fd).And(ready).None() || fails then Done(r, false)
    else if !ready.Within(Events(r.reg, fd)) then Aborted
    else Done(TriggerReady(r, fd, ready), true)
  }

  function TriggerReady(r: Registry, fd: nat, ready: Bits): Registry {
    var r1 := if ready.read then Trigger(r, Key(fd, READ)) else r;
    if ready.write then Trigger(r1, Key(fd, WRITE)) else r1
  }

  datatype Op =
    | OpAdd(k: Key, w: Waiter)
    | OpDel(k: Key)
    | OpCancel(k: Key)
    | OpCancelAll(fd: nat)
    | OpDispatch(fd: nat, rep: Report)

  function Step(r: Registry, op: Op, fails: bool): Result {
    match op
    case OpAdd(k, w) => Add(r, k, w, fails)
    case OpDel(k) => Del(r, k, fails)
    case OpCancel(k) => Cancel(r, k, fails)
    case OpCancelAll(fd) => CancelAll(r, fd, fails)
    case OpDispatch(fd, rep) => Dispatch(r, fd, rep, fails)
  }
}
