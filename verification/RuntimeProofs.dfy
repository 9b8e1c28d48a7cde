/** The invariants of the scheduler machine: what every run keeps, and what runs keep whose clients follow the
    rule of one wake source. */
module RuntimeInvariant {
  import opened Counting
  import opened Runtime
  import opened RuntimeEffects

  // ---------------------------------------------------------------- what every run keeps

  /** Neither running, nor finished, nor about to be woken. */
  predicate Stranded(s: State, t: Task) {
    t in s.status && Own(s, t) == 0 && Tokens(s, t) == 0 && !Finished(s.status[t])
  }

  /** A task that is held is known, one in EXEC is on a worker, and a stranded one is accounted for. */
  predicate Loose(s: State, t: Task) {
    && (Tokens(s, t) > 0 || Own(s, t) > 0 ==> t in s.status)
    && (t in s.status && s.status[t] == EXEC ==> Own(s, t) > 0)
    && (Stranded(s, t) ==> t in s.parked || t in s.withdrawn)
  }

  /** Where the callback of a sleep may be: queued, in a hand, in its timer, running. */
  function Alarm(s: State, c: Task): nat {
    var n := CountOf(s, c);
    n.queued + n.picked + n.batch + n.timers + n.running
  }

  /** The callback that is to wake a sleeper is on its way. */
  predicate AlarmOk(s: State, c: Task) {
    c in s.sleeps ==> c in s.status && !Finished(s.status[c]) && Alarm(s, c) > 0
  }

  predicate HeirOk(s: State, x: Task) { x in s.heirs ==> s.heirs[x] in s.status }

  /** The counters count what they are to count, in every run. */
  predicate Counters(s: State) {
    Sized(s) && s.active == Active(s.workers) && s.pending == |s.waits| + s.triggers && s.triggers >= 0
  }

  ghost predicate Sane(s: State) {
    && Counters(s)
    && (forall t :: Loose(s, t)) && (forall c :: AlarmOk(s, c)) && (forall x :: HeirOk(s, x))
  }

  // ---------------------------------------------------------------- counters

  lemma ClientsLeaveWorkers(s: State, e: Event)
    requires Possible(s, e) && !ByWorker(e)
    ensures SameWorkers(s, Apply(s, e))
  {
    if Sets(e) { SetsLeaveWorkers(s, e); }
  }

  predicate SameWorkers(s: State, s': State) {
    && s'.workers == s.workers && s'.idleDone == s.idleDone && s'.cbFibers == s.cbFibers
    && s'.active == s.active && !s'.aborted
  }

  lemma SetsLeaveWorkers(s: State, e: Event)
    requires Possible(s, e) && Sets(e)
    ensures SameWorkers(s, Apply(s, e))
  {
  }

  /** The groups of worker steps, besides SwapIn and Post: those that only move the worker, */
  predicate Switches(e: Event) { e.Skip? || e.YieldReady? || e.YieldHold? || e.Finish? || e.Decrement? }

  /** those that take from the queue or the timers or add to the queue, */
  predicate Hauls(e: Event) { e.Pick? || e.Expire? || e.Flush? }

  /** and those of a worker that holds nothing. */
  predicate Idles(e: Event) { e.Start? || e.PickNone? || e.StopCheck? || e.Leave? }

  /** The groups of client steps, besides Deliver and Sleep. */
  predicate Pushes(e: Event) { e.Submit? || e.Wake? || e.Trigger? }

  predicate Sets(e: Event) {
    e.Register? || e.RegisterCb? || e.Withdraw? || e.AddTimer? || e.CancelTimer? || e.RequestStop? || e.Settle?
  }

  /** A worker's step takes it from one place to another, and nobody else. */
  predicate MovesOne(s: State, s': State, w: nat) {
    && At(s, w) && |s'.workers| == |s.workers| && s'.workers == s.workers[w := s'.workers[w]]
    && s'.active + B(IsActive(s.workers[w])) == s.active + B(IsActive(s'.workers[w]))
    && |s'.cbFibers| == |s.cbFibers| && !s'.aborted
  }

  /** And it stays in its loop. */
  predicate GoesOn(s: State, s': State, w: nat) {
    MovesOne(s, s', w) && s'.idleDone == s.idleDone && !s'.workers[w].Exited? && !s'.workers[w].NotStarted?
  }

  lemma SwitchMoves(s: State, e: Event, w: nat)
    requires Possible(s, e) && Switches(e) && e.w == w
    ensures GoesOn(s, Apply(s, e), w)
  {
    match e
    case Skip(_) => assert GoesOn(s, Apply(s, Skip(w)), w);
    case YieldReady(_) => assert GoesOn(s, Apply(s, YieldReady(w)), w);
    case YieldHold(_) => assert GoesOn(s, Apply(s, YieldHold(w)), w);
    case Finish(_, except) => assert GoesOn(s, Apply(s, Finish(w, except)), w);
    case Decrement(_) => assert GoesOn(s, Apply(s, Decrement(w)), w);
  }

  lemma HaulMoves(s: State, e: Event, w: nat)
    requires Possible(s, e) && Hauls(e) && e.w == w
    ensures GoesOn(s, Apply(s, e), w)
  {
    match e
    case Pick(_) => assert GoesOn(s, Apply(s, Pick(w)), w);
    case Expire(_, due) => assert GoesOn(s, Apply(s, Expire(w, due)), w);
    case Flush(_) => assert GoesOn(s, Apply(s, Flush(w)), w);
  }

  lemma PostMoves(s: State, w: nat)
    requires Possible(s, Post(w))
    ensures GoesOn(s, Apply(s, Post(w)), w) && Apply(s, Post(w)).workers[w] == Top
  {
  }

  /** Where an idle worker goes, and when its idle fiber or the worker itself ends. */
  predicate Rests(s: State, e: Event, s': State, w: nat) {
    && MovesOne(s, s', w)
    && s'.idleDone == (if e.StopCheck? && Stopping(s) && w < |s.idleDone| then s.idleDone[w := true] else s.idleDone)
    && (e.StopCheck? && Stopping(s) ==> s'.workers[w].Top?)
    && !s'.workers[w].NotStarted?
    && (s'.workers[w].Exited? ==> (e.Start? && Stopping(s)) || (e.PickNone? && w < |s.idleDone| && s.idleDone[w]))
  }

  lemma StopCheckMoves(s: State, w: nat)
    requires Possible(s, StopCheck(w))
    ensures Rests(s, StopCheck(w), Apply(s, StopCheck(w)), w)
  {
  }

  lemma IdleMoves(s: State, e: Event, w: nat)
    requires Possible(s, e) && Idles(e) && e.w == w
    ensures Rests(s, e, Apply(s, e), w)
  {
    match e
    case Start(_) => assert Rests(s, e, Apply(s, Start(w)), w);
    case PickNone(_) => assert Rests(s, e, Apply(s, PickNone(w)), w);
    case StopCheck(_) => StopCheckMoves(s, w);
    case Leave(_) => assert Rests(s, e, Apply(s, Leave(w)), w);
  }

  lemma ActiveStep(s: State, e: Event)
    requires Possible(s, e) && s.active == Active(s.workers)
    ensures Apply(s, e).active == Active(Apply(s, e).workers) && Sized(Apply(s, e))
  {
    var s' := Apply(s, e);
    if !ByWorker(e) {
      ClientsLeaveWorkers(s, e);
    } else if e.SwapIn? {
      SwapInActive(s, e.w);
    } else {
      OneMoves(s, e, e.w);
      SetActive(s.workers, e.w, s'.workers[e.w]);
    }
  }

  lemma OneMoves(s: State, e: Event, w: nat)
    requires Possible(s, e) && ByWorker(e) && !e.SwapIn? && e.w == w
    ensures MovesOne(s, Apply(s, e), w)
    ensures !(e.StopCheck? && Stopping(s)) ==> Apply(s, e).idleDone == s.idleDone
    ensures |Apply(s, e).idleDone| == |s.idleDone|
  {
    if Switches(e) { SwitchMoves(s, e, w); }
    else if Hauls(e) { HaulMoves(s, e, w); }
    else if Idles(e) { IdleMoves(s, e, w); }
    else { PostMoves(s, w); }
  }

  lemma SwapInActive(s: State, w: nat)
    requires Possible(s, SwapIn(w)) && s.active == Active(s.workers)
    ensures Apply(s, SwapIn(w)).active == Active(Apply(s, SwapIn(w)).workers) && Sized(Apply(s, SwapIn(w)))
  {
    var u := s.workers[w].task;
    if !Apply(s, SwapIn(w)).aborted {
      var s1 := Dispatch(s, w, u);
      if HandsOn(s, w) {
        SubActive(s.workers, s.cbFibers[w].task, u);
        SubShare(s.workers, w, s.cbFibers[w].task, u);
      }
      SetActive(s1.workers, w, Running(u));
    }
  }

  lemma PendingStep(s: State, e: Event)
    requires Possible(s, e) && s.pending == |s.waits| + s.triggers && s.triggers >= 0
    ensures var s' := Apply(s, e); s'.pending == |s'.waits| + s'.triggers && s'.triggers >= 0
  {
    if e.SwapIn? { PendingSwapIn(s, e.w); }
    else if ByWorker(e) { PendingWorker(s, e); }
    else { PendingClient(s, e); }
  }

  lemma PendingClient(s: State, e: Event)
    requires Possible(s, e) && s.pending == |s.waits| + s.triggers && s.triggers >= 0 && !ByWorker(e)
    ensures var s' := Apply(s, e); s'.pending == |s'.waits| + s'.triggers && s'.triggers >= 0
  {
  }

  lemma PendingWorker(s: State, e: Event)
    requires Possible(s, e) && ByWorker(e) && !e.SwapIn?
    ensures var s' := Apply(s, e); s'.waits == s.waits && s'.pending == s.pending && s'.triggers == s.triggers
  {
  }

  lemma PendingSwapIn(s: State, w: nat)
    requires Possible(s, SwapIn(w))
    ensures var s' := Apply(s, SwapIn(w));
            |s'.waits| == |s.waits| && s'.pending == s.pending && s'.triggers == s.triggers
  {
    var u := s.workers[w].task;
    if HandsOn(s, w) && !ResetFails(s, w, u) { SubWaitsSize(s.waits, s.cbFibers[w].task, u); }
  }

  lemma CountersStep(s: State, e: Event)
    requires Counters(s) && Possible(s, e)
    ensures Counters(Apply(s, e))
  {
    ActiveStep(s, e);
    PendingStep(s, e);
  }

  // ---------------------------------------------------------------- tasks

  /** Steps that add to the queue. */
  lemma LoosePush(s: State, e: Event, t: Task)
    requires Possible(s, e) && (e.Submit? || e.Trigger?) && Loose(s, t)
    ensures Loose(Apply(s, e), t)
  {
    PushEffect(s, e, t);
  }

  lemma LooseWake(s: State, u: Task, thread: int, t: Task)
    requires Possible(s, Wake(u, thread)) && Loose(s, t) && HeirOk(s, u)
    ensures Loose(Apply(s, Wake(u, thread)), t)
  {
    PushEffect(s, Wake(u, thread), t);
  }

  lemma LooseDeliver(s: State, c: Task, t: Task)
    requires Possible(s, Deliver(c)) && Loose(s, t)
    ensures Loose(Apply(s, Deliver(c)), t)
  {
    DeliverEffect(s, c, t);
    if s.sleeps[c] == t { assert c in Wakers(s.sleeps, t); }
  }

  /** addEvent, delEvent, addTimer, Timer::cancel, and the steps that touch no task. */
  lemma LooseSet(s: State, e: Event, t: Task)
    requires Possible(s, e) && Loose(s, t) && Sets(e)
    ensures Loose(Apply(s, e), t)
  {
    SetEffect(s, e, t);
    if e.Register? { RunningKnown(s, e.t, t); }
  }

  lemma LooseSleep(s: State, u: Task, c: Task, t: Task)
    requires Possible(s, Sleep(u, c)) && Loose(s, t)
    ensures Loose(Apply(s, Sleep(u, c)), t)
  {
    SleepEffect(s, u, c, t);
    RunningKnown(s, u, t);
  }

  lemma LooseClient(s: State, e: Event, t: Task)
    requires Possible(s, e) && !ByWorker(e) && Loose(s, t) && (e.Wake? ==> HeirOk(s, e.t))
    ensures Loose(Apply(s, e), t)
  {
    if e.Wake? { LooseWake(s, e.t, e.thread, t); }
    else if Pushes(e) { LoosePush(s, e, t); }
    else if e.Deliver? { LooseDeliver(s, e.c, t); }
    else if e.Sleep? { LooseSleep(s, e.t, e.c, t); }
    else { LooseSet(s, e, t); }
  }

  lemma RunningKnown(s: State, u: Task, t: Task)
    requires IsRunning(s, u)
    ensures u == t ==> CountOf(s, t).running > 0
  {
    var w :| 0 <= w < |s.workers| && s.workers[w] == Running(u);
    Share(s.workers, w, u);
  }

  /** What SwapIn leaves as it is. */
  lemma SwapInFields(s: State, w: nat)
    requires Possible(s, SwapIn(w)) && !Apply(s, SwapIn(w)).aborted
    ensures var (s', u) := (Apply(s, SwapIn(w)), s.workers[w].task);
            && s'.status == s.status[u := EXEC] && s.status[u] != EXEC
            && s'.parked == s.parked && s'.withdrawn == s.withdrawn && s'.timers == s.timers
            && s'.workers[w] == Running(u) && s'.idleDone == s.idleDone && s'.active == s.active
            && (HandsOn(s, w) ==> var a := s.cbFibers[w].task; a != u && a in s.status && Finished(s.status[a]))
            && (!HandsOn(s, w) ==>
                  s'.heirs == s.heirs && s'.queue == s.queue && s'.sleeps == s.sleeps && s'.waits == s.waits)
  {
  }

  lemma LooseSwapIn(s: State, w: nat, t: Task)
    requires Possible(s, SwapIn(w)) && Loose(s, t)
    ensures Loose(Apply(s, SwapIn(w)), t)
  {
    var s' := Apply(s, SwapIn(w));
    if !s'.aborted {
      SwapInEffect(s, w, t);
      SwapInFields(s, w);
      LooseEntered(s, s', w, s.workers[w].task, t);
    }
  }

  lemma LooseEntered(s: State, s': State, w: nat, u: Task, t: Task)
    requires Loose(s, t) && At(s, w) && Sized(s) && s.workers[w] == Picked(u) && u in s.status
    requires s'.status == s.status[u := EXEC] && s'.parked == s.parked && s'.withdrawn == s.withdrawn
    requires HandsOn(s, w) ==> var a := s.cbFibers[w].task; a != u && a in s.status && Finished(s.status[a])
    requires var h := if HandsOn(s, w) then Handed(s, s.cbFibers[w].task, u, t) else NONE;
             Moves(CountOf(s, t), h.(picked := h.picked - Is(u, t), running := h.running + Is(u, t)), CountOf(s', t))
    ensures Loose(s', t)
  {
  }

  lemma LoosePost(s: State, w: nat, t: Task)
    requires Possible(s, Post(w)) && Loose(s, t)
    ensures Loose(Apply(s, Post(w)), t)
  {
    PostEffect(s, w, t);
    PostFields(s, w);
    Share(s.workers, w, t);
    LoosePosted(s, Apply(s, Post(w)), s.workers[w].task, t);
  }

  lemma LoosePosted(s: State, s': State, u: Task, t: Task)
    requires Loose(s, t) && u in s.status && (t == u ==> CountOf(s, t).out > 0)
    requires Moves(CountOf(s, t), NONE.(out := Neg(Is(u, t)), queued := if s.status[u] == READY then Is(u, t) else 0),
                   CountOf(s', t))
    requires s'.status == if s.status[u] == READY || Finished(s.status[u]) then s.status else s.status[u := HOLD]
    requires s'.parked == if s.status[u] == READY || Finished(s.status[u]) || Tokens(s, u) > 0 then s.parked
                          else s.parked + {u}
    requires s'.withdrawn == s.withdrawn
    ensures Loose(s', t)
  {
  }

  lemma LooseSwitch(s: State, e: Event, w: nat, t: Task)
    requires Possible(s, e) && Loose(s, t) && Switches(e) && e.w == w
    ensures Loose(Apply(s, e), t)
  {
    SwitchEffect(s, e, w, t);
    Share(s.workers, w, t);
  }

  lemma LooseHaul(s: State, e: Event, w: nat, t: Task)
    requires Possible(s, e) && Loose(s, t) && Hauls(e) && e.w == w
    ensures Loose(Apply(s, e), t)
  {
    WorkerEffects(s, e, w, t);
  }

  lemma LooseIdle(s: State, e: Event, w: nat, t: Task)
    requires Possible(s, e) && Loose(s, t) && Idles(e) && e.w == w
    ensures Loose(Apply(s, e), t)
  {
    WorkerEffects(s, e, w, t);
  }

  lemma LooseStep(s: State, e: Event, t: Task)
    requires Loose(s, t) && (e.Wake? ==> HeirOk(s, e.t)) && Possible(s, e)
    ensures Loose(Apply(s, e), t)
  {
    if !ByWorker(e) { LooseClient(s, e, t); }
    else if e.SwapIn? { LooseSwapIn(s, e.w, t); }
    else if e.Post? { LoosePost(s, e.w, t); }
    else if Hauls(e) { LooseHaul(s, e, e.w, t); }
    else if Idles(e) { LooseIdle(s, e, e.w, t); }
    else { LooseSwitch(s, e, e.w, t); }
  }

  // ---------------------------------------------------------------- sleepers and heirs

  lemma AlarmClient(s: State, e: Event, c: Task)
    requires Possible(s, e) && !ByWorker(e) && AlarmOk(s, c)
    ensures AlarmOk(Apply(s, e), c)
  {
    if Pushes(e) { AlarmPush(s, e, c); }
    else if e.Deliver? { AlarmDeliver(s, e.c, c); }
    else if e.Sleep? { AlarmSleep(s, e.t, e.c, c); }
    else { AlarmSet(s, e, c); }
  }

  lemma AlarmPush(s: State, e: Event, c: Task)
    requires Possible(s, e) && Pushes(e) && AlarmOk(s, c)
    ensures AlarmOk(Apply(s, e), c)
  {
    PushEffect(s, e, c);
  }

  lemma AlarmDeliver(s: State, d: Task, c: Task)
    requires Possible(s, Deliver(d)) && AlarmOk(s, c)
    ensures AlarmOk(Apply(s, Deliver(d)), c)
  {
    DeliverEffect(s, d, c);
  }

  lemma AlarmSleep(s: State, u: Task, d: Task, c: Task)
    requires Possible(s, Sleep(u, d)) && AlarmOk(s, c)
    ensures AlarmOk(Apply(s, Sleep(u, d)), c)
  {
    SleepEffect(s, u, d, c);
  }

  lemma AlarmSet(s: State, e: Event, c: Task)
    requires Possible(s, e) && Sets(e) && AlarmOk(s, c)
    ensures AlarmOk(Apply(s, e), c)
  {
    SetEffect(s, e, c);
  }

  lemma AlarmSwapIn(s: State, w: nat, c: Task)
    requires Possible(s, SwapIn(w)) && AlarmOk(s, c)
    ensures AlarmOk(Apply(s, SwapIn(w)), c)
  {
    SwapInEffect(s, w, c);
  }

  lemma AlarmPost(s: State, w: nat, c: Task)
    requires Possible(s, Post(w)) && AlarmOk(s, c)
    ensures AlarmOk(Apply(s, Post(w)), c)
  {
    PostEffect(s, w, c);
  }

  lemma AlarmSwitch(s: State, e: Event, w: nat, c: Task)
    requires Possible(s, e) && AlarmOk(s, c) && Switches(e) && e.w == w
    ensures AlarmOk(Apply(s, e), c)
  {
    SwitchEffect(s, e, w, c);
  }

  lemma AlarmHaul(s: State, e: Event, w: nat, c: Task)
    requires Possible(s, e) && AlarmOk(s, c) && Hauls(e) && e.w == w
    ensures AlarmOk(Apply(s, e), c)
  {
    WorkerEffects(s, e, w, c);
  }

  lemma AlarmIdle(s: State, e: Event, w: nat, c: Task)
    requires Possible(s, e) && AlarmOk(s, c) && Idles(e) && e.w == w
    ensures AlarmOk(Apply(s, e), c)
  {
    WorkerEffects(s, e, w, c);
  }

  lemma AlarmStep(s: State, e: Event, c: Task)
    requires Possible(s, e) && AlarmOk(s, c)
    ensures AlarmOk(Apply(s, e), c)
  {
    if !ByWorker(e) { AlarmClient(s, e, c); }
    else if e.SwapIn? { AlarmSwapIn(s, e.w, c); }
    else if e.Post? { AlarmPost(s, e.w, c); }
    else if Hauls(e) { AlarmHaul(s, e, e.w, c); }
    else if Idles(e) { AlarmIdle(s, e, e.w, c); }
    else { AlarmSwitch(s, e, e.w, c); }
  }

  /** A task stays known, and a handle goes on meaning a known one. */
  predicate Keeps(s: State, s': State, t: Task, x: Task) {
    (t in s.status ==> t in s'.status) && (HeirOk(s, x) ==> HeirOk(s', x))
  }

  lemma PushKeeps(s: State, e: Event, t: Task, x: Task)
    requires Possible(s, e) && (Pushes(e) || e.Deliver? || e.Sleep?)
    ensures Keeps(s, Apply(s, e), t, x)
  {
  }

  lemma SetKeeps(s: State, e: Event, t: Task, x: Task)
    requires Possible(s, e) && Sets(e)
    ensures Keeps(s, Apply(s, e), t, x)
  {
  }

  lemma SwitchKeeps(s: State, e: Event, w: nat, t: Task, x: Task)
    requires Possible(s, e) && Switches(e) && e.w == w
    ensures Keeps(s, Apply(s, e), t, x)
  {
    match e
    case Skip(_) => assert Keeps(s, Apply(s, Skip(w)), t, x);
    case YieldReady(_) => assert Keeps(s, Apply(s, YieldReady(w)), t, x);
    case YieldHold(_) => assert Keeps(s, Apply(s, YieldHold(w)), t, x);
    case Finish(_, except) => assert Keeps(s, Apply(s, Finish(w, except)), t, x);
    case Decrement(_) => assert Keeps(s, Apply(s, Decrement(w)), t, x);
  }

  lemma HaulKeepsKnown(s: State, e: Event, w: nat, t: Task, x: Task)
    requires Possible(s, e) && Hauls(e) && e.w == w
    ensures Keeps(s, Apply(s, e), t, x)
  {
    match e
    case Pick(_) => assert Keeps(s, Apply(s, Pick(w)), t, x);
    case Expire(_, due) => assert Keeps(s, Apply(s, Expire(w, due)), t, x);
    case Flush(_) => assert Keeps(s, Apply(s, Flush(w)), t, x);
  }

  lemma IdleKeepsKnown(s: State, e: Event, w: nat, t: Task, x: Task)
    requires Possible(s, e) && Idles(e) && e.w == w
    ensures Keeps(s, Apply(s, e), t, x)
  {
    match e
    case Start(_) => assert Keeps(s, Apply(s, Start(w)), t, x);
    case PickNone(_) => assert Keeps(s, Apply(s, PickNone(w)), t, x);
    case StopCheck(_) => assert Keeps(s, Apply(s, StopCheck(w)), t, x);
    case Leave(_) => assert Keeps(s, Apply(s, Leave(w)), t, x);
  }

  lemma PostKeeps(s: State, w: nat, t: Task, x: Task)
    requires Possible(s, Post(w))
    ensures Keeps(s, Apply(s, Post(w)), t, x)
  {
  }

  lemma SwapInKeeps(s: State, w: nat, t: Task, x: Task)
    requires Possible(s, SwapIn(w))
    ensures Keeps(s, Apply(s, SwapIn(w)), t, x)
  {
  }

  /** No step forgets a task. */
  lemma StaysKnown(s: State, e: Event, t: Task, x: Task)
    requires Possible(s, e)
    ensures Keeps(s, Apply(s, e), t, x)
  {
    if e.SwapIn? { SwapInKeeps(s, e.w, t, x); }
    else if e.Post? { PostKeeps(s, e.w, t, x); }
    else if Switches(e) { SwitchKeeps(s, e, e.w, t, x); }
    else if Hauls(e) { HaulKeepsKnown(s, e, e.w, t, x); }
    else if Idles(e) { IdleKeepsKnown(s, e, e.w, t, x); }
    else if Sets(e) { SetKeeps(s, e, t, x); }
    else { PushKeeps(s, e, t, x); }
  }

  lemma SaneStep(s: State, e: Event)
    requires Sane(s) && Possible(s, e)
    ensures Sane(Apply(s, e))
  {
    CountersStep(s, e);
    if e.Wake? { assert HeirOk(s, e.t); }
    forall t ensures Loose(Apply(s, e), t) { assert Loose(s, t); LooseStep(s, e, t); }
    forall c ensures AlarmOk(Apply(s, e), c) { assert AlarmOk(s, c); AlarmStep(s, e, c); }
    forall x ensures HeirOk(Apply(s, e), x) { assert HeirOk(s, x); StaysKnown(s, e, x, x); }
  }

  lemma {:induction false} RunSane(s: State, es: seq<Event>)
    requires Sane(s) && Run(s, es)
    ensures Sane(Exec(s, es))
    decreases |es|
  {
    if es != [] {
      SaneStep(s, es[0]);
      RunSane(Apply(s, es[0]), es[1..]);
    }
  }

  lemma {:induction false} NobodyHolds(ws: seq<Pc>, t: Task)
    requires forall w :: 0 <= w < |ws| ==> ws[w].NotStarted? || ws[w].Top?
    ensures Total(ws, t) == Tally(0, 0, 0, 0) && Active(ws) == 0
  {
    if ws != [] { NobodyHolds(ws[..|ws|-1], t); }
  }

  lemma InitSane(n: nat, caller: bool)
    ensures Sane(Init(n, caller)) && forall t :: Tokens(Init(n, caller), t) == Own(Init(n, caller), t) == 0
  {
    var s := Init(n, caller);
    NobodyHolds(s.workers, 0);
    forall t ensures Tokens(s, t) == Own(s, t) == 0 && Loose(s, t) {
      NobodyHolds(s.workers, t);
      assert Wakers(s.sleeps, t) == {};
    }
  }

  // ---------------------------------------------------------------- what the rule keeps

  predicate TaskInv(s: State, t: Task) {
    var c := CountOf(s, t);
    && Tokens(s, t) <= 1 && Own(s, t) <= 1
    && (Tokens(s, t) > 0 || Own(s, t) > 0 ==> t in s.status)
    && (c.picked + c.batch + c.timers > 0 ==> Own(s, t) == 0)
    && (t in s.status ==>
          && (Finished(s.status[t]) ==> Tokens(s, t) == 0)
          && (s.status[t] == EXEC ==> Own(s, t) > 0)
          && (Own(s, t) > 0 && s.status[t] != EXEC ==> Tokens(s, t) == 0)
          && (Own(s, t) > 0 ==> s.status[t] != INIT && s.status[t] != HOLD)
          && (c.running > 0 ==> s.status[t] == EXEC))
    && (Stranded(s, t) <==> t in s.parked || t in s.withdrawn)
    && !(t in s.parked && t in s.withdrawn)
    && (t in s.cbs ==> t in s.status && s.status[t] == INIT)
    && (t in s.heirs ==> t in s.status && Finished(s.status[t]))
  }

  /** A spare fiber is that of a task which is through, and nobody holds on to it. */
  predicate SpareOk(s: State, w: nat) {
    w < |s.cbFibers| && s.cbFibers[w].Spare? ==>
      var a := s.cbFibers[w].task;
      a in s.status && Finished(s.status[a]) && Own(s, a) == 0
  }

  ghost predicate Inv(s: State) {
    Sane(s) && !s.aborted && (forall t :: TaskInv(s, t)) && (forall w: nat :: SpareOk(s, w))
  }

  lemma SubmitStep(s: State, e: Event, t: Task)
    requires TaskInv(s, t) && Possible(s, e) && e.Submit?
    ensures TaskInv(Apply(s, e), t)
  {
    PushEffect(s, e, t);
  }

  lemma WakeStep(s: State, e: Event, t: Task)
    requires TaskInv(s, t) && Possible(s, e) && OneWakeSource(s, e) && e.Wake? && TaskInv(s, e.t)
    ensures TaskInv(Apply(s, e), t)
  {
    assert Heir(s, e.t) == e.t;
    PushEffect(s, e, t);
  }

  lemma TriggerStep(s: State, u: Task, t: Task)
    requires TaskInv(s, t) && Possible(s, Trigger(u))
    ensures TaskInv(Apply(s, Trigger(u)), t)
  {
    PushEffect(s, Trigger(u), t);
  }

  lemma DeliverStep(s: State, c: Task, t: Task)
    requires TaskInv(s, t) && Possible(s, Deliver(c))
    ensures TaskInv(Apply(s, Deliver(c)), t)
  {
    DeliverEffect(s, c, t);
    if s.sleeps[c] == t { assert c in Wakers(s.sleeps, t); }
  }

  lemma SleepStep(s: State, u: Task, c: Task, t: Task)
    requires TaskInv(s, t) && TaskInv(s, u) && Possible(s, Sleep(u, c)) && OneWakeSource(s, Sleep(u, c))
    ensures TaskInv(Apply(s, Sleep(u, c)), t)
  {
    SleepEffect(s, u, c, t);
    RunningKnown(s, u, u);
  }

  lemma RegisterStep(s: State, u: Task, t: Task)
    requires TaskInv(s, t) && Possible(s, Register(u)) && OneWakeSource(s, Register(u))
    ensures TaskInv(Apply(s, Register(u)), t)
  {
    SetEffect(s, Register(u), t);
    RunningKnown(s, u, t);
  }

  lemma TakeBackStep(s: State, e: Event, t: Task)
    requires TaskInv(s, t) && Possible(s, e) && (e.Withdraw? || e.CancelTimer?)
    ensures TaskInv(Apply(s, e), t)
  {
    SetEffect(s, e, t);
  }

  lemma HeldStep(s: State, e: Event, t: Task)
    requires TaskInv(s, t) && Possible(s, e) && (e.RegisterCb? || e.AddTimer? || e.RequestStop? || e.Settle?)
    ensures TaskInv(Apply(s, e), t)
  {
    SetEffect(s, e, t);
  }

  lemma ClientStep(s: State, e: Event, t: Task)
    requires Inv(s) && Possible(s, e) && OneWakeSource(s, e) && !ByWorker(e)
    ensures TaskInv(Apply(s, e), t)
  {
    assert TaskInv(s, t);
    if e.Submit? { SubmitStep(s, e, t); }
    else if e.Wake? { assert TaskInv(s, e.t); WakeStep(s, e, t); }
    else if e.Trigger? { TriggerStep(s, e.t, t); }
    else if e.Deliver? { DeliverStep(s, e.c, t); }
    else if e.Sleep? { assert TaskInv(s, e.t); SleepStep(s, e.t, e.c, t); }
    else if e.Register? { RegisterStep(s, e.t, t); }
    else if e.Withdraw? || e.CancelTimer? { TakeBackStep(s, e, t); }
    else { HeldStep(s, e, t); }
  }

  /** What a worker runs is EXEC and on no other worker. */
  lemma RunningAlone(s: State, w: nat)
    requires At(s, w) && s.workers[w].Running? && TaskInv(s, s.workers[w].task)
    ensures var u := s.workers[w].task;
            u in s.status && s.status[u] == EXEC && CountOf(s, u).running == Own(s, u) == 1
  {
    Share(s.workers, w, s.workers[w].task);
  }

  /** What a worker has picked is on no worker and not EXEC. */
  lemma PickedIsFree(s: State, w: nat)
    requires Possible(s, SwapIn(w)) && TaskInv(s, s.workers[w].task)
    ensures var u := s.workers[w].task;
            Own(s, u) == 0 && s.status[u] != EXEC && CountOf(s, u).picked == Tokens(s, u) == 1
  {
    Share(s.workers, w, s.workers[w].task);
  }

  lemma LeaveStep(s: State, e: Event, w: nat, t: Task)
    requires TaskInv(s, t) && Possible(s, e) && OneWakeSource(s, e) && (e.YieldReady? || e.YieldHold? || e.Finish?)
    requires e.w == w && TaskInv(s, s.workers[w].task)
    ensures TaskInv(Apply(s, e), t)
  {
    SwitchEffect(s, e, w, t);
    RunningAlone(s, w);
  }

  lemma CountedStep(s: State, e: Event, w: nat, t: Task)
    requires TaskInv(s, t) && Possible(s, e) && (e.Skip? || e.Decrement?) && e.w == w
    ensures TaskInv(Apply(s, e), t)
  {
    SwitchEffect(s, e, w, t);
    Share(s.workers, w, s.workers[w].task);
  }

  lemma HaulStep(s: State, e: Event, w: nat, t: Task)
    requires TaskInv(s, t) && Possible(s, e) && Hauls(e) && e.w == w
    ensures TaskInv(Apply(s, e), t)
  {
    WorkerEffects(s, e, w, t);
    if e.Pick? { PickedEligible(s, w, t); }
  }

  lemma PickedEligible(s: State, w: nat, t: Task)
    requires Possible(s, Pick(w))
    ensures s.queue[FirstEligible(s.queue, s.status, w)].task == t ==>
              CountOf(s, t).queued > 0 && (t in s.status ==> s.status[t] != EXEC)
  {
    QueuedRemove(s.queue, FirstEligible(s.queue, s.status, w), t);
  }

  lemma IdleStep(s: State, e: Event, w: nat, t: Task)
    requires TaskInv(s, t) && Possible(s, e) && Idles(e) && e.w == w
    ensures TaskInv(Apply(s, e), t)
  {
    WorkerEffects(s, e, w, t);
  }

  lemma PostFields(s: State, w: nat)
    requires Possible(s, Post(w))
    ensures var (s', u) := (Apply(s, Post(w)), s.workers[w].task);
            && s'.status == (if s.status[u] == READY || Finished(s.status[u]) then s.status else s.status[u := HOLD])
            && s'.parked == (if s.status[u] == READY || Finished(s.status[u]) || Tokens(s, u) > 0 then s.parked
                             else s.parked + {u})
            && s'.withdrawn == s.withdrawn && s'.cbs == s.cbs && s'.heirs == s.heirs && !s'.aborted
  {
  }

  lemma PostStep(s: State, w: nat, t: Task)
    requires TaskInv(s, t) && Possible(s, Post(w))
    ensures TaskInv(Apply(s, Post(w)), t)
  {
    var (s', u) := (Apply(s, Post(w)), s.workers[w].task);
    PostEffect(s, w, t);
    PostFields(s, w);
    Share(s.workers, w, t);
    if t == u { PostedSame(s, s', t); } else { PostedOther(s, s', u, t); }
  }

  lemma PostedSame(s: State, s': State, t: Task)
    requires TaskInv(s, t) && t in s.status && CountOf(s, t).out > 0
    requires Moves(CountOf(s, t), NONE.(out := -1, queued := if s.status[t] == READY then 1 else 0), CountOf(s', t))
    requires s'.status == if s.status[t] == READY || Finished(s.status[t]) then s.status else s.status[t := HOLD]
    requires s'.parked == if s.status[t] == READY || Finished(s.status[t]) || Tokens(s, t) > 0 then s.parked
                          else s.parked + {t}
    requires s'.withdrawn == s.withdrawn && s'.cbs == s.cbs && s'.heirs == s.heirs
    ensures TaskInv(s', t)
  {
  }

  lemma PostedOther(s: State, s': State, u: Task, t: Task)
    requires TaskInv(s, t) && t != u && CountOf(s', t) == CountOf(s, t)
    requires (s'.status == s.status || s'.status == s.status[u := HOLD]) && s'.withdrawn == s.withdrawn
    requires (s'.parked == s.parked || s'.parked == s.parked + {u}) && s'.cbs == s.cbs && s'.heirs == s.heirs
    ensures TaskInv(s', t)
  {
  }

  /** The spare fiber is there to be reset: no ASSERT fails. */
  lemma SwapInWorks(s: State, w: nat)
    requires Inv(s) && Possible(s, SwapIn(w))
    ensures !Apply(s, SwapIn(w)).aborted
    ensures HandsOn(s, w) ==>
              var a := s.cbFibers[w].task;
              a in s.status && Finished(s.status[a]) && Own(s, a) == Tokens(s, a) == 0
  {
    assert TaskInv(s, s.workers[w].task) && SpareOk(s, w);
    PickedIsFree(s, w);
    if HandsOn(s, w) { assert TaskInv(s, s.cbFibers[w].task); }
  }

  lemma SwapInStep(s: State, w: nat, t: Task)
    requires Inv(s) && Possible(s, SwapIn(w))
    ensures TaskInv(Apply(s, SwapIn(w)), t)
  {
    var (s', u) := (Apply(s, SwapIn(w)), s.workers[w].task);
    SwapInWorks(s, w);
    SwapInEffect(s, w, t);
    SwapInFields(s, w);
    SwapInNames(s, w);
    assert TaskInv(s, t) && TaskInv(s, u);
    PickedIsFree(s, w);
    EnteredStep(s, s', w, u, t);
  }

  lemma SwapInNames(s: State, w: nat)
    requires Possible(s, SwapIn(w)) && !Apply(s, SwapIn(w)).aborted
    ensures var (s', u) := (Apply(s, SwapIn(w)), s.workers[w].task);
            && s'.cbs == s.cbs - {u}
            && s'.heirs.Keys == s.heirs.Keys + if HandsOn(s, w) then {s.cbFibers[w].task} else {}
  {
  }

  lemma EnteredStep(s: State, s': State, w: nat, u: Task, t: Task)
    requires TaskInv(s, t) && At(s, w) && Sized(s) && s.workers[w] == Picked(u) && u in s.status
    requires Own(s, u) == 0 && CountOf(s, u).picked == Tokens(s, u) == 1 && !Finished(s.status[u])
    requires s'.status == s.status[u := EXEC] && s'.parked == s.parked && s'.withdrawn == s.withdrawn
    requires HandsOn(s, w) ==>
               var a := s.cbFibers[w].task;
               a != u && a in s.status && Finished(s.status[a]) && Own(s, a) == Tokens(s, a) == 0
    requires var h := if HandsOn(s, w) then Handed(s, s.cbFibers[w].task, u, t) else NONE;
             Moves(CountOf(s, t), h.(picked := h.picked - Is(u, t), running := h.running + Is(u, t)), CountOf(s', t))
    requires s'.cbs == s.cbs - {u}
    requires s'.heirs.Keys == s.heirs.Keys + if HandsOn(s, w) then {s.cbFibers[w].task} else {}
    ensures TaskInv(s', t)
  {
  }

  lemma WorkerStep(s: State, e: Event, t: Task)
    requires Inv(s) && Possible(s, e) && OneWakeSource(s, e) && ByWorker(e)
    ensures TaskInv(Apply(s, e), t)
  {
    assert TaskInv(s, t);
    if e.SwapIn? { SwapInStep(s, e.w, t); }
    else if e.Post? { PostStep(s, e.w, t); }
    else if Hauls(e) { HaulStep(s, e, e.w, t); }
    else if Idles(e) { IdleStep(s, e, e.w, t); }
    else if e.Skip? || e.Decrement? { CountedStep(s, e, e.w, t); }
    else { assert TaskInv(s, s.workers[e.w].task); LeaveStep(s, e, e.w, t); }
  }

  // ---------------------------------------------------------------- spare fibers

  lemma SpareSame(s: State, e: Event, a: Task)
    requires Possible(s, e) && a in s.status && Finished(s.status[a]) && TaskInv(s, a)
    requires e.SwapIn? ==> !Apply(s, e).aborted
    ensures a in Apply(s, e).status && Finished(Apply(s, e).status[a]) && Own(Apply(s, e), a) <= Own(s, a)
  {
    FinishedStays(s, e, a);
    Effects(s, e, a);
    OwnShrinks(s, e, a);
  }

  /** Only SwapIn puts a worker on a task, and only on one that has not finished. */
  lemma OwnShrinks(s: State, e: Event, a: Task)
    requires Possible(s, e) && a in s.status && Finished(s.status[a]) && (e.SwapIn? ==> !Apply(s, e).aborted)
    ensures Change(s, e, a).running + Change(s, e, a).out <= 0
  {
    if e.SwapIn? { SwapInFields(s, e.w); }
  }

  lemma FinishedStays(s: State, e: Event, a: Task)
    requires Possible(s, e) && a in s.status && Finished(s.status[a]) && TaskInv(s, a)
    requires e.SwapIn? ==> !Apply(s, e).aborted
    ensures a in Apply(s, e).status && Finished(Apply(s, e).status[a])
  {
    if e.SwapIn? { SwapInFields(s, e.w); }
    else if e.Post? { PostFields(s, e.w); }
    else if Switches(e) { Share(s.workers, e.w, a); FinishedSwitch(s, e, a); }
    else if ByWorker(e) { FinishedHaul(s, e, a); }
    else { FinishedClient(s, e, a); }
  }

  lemma FinishedSwitch(s: State, e: Event, a: Task)
    requires Possible(s, e) && Switches(e) && a in s.status && Finished(s.status[a])
    requires s.workers[e.w] != Running(a)
    ensures a in Apply(s, e).status && Finished(Apply(s, e).status[a])
  {
  }

  lemma FinishedHaul(s: State, e: Event, a: Task)
    requires Possible(s, e) && (Hauls(e) || Idles(e)) && a in s.status && Finished(s.status[a])
    ensures a in Apply(s, e).status && Finished(Apply(s, e).status[a])
  {
  }

  lemma FinishedClient(s: State, e: Event, a: Task)
    requires Possible(s, e) && !ByWorker(e) && a in s.status && Finished(s.status[a])
    ensures a in Apply(s, e).status && Finished(Apply(s, e).status[a])
  {
  }

  /** Which spare fibers there are changes only when a callback is dispatched, or through. */
  lemma SpareFrom(s: State, e: Event, w: nat)
    requires Possible(s, e) && w < |Apply(s, e).cbFibers| && Apply(s, e).cbFibers[w].Spare?
    ensures var a := Apply(s, e).cbFibers[w].task;
            || (w < |s.cbFibers| && s.cbFibers[w] == Spare(a))
            || (e == Post(w) && At(s, w) && s.workers[w] == Back(a) && a in s.status && Finished(s.status[a]))
  {
    if !ByWorker(e) { ClientsLeaveWorkers(s, e); }
    else if e.SwapIn? { SpareFromSwapIn(s, e.w, w); }
    else if !e.Post? { FibersStay(s, e); }
  }

  lemma SpareFromSwapIn(s: State, v: nat, w: nat)
    requires Possible(s, SwapIn(v)) && w < |Apply(s, SwapIn(v)).cbFibers| && Apply(s, SwapIn(v)).cbFibers[w].Spare?
    ensures w < |s.cbFibers| && s.cbFibers[w] == Apply(s, SwapIn(v)).cbFibers[w]
  {
  }

  lemma FibersStay(s: State, e: Event)
    requires Possible(s, e) && ByWorker(e) && !e.Post? && !e.SwapIn?
    ensures Apply(s, e).cbFibers == s.cbFibers
  {
  }

  lemma SpareStep(s: State, e: Event, w: nat)
    requires Inv(s) && Possible(s, e) && !Apply(s, e).aborted
    ensures SpareOk(Apply(s, e), w)
  {
    var s' := Apply(s, e);
    if w < |s'.cbFibers| && s'.cbFibers[w].Spare? {
      SpareFrom(s, e, w);
      var a := s'.cbFibers[w].task;
      assert SpareOk(s, w) && TaskInv(s, a);
      if e == Post(w) && s.workers[w] == Back(a) {
        PostStep(s, w, a);
        PostFields(s, w);
        Share(s.workers, w, a);
        PostEffect(s, w, a);
      } else {
        SpareSame(s, e, a);
      }
    }
  }

  lemma NoAbort(s: State, e: Event)
    requires Inv(s) && Possible(s, e)
    ensures !Apply(s, e).aborted
  {
    if e.SwapIn? { SwapInWorks(s, e.w); }
    else if ByWorker(e) { OneMoves(s, e, e.w); }
    else { ClientsLeaveWorkers(s, e); }
  }

  lemma StepInv(s: State, e: Event)
    requires Inv(s) && Possible(s, e) && OneWakeSource(s, e)
    ensures Inv(Apply(s, e))
  {
    SaneStep(s, e);
    NoAbort(s, e);
    forall t ensures TaskInv(Apply(s, e), t) {
      if ByWorker(e) { WorkerStep(s, e, t); } else { ClientStep(s, e, t); }
    }
    forall w: nat ensures SpareOk(Apply(s, e), w) { SpareStep(s, e, w); }
  }

  lemma {:induction false} RunInv(s: State, es: seq<Event>)
    requires Inv(s) && Run(s, es) && Ruled(s, es)
    ensures Inv(Exec(s, es))
    decreases |es|
  {
    if es != [] {
      StepInv(s, es[0]);
      RunInv(Apply(s, es[0]), es[1..]);
    }
  }

  lemma InitInv(n: nat, caller: bool)
    ensures Inv(Init(n, caller))
  {
    InitSane(n, caller);
  }
}
