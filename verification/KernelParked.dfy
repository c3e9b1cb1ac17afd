/**
 Where a thread can be while it is not running.  The queue's functions run with interrupts off, so
 a thread inside them leaves the CPU only by blocking.
 */
module KernelParked {
  import opened Words
  import opened KernelState
  import opened KernelInv
  import opened KernelSteps
  import opened KernelRuns
  import opened KernelTheorems

  /** Outside the modelled functions, in those of a kernel lock with interrupts on, or at one of the
      points where a function blocks. */
  predicate Parked(c: Ctx) {
    match c.pc
    case Program => true
    case Acquire(l, at, _) => at.InLoop? || (l.KernelLock? && c.ifOn)
    case Release(l, _, _) => l.KernelLock? && c.ifOn
    case GetSlot(_) => true
    case PutSlot(_, _) => true
    case _ => false
  }

  ghost predicate ParkedInv(s: State) {
    forall t | t != s.cur :: Parked(CtxOf(s, t))
  }

  /** A step changes no other thread's context, and a thread that loses the CPU is parked. */
  ghost predicate OwnStep(s: State, s': State) {
    && (forall t | t != s.cur :: CtxOf(s', t) == CtxOf(s, t))
    && (s'.cur != s.cur ==> Parked(CtxOf(s', s.cur)))
  }

  lemma OwnBlock(s: State, s1: State)
    requires s1.cur == s.cur && (forall t | t != s.cur :: CtxOf(s1, t) == CtxOf(s, t)) && Parked(CtxOf(s1, s.cur))
    ensures OwnStep(s, ThreadBlock(s1, Blocked))
  {
    hide PcbOf;
    assert ThreadBlock(s1, Blocked).ctx == s1.ctx;
  }

  lemma UnblockKeepsCtx(s: State, t: Tid)
    ensures ThreadUnblock(s, t).ctx == s.ctx && ThreadUnblock(s, t).cur == s.cur
  {
  }

  lemma OwnAcquire(s: State, l: LockId, at: AcqPoint, who: Caller)
    ensures OwnStep(s, LockAcquire(s, l, at, who))
  {
    hide ThreadBlock;
    var k := LockAt(s, l);
    OwnBlock(s, Goto(WithLock(s, l, WithSema(k, 0, k.sema.waiters + [s.cur])), Acquire(l, InLoop, who)));
  }

  lemma OwnWake(s: State, l: LockId)
    ensures SemaWake(s, l).ctx == s.ctx && SemaWake(s, l).cur == s.cur
  {
    hide ThreadUnblock;
    var k := LockAt(s, l);
    if k.sema.waiters != [] { UnblockKeepsCtx(WithLock(s, l, WithSema(k, k.sema.value, k.sema.waiters[1..])), k.sema.waiters[0]); }
  }

  lemma OwnRelease(s: State, l: LockId, at: RelPoint, who: Caller)
    ensures OwnStep(s, LockRelease(s, l, at, who))
  {
    hide SemaWake, AfterRelease, Depth;
    OwnWake(s, l);
  }

  lemma OwnBytes(s: State, q: QueueId, b: char)
    ensures PutByte(s, q, b).ctx == s.ctx && PutByte(s, q, b).cur == s.cur
    ensures GetByte(s, q).ctx == s.ctx && GetByte(s, q).cur == s.cur
  {
    hide ThreadUnblock, RingPut, RingGet;
    var k := QueueAt(s, q);
    if k.consumer.Some? { UnblockKeepsCtx(WithQueue(s, q, k.(ring := RingPut(k.ring, b))), k.consumer.value); }
    if k.producer.Some? { UnblockKeepsCtx(WithQueue(s, q, k.(ring := RingGet(k.ring))), k.producer.value); }
  }

  lemma OwnLoops(s: State, q: QueueId, b: char)
    ensures OwnStep(s, GetLoop(s, q)) && OwnStep(s, PutLoop(s, q, b))
  {
    hide GetByte, PutByte;
    OwnBytes(s, q, b);
  }

  lemma OwnWaits(s: State, q: QueueId, b: char)
    ensures OwnStep(s, WaitConsumer(s, q)) && OwnStep(s, WaitProducer(s, q, b))
  {
    hide ThreadBlock;
    var k := QueueAt(s, q);
    OwnBlock(s, Goto(WithQueue(s, q, k.(consumer := Some(s.cur))), GetSlot(q)));
    OwnBlock(s, Goto(WithQueue(s, q, k.(producer := Some(s.cur))), PutSlot(q, b)));
  }

  lemma OwnContinue(s: State)
    ensures OwnStep(s, Advance(s))
  {
    hide LockAcquire, LockRelease, GetLoop, PutLoop, WaitConsumer, WaitProducer;
    match CtxOf(s, s.cur).pc {
      case Acquire(l, at, who) => OwnAcquire(s, l, at, who);
      case Release(l, at, who) => OwnRelease(s, l, at, who);
      case GetTop(q) => OwnLoops(s, q, '\0');
      case GetWait(q) => OwnWaits(s, q, '\0');
      case PutTop(q, b) => OwnLoops(s, q, b);
      case PutWait(q, b) => OwnWaits(s, q, b);
      case _ =>
    }
  }

  /** No step changes another thread's context. */
  lemma OwnAction(s: State, a: Action)
    requires Inv(s) && Enabled(s, a)
    ensures OwnStep(s, Next(s, a))
  {
    hide Inv, Advance, TimerHandler, PutByte, ThreadStart;
    match a {
      case Continue => OwnContinue(s);
      case Timer => OwnTimer(s);
      case Key(q, b) => OwnBytes(s, q, b);
      case Spawn(t, prio) => OwnSpawn(s, t, prio);
      case _ =>
    }
  }

  /** The timer interrupts a thread only where it may be found parked. */
  lemma OwnTimer(s: State)
    requires Inv(s) && InterruptsOn(CtxOf(s, s.cur))
    ensures OwnStep(s, TimerHandler(s))
  {
    hide Inv, SchedInv, TimerHandler;
    InvFacts(s, KernelLock(0));
    TimerEffect(s);
  }

  lemma OwnSpawn(s: State, t: Tid, prio: int)
    requires Inv(s) && t !in s.pcbs
    ensures OwnStep(s, ThreadStart(s, t, prio))
  {
    hide Inv, SchedInv, ThreadStart;
    InvFacts(s, KernelLock(0));
    var s' := ThreadStart(s, t, prio);
    forall u ensures CtxOf(s', u) == CtxOf(s, u) { SpawnCtx(s, t, prio, u); }
    StartKeepsCur(s, t, prio);
  }

  lemma StepParks(s: State, a: Action)
    requires Inv(s) && Enabled(s, a) && ParkedInv(s)
    ensures ParkedInv(Next(s, a))
  {
    hide Inv, OwnStep, Next, Enabled;
    OwnAction(s, a);
    forall t | t != Next(s, a).cur ensures Parked(CtxOf(Next(s, a), t)) {
      StepParksOne(s, Next(s, a), t);
    }
  }

  lemma StepParksOne(s: State, s': State, t: Tid)
    requires OwnStep(s, s') && ParkedInv(s) && t != s'.cur
    ensures Parked(CtxOf(s', t))
  {
  }

  lemma StartKeepsCur(s: State, t: Tid, prio: int)
    ensures ThreadStart(s, t, prio).cur == s.cur
  {
  }

  lemma {:induction false} RunParks(s: State, run: seq<Action>, idle: Tid)
    requires Inv(s) && !s.halted && IdleInv(s, idle) && LegalRun(s, run, idle) && ParkedInv(s)
    ensures ParkedInv(Exec(s, run))
    decreases |run|
  {
    hide Inv, IdleInv, Next, Enabled, Disciplined, ParkedInv;
    if run != [] {
      StepKeeps(s, run[0], idle);
      StepParks(s, run[0]);
      RunParks(Next(s, run[0]), run[1..], idle);
    }
  }

  /** Theorem: in every reachable state every thread off the CPU is outside the modelled functions, was
      preempted in those of a kernel lock, waits for a lock, or is in a slot of a queue. */
  lemma ReachableParks(s: State)
    requires Reachable(s)
    ensures ParkedInv(s)
  {
    hide Inv;
    var s0: State, main: Tid, run: seq<Action> :| InitState(s0, main) && LegalRun(s0, run, main) && s == Exec(s0, run);
    InitInv(s0, main);
    RunParks(s0, run, main);
  }

  /** Then the owner of a queue's lock that does not run is at the point behind the wait in a slot. */
  lemma OwnerInSlot(s: State, q: QueueId) returns (o: Tid)
    requires Inv(s) && ParkedInv(s) && LockAt(s, QueueLock(q)).sema.value == 0 && !Owns(CtxOf(s, s.cur), QueueLock(q))
    ensures o != s.cur && SoleOwner(s, o, QueueLock(q)) && (CtxOf(s, o).pc == GetSlot(q) || AtPutSlot(CtxOf(s, o).pc, q))
    ensures CtxOf(s, o).pc == GetSlot(q) && o !in s.ready ==> QueueAt(s, q).consumer == Some(o)
    ensures AtPutSlot(CtxOf(s, o).pc, q) && o !in s.ready ==> QueueAt(s, q).producer == Some(o)
  {
    assert LockInv(s, QueueLock(q));
    o :| SoleOwner(s, o, QueueLock(q));
    assert StatusOk(s, o) && CtxOk(CtxOf(s, o)) && SlotsInv(s, q);
    hide Inv, LockInv, SchedInv;
    var pc := CtxOf(s, o).pc;
    assert Parked(CtxOf(s, o));
    assert HoldsQueue(pc, q);
  }
}
