/**
 The ASSERTs and PANICs of the modelled functions, one by one: in any state whatever, reachable or not, a
 step stops the machine exactly where the source's check fails.  The checks that interrupts are off are
 made where the queue's functions are entered; schedule is called with interrupts off only.
 */
module KernelAsserts {
  import opened Words
  import opened KernelState
  import opened KernelInv
  import opened KernelSteps
  import opened KernelRuns
  import opened KernelTheorems

  /** schedule: a running thread must not be in the ready list, and somebody must be left to run. */
  predicate ScheduleFails(s: State) {
    if PcbOf(s, s.cur).status == Running then s.cur in s.ready else s.ready == []
  }

  /** thread_unblock: the thread must wait, and not be in the ready list. */
  predicate UnblockFails(s: State, t: Tid) {
    PcbOf(s, t).status in {Running, Ready, Died} || t in s.ready
  }

  /** sema_down: the caller must not be a waiter yet, somebody must run while it waits, and the value must
      have been one. */
  predicate DownFails(s: State, l: LockId) {
    var k := LockAt(s, l).sema;
    k.value > 1 || (k.value == 0 && (s.cur in k.waiters || s.ready == []))
  }

  predicate AcquireFails(s: State, l: LockId, at: AcqPoint) {
    match at
    case Down => DownFails(s, l)
    case InLoop => DownFails(s, l)
    case CheckZero => LockAt(s, l).repeat != 0
    case _ => false
  }

  predicate ReleaseFails(s: State, l: LockId, at: RelPoint) {
    var k := LockAt(s, l);
    match at
    case CheckHolder => k.holder != Some(s.cur)
    case CheckOne => k.repeat != 1
    case Up => k.sema.value != 0 || (k.sema.waiters != [] && UnblockFails(s, k.sema.waiters[0]))
    case _ => false
  }

  predicate WakeFails(s: State, slot: Option<Tid>) { slot.Some? && UnblockFails(s, slot.value) }

  predicate PointFails(s: State, pc: Pc) {
    match pc
    case Program => false
    case Acquire(l, at, _) => AcquireFails(s, l, at)
    case Release(l, at, _) => ReleaseFails(s, l, at)
    case GetTop(q) => !IsEmpty(QueueAt(s, q).ring) && WakeFails(s, QueueAt(s, q).producer)
    case PutTop(q, _) => !IsFull(QueueAt(s, q).ring) && WakeFails(s, QueueAt(s, q).consumer)
    case GetWait(q) => QueueAt(s, q).consumer != None || s.ready == []
    case PutWait(q, _) => QueueAt(s, q).producer != None || s.ready == []
    case GetSlot(_) => false
    case PutSlot(_, _) => false
  }

  /** The check that the step makes fails. */
  predicate Fails(s: State, a: Action) {
    match a
    case CallGet(_) => CtxOf(s, s.cur).ifOn
    case CallPut(_, _) => CtxOf(s, s.cur).ifOn
    case Spawn(t, _) => t in s.ready || t in s.all
    case Timer => PcbOf(s, s.cur).ticks == 0 && ScheduleFails(s)
    case Key(q, _) => !IsFull(QueueAt(s, q).ring) && WakeFails(s, QueueAt(s, q).consumer)
    case Continue => PointFails(s, CtxOf(s, s.cur).pc)
    case _ => false
  }

  lemma ScheduleStops(s: State)
    requires !s.halted
    ensures Schedule(s).halted <==> ScheduleFails(s)
  {
  }

  lemma BlockStops(s: State)
    requires !s.halted
    ensures ThreadBlock(s, Blocked).halted <==> s.ready == []
  {
    hide Schedule;
    ScheduleStops(WithPcb(s, s.cur, PcbOf(s, s.cur).(status := Blocked)));
  }

  lemma UnblockStops(s: State, t: Tid)
    requires !s.halted
    ensures ThreadUnblock(s, t).halted <==> UnblockFails(s, t)
  {
    match PcbOf(s, t).status {
      case Running =>
      case Ready =>
      case Died =>
      case _ =>
    }
  }

  lemma DownStops(s: State, l: LockId, who: Caller)
    requires !s.halted
    ensures SemaDown(s, l, who).halted <==> DownFails(s, l)
  {
    hide ThreadBlock;
    var k := LockAt(s, l);
    BlockStops(Goto(WithLock(s, l, WithSema(k, 0, k.sema.waiters + [s.cur])), Acquire(l, InLoop, who)));
  }

  lemma UpStops(s: State, l: LockId, who: Caller)
    requires !s.halted
    ensures SemaUp(s, l, who).halted <==> ReleaseFails(s, l, Up)
  {
    hide ThreadUnblock, UnblockFails, AfterRelease, Depth;
    var k := LockAt(s, l);
    if k.sema.waiters != [] {
      var s1 := WithLock(s, l, WithSema(k, k.sema.value, k.sema.waiters[1..]));
      UnblockStops(s1, k.sema.waiters[0]);
      UnblockSees(s, s1, k.sema.waiters[0]);
      UnblockLocks(s1, k.sema.waiters[0]);
    }
  }

  lemma UnblockSees(s: State, s1: State, t: Tid)
    requires s1.pcbs == s.pcbs && s1.ready == s.ready
    ensures UnblockFails(s1, t) == UnblockFails(s, t)
  {
  }

  lemma UnblockLocks(s: State, t: Tid)
    ensures ThreadUnblock(s, t).locks == s.locks
  {
  }

  lemma BytesStop(s: State, q: QueueId, b: char)
    requires !s.halted
    ensures PutByte(s, q, b).halted <==> WakeFails(s, QueueAt(s, q).consumer)
    ensures GetByte(s, q).halted <==> WakeFails(s, QueueAt(s, q).producer)
  {
    hide ThreadUnblock, UnblockFails, RingPut, RingGet;
    var k := QueueAt(s, q);
    var s1, s2 := WithQueue(s, q, k.(ring := RingPut(k.ring, b))), WithQueue(s, q, k.(ring := RingGet(k.ring)));
    if k.consumer.Some? {
      UnblockStops(s1, k.consumer.value);
      UnblockSees(s, s1, k.consumer.value);
    }
    if k.producer.Some? {
      UnblockStops(s2, k.producer.value);
      UnblockSees(s, s2, k.producer.value);
    }
  }

  lemma WaitsStop(s: State, q: QueueId, b: char)
    requires !s.halted
    ensures WaitConsumer(s, q).halted <==> QueueAt(s, q).consumer != None || s.ready == []
    ensures WaitProducer(s, q, b).halted <==> QueueAt(s, q).producer != None || s.ready == []
  {
    hide ThreadBlock;
    var k := QueueAt(s, q);
    BlockStops(Goto(WithQueue(s, q, k.(consumer := Some(s.cur))), GetSlot(q)));
    BlockStops(Goto(WithQueue(s, q, k.(producer := Some(s.cur))), PutSlot(q, b)));
  }

  lemma AcquireStops(s: State, l: LockId, at: AcqPoint, who: Caller)
    requires !s.halted
    ensures LockAcquire(s, l, at, who).halted <==> AcquireFails(s, l, at)
  {
    hide SemaDown, DownFails;
    DownStops(s, l, who);
  }

  lemma ReleaseStops(s: State, l: LockId, at: RelPoint, who: Caller)
    requires !s.halted
    ensures LockRelease(s, l, at, who).halted <==> ReleaseFails(s, l, at)
  {
    hide SemaUp;
    if at.Up? { UpStops(s, l, who); }
    hide UnblockFails;
  }

  lemma PointStops(s: State)
    requires !s.halted
    ensures Advance(s).halted <==> PointFails(s, CtxOf(s, s.cur).pc)
  {
    hide LockAcquire, LockRelease, AcquireFails, ReleaseFails, GetByte, PutByte, WaitConsumer, WaitProducer, WakeFails;
    match CtxOf(s, s.cur).pc {
      case Acquire(l, at, who) => AcquireStops(s, l, at, who);
      case Release(l, at, who) => ReleaseStops(s, l, at, who);
      case GetTop(q) => BytesStop(s, q, '\0');
      case PutTop(q, b) => BytesStop(s, q, b);
      case GetWait(q) => WaitsStop(s, q, '\0');
      case PutWait(q, b) => WaitsStop(s, q, b);
      case _ =>
    }
  }

  lemma TimerStops(s: State)
    requires !s.halted
    ensures TimerHandler(s).halted <==> PcbOf(s, s.cur).ticks == 0 && ScheduleFails(s)
  {
    hide Schedule;
    ScheduleStops(CountTick(s));
  }

  /** Theorem: any step in any state stops the machine exactly if the check of the source at that point
      fails. */
  lemma HaltsIff(s: State, a: Action)
    requires !s.halted
    ensures Next(s, a).halted <==> Fails(s, a)
  {
    hide Advance, TimerHandler, PutByte, PointFails, ScheduleFails, WakeFails;
    match a {
      case Continue => PointStops(s);
      case Timer => TimerStops(s);
      case Key(q, b) => BytesStop(s, q, b);
      case _ =>
    }
  }

  /** Theorem: in runs of well-bracketed callers none of the checks ever fails, and neither does the one that
      interrupts are off wherever the queue's functions look at the buffer. */
  lemma ChecksHold(s0: State, main: Tid, run: seq<Action>, a: Action)
    requires InitState(s0, main) && LegalRun(s0, run + [a], main)
    ensures !Fails(Exec(s0, run), a)
    ensures var c := CtxOf(Exec(s0, run), Exec(s0, run).cur); c.pc.GetTop? || c.pc.PutTop? ==> !c.ifOn
  {
    hide Fails, Inv, SchedInv, LockInv;
    RunThen(s0, run, a, main);
    NoAssertFires(s0, main, run);
    NoAssertFires(s0, main, run + [a]);
    HaltsIff(Exec(s0, run), a);
    InitInv(s0, main);
    RunKeeps(s0, run, main);
    InvFacts(Exec(s0, run), KernelLock(0));
  }

  lemma {:induction false} RunThen(s: State, run: seq<Action>, a: Action, idle: Tid)
    requires LegalRun(s, run + [a], idle)
    ensures LegalRun(s, run, idle) && Exec(s, run + [a]) == Next(Exec(s, run), a)
    decreases |run|
  {
    hide Next, Enabled, Disciplined;
    if run == [] {
      assert [a] == run + [a] && [a][1..] == [];
      assert Exec(s, [a]) == Exec(Next(s, a), []) == Next(s, a);
    } else {
      assert (run + [a])[1..] == run[1..] + [a] && (run + [a])[0] == run[0];
      RunThen(Next(s, run[0]), run[1..], a, idle);
    }
  }
}
