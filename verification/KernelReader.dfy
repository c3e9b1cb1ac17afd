/**
 The keyboard queue as the kernel uses it: one thread reads, and the interrupt handler puts a
 byte only when the buffer is not full.  Then the reader is never left waiting beside a
 non-empty buffer, and the queue's lock is never contended.
 */
module KernelReader {
  import opened Words
  import opened KernelState
  import opened KernelInv
  import opened KernelSteps
  import opened KernelSwitches
  import opened KernelRuns

  // ---------- what a step can touch ----------

  /** The program point lies outside the functions of queue q. */
  predicate AwayFrom(pc: Pc, q: QueueId) {
    match pc
    case Program => true
    case Acquire(l, _, _) => l != QueueLock(q)
    case Release(l, _, _) => l != QueueLock(q)
    case GetTop(p) => p != q
    case GetWait(p) => p != q
    case GetSlot(p) => p != q
    case PutTop(p, _) => p != q
    case PutWait(p, _) => p != q
    case PutSlot(p, _) => p != q
  }

  predicate CallsQueue(a: Action, q: QueueId) { (a.CallGet? || a.CallPut?) && a.q == q }

  ghost predicate SchedOnly(s: State, s': State) {
    s'.ctx == s.ctx && s'.locks == s.locks && s'.queues == s.queues
  }

  lemma UnblockTouches(s: State, t: Tid)
    ensures SchedOnly(s, ThreadUnblock(s, t)) && ThreadUnblock(s, t).cur == s.cur
  {
  }

  lemma BlockTouches(s: State, st: Status)
    ensures SchedOnly(s, ThreadBlock(s, st))
  {
  }

  /** Everything about queue q is as it was. */
  ghost predicate QueueSame(s: State, s': State, q: QueueId) {
    QueueAt(s', q) == QueueAt(s, q) && LockAt(s', QueueLock(q)) == LockAt(s, QueueLock(q))
  }

  /** Queue q and the other threads are as before, and the thread that ran is outside q. */
  ghost predicate QuietAt(s: State, s': State, q: QueueId) {
    && QueueSame(s, s', q) && (forall t | t != s.cur :: CtxOf(s', t) == CtxOf(s, t))
    && AwayFrom(CtxOf(s', s.cur).pc, q)
  }

  lemma MoveQuiet(s: State, l: LockId, k: Lock, c: Ctx, q: QueueId)
    requires l != QueueLock(q) && AwayFrom(c.pc, q)
    ensures QuietAt(s, WithCtx(WithLock(s, l, k), c), q) && QuietAt(s, WithCtx(s, c), q)
  {
  }

  lemma QuietThen(s: State, s1: State, s': State, q: QueueId)
    requires QuietAt(s, s1, q) && SchedOnly(s1, s')
    ensures QuietAt(s, s', q)
  {
  }

  lemma AcquireAway(s: State, l: LockId, at: AcqPoint, who: Caller, q: QueueId)
    requires l != QueueLock(q) && CtxOf(s, s.cur).pc == Acquire(l, at, who)
    ensures QuietAt(s, LockAcquire(s, l, at, who), q)
  {
    hide QuietAt;
    var c, k := CtxOf(s, s.cur), LockAt(s, l);
    match at {
      case Entry => MoveQuiet(s, l, k, c.(pc := Acquire(l, if k.holder != Some(s.cur) then Down else IncLoad, who)), q);
      case Down => DownAway(s, l, who, q);
      case InLoop => DownAway(s, l, who, q);
      case SetHolder => MoveQuiet(s, l, k.(holder := Some(s.cur)), c.(pc := Acquire(l, CheckZero, who)), q);
      case CheckZero => if k.repeat == 0 { MoveQuiet(s, l, k, c.(pc := Acquire(l, SetOne, who)), q); } else { HaltQuiet(s, q); }
      case SetOne => MoveQuiet(s, l, k.(repeat := 1), c.(pc := AfterAcquire(l, who), depth := c.depth[l := Depth(c, l) + 1]), q);
      case IncLoad => MoveQuiet(s, l, k, c.(pc := Acquire(l, IncStore(k.repeat), who)), q);
      case IncStore(tmp) =>
        MoveQuiet(s, l, k.(repeat := (tmp + 1) % U32), c.(pc := AfterAcquire(l, who), depth := c.depth[l := Depth(c, l) + 1]), q);
    }
  }

  lemma HaltQuiet(s: State, q: QueueId)
    requires AwayFrom(CtxOf(s, s.cur).pc, q)
    ensures QuietAt(s, s, q) && QuietAt(s, Halt(s), q)
  {
  }

  lemma DownAway(s: State, l: LockId, who: Caller, q: QueueId)
    requires l != QueueLock(q) && AwayFrom(CtxOf(s, s.cur).pc, q)
    ensures QuietAt(s, SemaDown(s, l, who), q)
  {
    hide QuietAt;
    var c, k := CtxOf(s, s.cur), LockAt(s, l);
    HaltQuiet(s, q);
    var s1 := Goto(WithLock(s, l, WithSema(k, 0, k.sema.waiters + [s.cur])), Acquire(l, InLoop, who));
    MoveQuiet(s, l, WithSema(k, 0, k.sema.waiters + [s.cur]), c.(pc := Acquire(l, InLoop, who)), q);
    BlockTouches(s1, Blocked);
    QuietThen(s, s1, ThreadBlock(s1, Blocked), q);
    MoveQuiet(s, l, WithSema(k, if k.sema.value == 0 then 0 else k.sema.value - 1, k.sema.waiters), c.(pc := Acquire(l, SetHolder, who)), q);
    hide ThreadBlock;
  }

  lemma ReleaseAway(s: State, l: LockId, at: RelPoint, who: Caller, q: QueueId)
    requires l != QueueLock(q) && CtxOf(s, s.cur).pc == Release(l, at, who)
    ensures QuietAt(s, LockRelease(s, l, at, who), q)
  {
    hide QuietAt;
    HaltQuiet(s, q);
    var c, k := CtxOf(s, s.cur), LockAt(s, l);
    match at {
      case CheckHolder => MoveQuiet(s, l, k, c.(pc := Release(l, Test, who)), q);
      case Test => MoveQuiet(s, l, k, c.(pc := Release(l, if k.repeat > 1 then DecLoad else CheckOne, who)), q);
      case DecLoad => MoveQuiet(s, l, k, c.(pc := Release(l, DecStore(k.repeat), who)), q);
      case DecStore(tmp) =>
        var d := Depth(c, l);
        MoveQuiet(s, l, k.(repeat := (tmp + U32 - 1) % U32),
                  c.(pc := AfterRelease(l, who), depth := c.depth[l := if d == 0 then 0 else d - 1]), q);
      case CheckOne => MoveQuiet(s, l, k, c.(pc := Release(l, ClearHolder, who)), q);
      case ClearHolder => MoveQuiet(s, l, k.(holder := None), c.(pc := Release(l, ClearRepeat, who)), q);
      case ClearRepeat => MoveQuiet(s, l, k.(repeat := 0), c.(pc := Release(l, Up, who)), q);
      case Up => UpAway(s, l, who, q);
    }
  }

  lemma QuietTwice(s: State, s1: State, s': State, q: QueueId)
    requires QuietAt(s, s1, q) && s1.cur == s.cur && QuietAt(s1, s', q)
    ensures QuietAt(s, s', q)
  {
  }

  lemma UpAway(s: State, l: LockId, who: Caller, q: QueueId)
    requires l != QueueLock(q) && AwayFrom(CtxOf(s, s.cur).pc, q)
    ensures QuietAt(s, SemaUp(s, l, who), q)
  {
    hide QuietAt, SemaWake;
    HaltQuiet(s, q);
    WakeAway(s, l, q);
    var s1 := SemaWake(s, l);
    HaltQuiet(s1, q);
    QuietTwice(s, s1, Halt(s1), q);
    var c, k := CtxOf(s1, s1.cur), LockAt(s1, l);
    var d, value := Depth(c, l), (k.sema.value + 1) % U8;
    var c' := Ctx(AfterRelease(l, who), c.ifOn, c.depth[l := if d == 0 then 0 else d - 1]);
    var s2 := WithCtx(WithLock(s1, l, WithSema(k, value, k.sema.waiters)), c');
    MoveQuiet(s1, l, WithSema(k, value, k.sema.waiters), c', q);
    QuietTwice(s, s1, s2, q);
    assert SemaUp(s, l, who) == (if LockAt(s, l).sema.value != 0 then Halt(s)
                                 else if s1.halted then s1 else if value != 1 then Halt(s1) else s2);
  }

  lemma WakeAway(s: State, l: LockId, q: QueueId)
    requires l != QueueLock(q) && AwayFrom(CtxOf(s, s.cur).pc, q)
    ensures QuietAt(s, SemaWake(s, l), q) && SemaWake(s, l).cur == s.cur && SemaWake(s, l).ctx == s.ctx
    ensures AwayFrom(CtxOf(SemaWake(s, l), s.cur).pc, q)
  {
    var k := LockAt(s, l);
    if k.sema.waiters != [] {
      UnblockTouches(WithLock(s, l, WithSema(k, k.sema.value, k.sema.waiters[1..])), k.sema.waiters[0]);
      hide ThreadUnblock;
    }
  }

  lemma PutTouches(s: State, p: QueueId, b: char)
    ensures var s' := PutByte(s, p, b);
      && s'.ctx == s.ctx && s'.locks == s.locks && s'.cur == s.cur
      && (forall q | q != p :: QueueAt(s', q) == QueueAt(s, q))
  {
    var k := QueueAt(s, p);
    if k.consumer.Some? {
      UnblockTouches(WithQueue(s, p, k.(ring := RingPut(k.ring, b))), k.consumer.value);
      hide ThreadUnblock;
    }
  }

  lemma GetTouches(s: State, p: QueueId)
    ensures var s' := GetByte(s, p);
      && s'.ctx == s.ctx && s'.locks == s.locks && s'.cur == s.cur
      && (forall q | q != p :: QueueAt(s', q) == QueueAt(s, q))
      && QueueAt(s', p).consumer == QueueAt(s, p).consumer
  {
    var k := QueueAt(s, p);
    if k.producer.Some? {
      UnblockTouches(WithQueue(s, p, k.(ring := RingGet(k.ring))), k.producer.value);
      hide ThreadUnblock;
    }
  }

  /** A byte put into or taken from another queue. */
  lemma ByteAway(s: State, s1: State, p: QueueId, q: QueueId)
    requires p != q && AwayFrom(CtxOf(s, s.cur).pc, q)
    requires s1.ctx == s.ctx && s1.locks == s.locks && s1.cur == s.cur
    requires forall m | m != p :: QueueAt(s1, m) == QueueAt(s, m)
    ensures QuietAt(s, s1, q) && AwayFrom(CtxOf(s1, s1.cur).pc, q)
  {
  }

  lemma SpawnAway(s: State, t: Tid, prio: int, q: QueueId)
    requires SchedInv(s) && t !in s.pcbs && AwayFrom(CtxOf(s, s.cur).pc, q)
    ensures QuietAt(s, ThreadStart(s, t, prio), q)
  {
    var s' := ThreadStart(s, t, prio);
    forall u ensures CtxOf(s', u) == CtxOf(s, u) { SpawnCtx(s, t, prio, u); }
    hide SchedInv;
  }

  /** A thread outside the functions of q does not touch q, and stays outside unless it calls them. */
  lemma StepAway(s: State, a: Action, q: QueueId)
    requires SchedInv(s) && Enabled(s, a) && AwayFrom(CtxOf(s, s.cur).pc, q) && !CallsQueue(a, q) && !(a.Key? && a.q == q)
    ensures QuietAt(s, Next(s, a), q)
  {
    hide QuietAt, SchedInv, TimerHandler, PutByte, Advance, ThreadStart;
    HaltQuiet(s, q);
    var c := CtxOf(s, s.cur);
    match a {
      case Continue => ContinueAway(s, q);
      case Timer => TimerEffect(s); QuietThen(s, s, TimerHandler(s), q);
      case Key(p, b) => PutTouches(s, p, b); ByteAway(s, PutByte(s, p, b), p, q);
      case Spawn(t, prio) => SpawnAway(s, t, prio, q);
      case SetIf(on) => MoveQuiet(s, KernelLock(0), LockInit(), c.(ifOn := on), q);
      case CallAcquire(l) => MoveQuiet(s, l, LockInit(), c.(pc := Acquire(l, Entry, ByProgram)), q);
      case CallRelease(l) => MoveQuiet(s, l, LockInit(), c.(pc := Release(l, CheckHolder, ByProgram)), q);
      case CallGet(p) => MoveQuiet(s, QueueLock(p), LockInit(), c.(pc := GetTop(p)), q);
      case CallPut(p, b) => MoveQuiet(s, QueueLock(p), LockInit(), c.(pc := PutTop(p, b)), q);
    }
  }

  lemma QueueStepAway(s: State, p: QueueId, q: QueueId)
    requires p != q
    requires CtxOf(s, s.cur).pc == GetTop(p) || (CtxOf(s, s.cur).pc.PutTop? && CtxOf(s, s.cur).pc.q == p)
    ensures QuietAt(s, Advance(s), q)
  {
    hide QuietAt, GetByte, PutByte;
    var c := CtxOf(s, s.cur);
    var who := if c.pc.GetTop? then ByGet else ByPut(c.pc.byte);
    MoveQuiet(s, QueueLock(p), LockInit(), c.(pc := Acquire(QueueLock(p), Entry, who)), q);
    var s1 := if c.pc.GetTop? then GetByte(s, p) else PutByte(s, p, c.pc.byte);
    GetTouches(s, p);
    if c.pc.PutTop? { PutTouches(s, p, c.pc.byte); }
    ByteAway(s, s1, p, q);
    MoveQuiet(s1, QueueLock(p), LockInit(), CtxOf(s1, s1.cur).(pc := Program), q);
    QuietTwice(s, s1, Goto(s1, Program), q);
  }

  lemma WaitAway(s: State, p: QueueId, k: Queue, pc: Pc, q: QueueId)
    requires p != q && AwayFrom(pc, q)
    ensures QuietAt(s, ThreadBlock(Goto(WithQueue(s, p, k), pc), Blocked), q)
  {
    BlockTouches(Goto(WithQueue(s, p, k), pc), Blocked);
    hide ThreadBlock;
  }

  lemma ContinueAway(s: State, q: QueueId)
    requires AwayFrom(CtxOf(s, s.cur).pc, q)
    ensures QuietAt(s, Advance(s), q)
  {
    hide QuietAt, LockAcquire, LockRelease, GetLoop, PutLoop, ThreadBlock;
    HaltQuiet(s, q);
    match CtxOf(s, s.cur).pc {
      case Program =>
      case Acquire(l, at, who) => AcquireAway(s, l, at, who, q);
      case Release(l, at, who) => ReleaseAway(s, l, at, who, q);
      case GetTop(p) => QueueStepAway(s, p, q);
      case PutTop(p, b) => QueueStepAway(s, p, q);
      case GetWait(p) => WaitAway(s, p, QueueAt(s, p).(consumer := Some(s.cur)), GetSlot(p), q);
      case PutWait(p, b) => WaitAway(s, p, QueueAt(s, p).(producer := Some(s.cur)), PutSlot(p, b), q);
      case GetSlot(p) => MoveQuiet(s, QueueLock(p), LockInit(), CtxOf(s, s.cur).(pc := Release(QueueLock(p), CheckHolder, ByGet)), q);
      case PutSlot(p, b) => MoveQuiet(s, QueueLock(p), LockInit(), CtxOf(s, s.cur).(pc := Release(QueueLock(p), CheckHolder, ByPut(b))), q);
    }
  }

  // ---------- the reader ----------

  /** From the test for emptiness up to ioq_wait the reader runs without a break. */
  predicate Committed(pc: Pc, q: QueueId) { (pc.Acquire? && pc.l == QueueLock(q)) || pc == GetWait(q) }

  predicate ReaderPoint(pc: Pc, q: QueueId) {
    || AwayFrom(pc, q)
    || pc == GetTop(q) || pc == GetSlot(q) || pc == GetWait(q)
    || (pc.Release? && pc.who == ByGet)
    || (pc.Acquire? && pc.who == ByGet && !pc.acq.InLoop? && !pc.acq.IncLoad? && !pc.acq.IncStore?)
  }

  ghost predicate ReaderInv(s: State, q: QueueId, r: Tid) {
    && (forall t | t != r :: AwayFrom(CtxOf(s, t).pc, q))
    && ReaderPoint(CtxOf(s, r).pc, q)
    && (Committed(CtxOf(s, r).pc, q) ==> s.cur == r && IsEmpty(QueueAt(s, q).ring))
    && LockAt(s, QueueLock(q)).sema.waiters == []
    && (QueueAt(s, q).consumer != None ==> IsEmpty(QueueAt(s, q).ring))
  }

  /** Only r reads the queue, and threads do not put into it: the keyboard does. */
  predicate OneReader(s: State, a: Action, q: QueueId, r: Tid) {
    && (a.CallGet? && a.q == q ==> s.cur == r)
    && (a.CallPut? ==> a.q != q)
  }

  predicate ReaderRun(s: State, run: seq<Action>, q: QueueId, r: Tid)
    decreases |run|
  {
    run == [] || (OneReader(s, run[0], q, r) && ReaderRun(Next(s, run[0]), run[1..], q, r))
  }

  lemma OthersDoNotOwn(s: State, q: QueueId, r: Tid, t: Tid)
    requires Inv(s) && ReaderInv(s, q, r) && t != r
    ensures !Owns(CtxOf(s, t), QueueLock(q))
  {
    assert CtxOk(CtxOf(s, t));
    hide Inv;
    assert !HoldsQueue(CtxOf(s, t).pc, q);
    assert Depth(CtxOf(s, t), QueueLock(q)) == 0;
  }

  /** When the reader asks for the queue's lock, nobody has it. */
  lemma ReaderFindsItFree(s: State, q: QueueId, r: Tid)
    requires Inv(s) && ReaderInv(s, q, r) && s.cur == r
    requires CtxOf(s, r).pc.Acquire? && CtxOf(s, r).pc.l == QueueLock(q) && (CtxOf(s, r).pc.acq.Entry? || CtxOf(s, r).pc.acq.Down?)
    ensures LockAt(s, QueueLock(q)).sema.value == 1 && LockAt(s, QueueLock(q)).holder == None
  {
    hide Inv;
    InvFacts(s, QueueLock(q));
    hide SchedInv;
    assert Depth(CtxOf(s, r), QueueLock(q)) == 0;
    if LockAt(s, QueueLock(q)).sema.value == 0 {
      var t :| SoleOwner(s, t, QueueLock(q));
      if t != r { OthersDoNotOwn(s, q, r, t); }
      assert false;
    }
  }

  lemma NoReaderInSlot(s: State, q: QueueId, r: Tid)
    requires Inv(s) && ReaderInv(s, q, r) && s.cur == r
    ensures QueueAt(s, q).consumer == None
  {
    InvFacts(s, QueueLock(q));
    assert SlotsInv(s, q);
    hide Inv;
    var k := QueueAt(s, q);
    assert forall t | t != r :: CtxOf(s, t).pc != GetSlot(q);
    if k.consumer.Some? { assert false; }
  }

  lemma ReaderAcquires(s: State, q: QueueId, r: Tid, at: AcqPoint)
    requires Inv(s) && ReaderInv(s, q, r) && s.cur == r && CtxOf(s, r).pc == Acquire(QueueLock(q), at, ByGet)
    ensures ReaderInv(LockAcquire(s, QueueLock(q), at, ByGet), q, r)
  {
    hide Inv;
    var l := QueueLock(q);
    if at.Entry? || at.Down? { ReaderFindsItFree(s, q, r); }
    var s' := LockAcquire(s, l, at, ByGet);
    assert s'.cur == r && QueueAt(s', q) == QueueAt(s, q) && LockAt(s', l).sema.waiters == [];
    assert ReaderPoint(CtxOf(s', r).pc, q);
    forall t | t != r ensures CtxOf(s', t) == CtxOf(s, t) {}
  }

  lemma ReaderWaits(s: State, q: QueueId, r: Tid)
    requires ReaderInv(s, q, r) && s.cur == r && CtxOf(s, r).pc == GetWait(q)
    ensures ReaderInv(WaitConsumer(s, q), q, r)
  {
    var s1 := Goto(WithQueue(s, q, QueueAt(s, q).(consumer := Some(s.cur))), GetSlot(q));
    BlockTouches(s1, Blocked);
    hide ThreadBlock;
    var s' := WaitConsumer(s, q);
    assert QueueAt(s', q).ring == QueueAt(s, q).ring && LockAt(s', QueueLock(q)) == LockAt(s, QueueLock(q));
    forall t | t != r ensures CtxOf(s', t) == CtxOf(s, t) {}
    assert CtxOf(s', r).pc == GetSlot(q) || (s'.cur == s.cur && CtxOf(s', r) == CtxOf(s, r));
  }

  lemma ReaderWoken(s: State, q: QueueId, r: Tid)
    requires ReaderInv(s, q, r) && s.cur == r && CtxOf(s, r).pc == GetSlot(q)
    ensures ReaderInv(Goto(s, Release(QueueLock(q), CheckHolder, ByGet)), q, r)
  {
    var s' := Goto(s, Release(QueueLock(q), CheckHolder, ByGet));
    forall t | t != r ensures CtxOf(s', t) == CtxOf(s, t) {}
    assert QueueSame(s, s', q);
  }

  lemma ReaderReleases(s: State, q: QueueId, r: Tid, at: RelPoint)
    requires ReaderInv(s, q, r) && s.cur == r && CtxOf(s, r).pc == Release(QueueLock(q), at, ByGet)
    ensures ReaderInv(LockRelease(s, QueueLock(q), at, ByGet), q, r)
  {
    hide LockRelease;
    var l := QueueLock(q);
    var s' := LockRelease(s, l, at, ByGet);
    ReleaseShape(s, l, at, ByGet);
    forall t | t != r ensures CtxOf(s', t) == CtxOf(s, t) {}
  }

  /** Only lock l and the running thread's context changed, and it is still inside lock_release or
      just behind it. */
  ghost predicate ReleaseOnly(s: State, s': State, l: LockId, who: Caller) {
    && s'.cur == s.cur && s'.queues == s.queues && LockAt(s', l).sema.waiters == []
    && (forall t | t != s.cur :: CtxOf(s', t) == CtxOf(s, t))
    && var pc := CtxOf(s', s.cur).pc; pc == AfterRelease(l, who) || (pc.Release? && pc.l == l && pc.who == who)
  }

  lemma MoveOnly(s: State, l: LockId, k: Lock, c: Ctx, who: Caller)
    requires k.sema.waiters == [] && LockAt(s, l).sema.waiters == []
    requires c.pc == AfterRelease(l, who) || (c.pc.Release? && c.pc.l == l && c.pc.who == who)
    ensures ReleaseOnly(s, WithCtx(WithLock(s, l, k), c), l, who) && ReleaseOnly(s, WithCtx(s, c), l, who)
  {
  }

  lemma HaltOnly(s: State, l: LockId, who: Caller, at: RelPoint)
    requires LockAt(s, l).sema.waiters == [] && CtxOf(s, s.cur).pc == Release(l, at, who)
    ensures ReleaseOnly(s, Halt(s), l, who)
  {
  }

  /** A step of lock_release with nobody to wake. */
  lemma ReleaseShape(s: State, l: LockId, at: RelPoint, who: Caller)
    requires LockAt(s, l).sema.waiters == [] && CtxOf(s, s.cur).pc == Release(l, at, who)
    ensures ReleaseOnly(s, LockRelease(s, l, at, who), l, who)
  {
    hide ReleaseOnly, ThreadUnblock, AfterRelease, Depth;
    var k, c := LockAt(s, l), CtxOf(s, s.cur);
    var d := Depth(c, l);
    var c1 := c.(pc := AfterRelease(l, who), depth := c.depth[l := if d == 0 then 0 else d - 1]);
    HaltOnly(s, l, who, at);
    match at {
      case CheckHolder => MoveOnly(s, l, k, c.(pc := Release(l, Test, who)), who);
      case Test => MoveOnly(s, l, k, c.(pc := Release(l, if k.repeat > 1 then DecLoad else CheckOne, who)), who);
      case DecLoad => MoveOnly(s, l, k, c.(pc := Release(l, DecStore(k.repeat), who)), who);
      case DecStore(tmp) => MoveOnly(s, l, k.(repeat := (tmp + U32 - 1) % U32), c1, who);
      case CheckOne => MoveOnly(s, l, k, c.(pc := Release(l, ClearHolder, who)), who);
      case ClearHolder => MoveOnly(s, l, k.(holder := None), c.(pc := Release(l, ClearRepeat, who)), who);
      case ClearRepeat => MoveOnly(s, l, k.(repeat := 0), c.(pc := Release(l, Up, who)), who);
      case Up => MoveOnly(s, l, WithSema(k, (k.sema.value + 1) % U8, []), c1, who);
    }
  }

  lemma ReaderGets(s: State, q: QueueId, r: Tid)
    requires ReaderInv(s, q, r) && s.cur == r && CtxOf(s, r).pc == GetTop(q) && QueueAt(s, q).consumer == None
    ensures ReaderInv(GetLoop(s, q), q, r)
  {
    var s' := GetLoop(s, q);
    if IsEmpty(QueueAt(s, q).ring) {
      assert s'.cur == r && QueueSame(s, s', q) && CtxOf(s', r).pc == Acquire(QueueLock(q), Entry, ByGet);
    } else {
      GetTouches(s, q);
      hide GetByte;
      assert QueueAt(s', q).consumer == None && LockAt(s', QueueLock(q)) == LockAt(s, QueueLock(q));
      assert CtxOf(s', r).pc == Program || CtxOf(s', r) == CtxOf(s, r);
    }
    forall t | t != r ensures CtxOf(s', t) == CtxOf(s, t) {}
  }

  /** The reader's own steps inside the queue functions. */
  lemma ReaderContinues(s: State, q: QueueId, r: Tid)
    requires Inv(s) && !s.halted && ReaderInv(s, q, r) && s.cur == r && !AwayFrom(CtxOf(s, r).pc, q)
    ensures ReaderInv(Advance(s), q, r)
  {
    hide Inv;
    NoReaderInSlot(s, q, r);
    InvFacts(s, QueueLock(q));
    hide SchedInv;
    var pc := CtxOf(s, r).pc;
    var l := QueueLock(q);
    match pc {
      case Acquire(m, at, who) => ReaderAcquires(s, q, r, at);
      case Release(m, at, who) => ReaderReleases(s, q, r, at);
      case GetTop(p) => ReaderGets(s, q, r);
      case GetSlot(p) => ReaderWoken(s, q, r);
      case GetWait(p) => ReaderWaits(s, q, r);
    }
  }

  lemma KeyStep(s: State, q: QueueId, b: char, r: Tid)
    requires Inv(s) && Enabled(s, Key(q, b)) && ReaderInv(s, q, r)
    ensures ReaderInv(Next(s, Key(q, b)), q, r)
  {
    hide Inv;
    InvFacts(s, QueueLock(q));
    assert !Committed(CtxOf(s, r).pc, q);
    if !IsFull(QueueAt(s, q).ring) {
      PutByteKeeps(s, q, b);
      PutTouches(s, q, b);
      hide PutByte, SchedInv;
      var s' := PutByte(s, q, b);
      forall t ensures CtxOf(s', t) == CtxOf(s, t) {}
      assert LockAt(s', QueueLock(q)) == LockAt(s, QueueLock(q));
    }
  }

  lemma ReaderStep(s: State, a: Action, q: QueueId, r: Tid)
    requires Inv(s) && Enabled(s, a) && ReaderInv(s, q, r) && OneReader(s, a, q, r)
    ensures ReaderInv(Next(s, a), q, r)
  {
    hide Inv, SchedInv, Advance, PutByte, TimerHandler, ThreadStart;
    InvFacts(s, QueueLock(q));
    var c := CtxOf(s, s.cur);
    if a.Key? && a.q == q {
      KeyStep(s, q, a.byte, r);
    } else if a.CallGet? && a.q == q {
      var s' := Next(s, a);
      assert s'.cur == r && QueueSame(s, s', q);
      forall t | t != r ensures CtxOf(s', t) == CtxOf(s, t) {}
      assert CtxOf(s', r).pc == GetTop(q) || CtxOf(s', r) == CtxOf(s, r);
    } else if AwayFrom(c.pc, q) {
      StepAway(s, a, q);
    } else if a.Continue? {
      ReaderContinues(s, q, r);
    } else {
      assert false;
    }
  }

  /** Theorem: with one reader the queue's lock is never contended, and a reader waits in the
      slot only while the buffer is empty. */
  lemma {:induction false} NoStrandedReader(s: State, run: seq<Action>, idle: Tid, q: QueueId, r: Tid)
    requires Inv(s) && !s.halted && IdleInv(s, idle) && LegalRun(s, run, idle) && ReaderRun(s, run, q, r)
    requires ReaderInv(s, q, r)
    ensures var s' := Exec(s, run);
      && (QueueAt(s', q).consumer != None ==> IsEmpty(QueueAt(s', q).ring))
      && LockAt(s', QueueLock(q)).sema.waiters == []
      && ReaderInv(s', q, r)
    decreases |run|
  {
    hide Inv, IdleInv, Next, Enabled, Disciplined, OneReader;
    if run != [] {
      StepKeeps(s, run[0], idle);
      ReaderStep(s, run[0], q, r);
      NoStrandedReader(Next(s, run[0]), run[1..], idle, q, r);
    }
  }

  /** The same from boot. */
  lemma NoStrandedReaderFromBoot(s0: State, main: Tid, run: seq<Action>, q: QueueId, r: Tid)
    requires InitState(s0, main) && LegalRun(s0, run, main) && ReaderRun(s0, run, q, r)
    ensures var s := Exec(s0, run);
      && (QueueAt(s, q).consumer != None ==> IsEmpty(QueueAt(s, q).ring))
      && LockAt(s, QueueLock(q)).sema.waiters == []
  {
    InitInv(s0, main);
    hide Inv;
    forall t ensures CtxOf(s0, t).pc == Program {}
    NoStrandedReader(s0, run, main, q, r);
  }
}
