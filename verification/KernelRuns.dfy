/**
 Safety over whole runs: the invariant holds in every reachable state, no ASSERT of the
 modelled functions fires, and what that means for locks, wake-ups, threads and queues.
 */
module KernelRuns {
  import opened Words
  import opened KernelState
  import opened KernelInv
  import opened KernelSteps
  import opened KernelSwitches

  // ---------- one step ----------

  /** If the running thread is about to wait, some other thread is ready. */
  lemma SomeoneIsReady(s: State, a: Action, idle: Tid)
    requires Inv(s) && IdleInv(s, idle) && Disciplined(s, a, idle) && Blocks(s, a)
    ensures s.ready != [] && s.cur != idle
  {
    assert StatusOk(s, idle);
  }

  lemma LockAcquireKeeps(s: State, idle: Tid)
    requires Inv(s) && !s.halted && IdleInv(s, idle) && CtxOf(s, s.cur).pc.Acquire? && Disciplined(s, Continue, idle)
    ensures var s' := Advance(s); Inv(s') && !s'.halted && IdleInv(s', idle)
  {
    hide Inv;
    var Acquire(l, at, who) := CtxOf(s, s.cur).pc;
    if at.Down? || at.InLoop? {
      if LockAt(s, l).sema.value == 0 {
        SomeoneIsReady(s, Continue, idle);
        SleepKeeps(s, l, at, who);
        hide SchedInv, SemaDown;
      } else {
        TakeKeeps(s, l, at, who);
        hide SemaDown;
      }
    } else if at.Entry? {
      EntryKeeps(s, l, who);
    } else {
      AcquireKeeps(s, l, at, who);
    }
  }

  lemma LockReleaseKeeps(s: State, idle: Tid)
    requires Inv(s) && !s.halted && IdleInv(s, idle) && CtxOf(s, s.cur).pc.Release?
    ensures var s' := Advance(s); Inv(s') && !s'.halted && IdleInv(s', idle)
  {
    hide Inv;
    var Release(l, at, who) := CtxOf(s, s.cur).pc;
    if at.Up? {
      UpKeeps(s, l, who);
      hide SemaUp;
    } else {
      ReleaseKeeps(s, l, at, who);
    }
  }

  lemma QueueFree(s: State, q: QueueId)
    requires Inv(s) && !HoldsQueue(CtxOf(s, s.cur).pc, q) && !CtxOf(s, s.cur).pc.Acquire?
    ensures !Owns(CtxOf(s, s.cur), QueueLock(q))
  {
    InvFacts(s, QueueLock(q));
  }

  /** Moving between points outside lock code, or into it from outside, as a thread that does not own q's lock. */
  lemma QueueMoves(s: State, q: QueueId, pc: Pc)
    requires Inv(s) && !HoldsQueue(CtxOf(s, s.cur).pc, q) && !CtxOf(s, s.cur).ifOn
    requires forall p :: HoldsQueue(pc, p) <==> HoldsQueue(CtxOf(s, s.cur).pc, p)
    requires !CtxOf(s, s.cur).pc.Acquire? && !CtxOf(s, s.cur).pc.Release?
    requires pc.Program? || pc.GetTop? || pc.PutTop? || (pc.Acquire? && pc.l == QueueLock(q) && pc.acq.Entry? && pc.who != ByProgram)
    ensures Inv(Goto(s, pc))
  {
    hide Inv;
    InvFacts(s, QueueLock(q));
    QueueFree(s, q);
    QueueDepth(CtxOf(s, s.cur));
    MovedCtxOk(CtxOf(s, s.cur), pc);
    hide CtxOk;
    StrangerMoves(s, QueueLock(q), pc);
  }

  lemma GetKeeps(s: State, q: QueueId, idle: Tid)
    requires Inv(s) && !s.halted && IdleInv(s, idle) && CtxOf(s, s.cur).pc == GetTop(q)
    ensures var s' := GetLoop(s, q); Inv(s') && !s'.halted && IdleInv(s', idle)
  {
    hide Inv;
    InvFacts(s, QueueLock(q));
    if IsEmpty(QueueAt(s, q).ring) {
      QueueMoves(s, q, Acquire(QueueLock(q), Entry, ByGet));
    } else {
      GetByteKeeps(s, q);
      hide GetByte;
      QueueMoves(GetByte(s, q), q, Program);
    }
  }

  lemma PutKeeps(s: State, q: QueueId, b: char, idle: Tid)
    requires Inv(s) && !s.halted && IdleInv(s, idle) && CtxOf(s, s.cur).pc == PutTop(q, b)
    ensures var s' := PutLoop(s, q, b); Inv(s') && !s'.halted && IdleInv(s', idle)
  {
    hide Inv;
    InvFacts(s, QueueLock(q));
    if IsFull(QueueAt(s, q).ring) {
      QueueMoves(s, q, Acquire(QueueLock(q), Entry, ByPut(b)));
    } else {
      PutByteKeeps(s, q, b);
      hide PutByte;
      QueueMoves(PutByte(s, q, b), q, Program);
    }
  }

  /** A woken waiter goes on to release the queue's lock, which it still owns. */
  lemma SlotMoves(s: State, q: QueueId, who: Caller)
    requires Inv(s) && who != ByProgram
    requires CtxOf(s, s.cur).pc == GetSlot(q) || (CtxOf(s, s.cur).pc.PutSlot? && CtxOf(s, s.cur).pc.q == q)
    ensures Inv(Goto(s, Release(QueueLock(q), CheckHolder, who)))
  {
    hide Inv;
    var l := QueueLock(q);
    InvFacts(s, l);
    assert Depth(CtxOf(s, s.cur), l) == 1;
    OwnerIsSole(s, s.cur, l);
    MovedCtxOk(CtxOf(s, s.cur), Release(l, CheckHolder, who));
    hide CtxOk;
    OwnerMoves(s, l, Release(l, CheckHolder, who));
  }

  lemma WaitPointKeeps(s: State, idle: Tid)
    requires Inv(s) && !s.halted && IdleInv(s, idle) && Disciplined(s, Continue, idle)
    requires CtxOf(s, s.cur).pc.GetWait? || CtxOf(s, s.cur).pc.PutWait?
    ensures var s' := Advance(s); Inv(s') && !s'.halted && IdleInv(s', idle)
  {
    hide Inv, ThreadBlock, SchedInv;
    var pc := CtxOf(s, s.cur).pc;
    SomeoneIsReady(s, Continue, idle);
    SlotsFree(s, pc.q);
    if pc.GetWait? {
      WaitKeeps(s, pc.q, QueueAt(s, pc.q).(consumer := Some(s.cur)), GetSlot(pc.q));
    } else {
      WaitKeeps(s, pc.q, QueueAt(s, pc.q).(producer := Some(s.cur)), PutSlot(pc.q, pc.byte));
    }
  }

  lemma ContinueKeeps(s: State, idle: Tid)
    requires Inv(s) && IdleInv(s, idle) && Enabled(s, Continue) && Disciplined(s, Continue, idle)
    ensures var s' := Advance(s); Inv(s') && !s'.halted && IdleInv(s', idle)
  {
    hide Inv;
    match CtxOf(s, s.cur).pc {
      case Acquire(l, at, who) => LockAcquireKeeps(s, idle);
      case Release(l, at, who) => LockReleaseKeeps(s, idle);
      case GetTop(q) => GetKeeps(s, q, idle);
      case PutTop(q, b) => PutKeeps(s, q, b, idle);
      case GetWait(q) => WaitPointKeeps(s, idle);
      case PutWait(q, b) => WaitPointKeeps(s, idle);
      case GetSlot(q) => SlotMoves(s, q, ByGet);
      case PutSlot(q, b) => SlotMoves(s, q, ByPut(b));
    }
  }

  lemma CallKeeps(s: State, l: LockId, pc: Pc)
    requires Inv(s) && CtxOf(s, s.cur).pc == Program && l.KernelLock?
    requires
      || (pc == Acquire(l, Entry, ByProgram) && Depth(CtxOf(s, s.cur), l) + 1 < U32)
      || (pc == Release(l, CheckHolder, ByProgram) && Depth(CtxOf(s, s.cur), l) >= 1)
    ensures Inv(Goto(s, pc))
  {
    hide Inv;
    var c := CtxOf(s, s.cur);
    InvFacts(s, l);
    MovedCtxOk(c, pc);
    hide CtxOk;
    if Owns(c, l) {
      OwnerIsSole(s, s.cur, l);
      OwnerMoves(s, l, pc);
    } else {
      StrangerMoves(s, l, pc);
    }
  }

  lemma SetIfKeeps(s: State, on: bool)
    requires Inv(s) && CtxOf(s, s.cur).pc == Program
    ensures Inv(WithCtx(s, CtxOf(s, s.cur).(ifOn := on)))
  {
    hide SchedInv, PlaceInv, CtxInv, LocksInv, WakeInv, RingsInv, CtxOk, LockInv;
    InvFacts(s, KernelLock(0));
    var c := CtxOf(s, s.cur);
    var s' := WithCtx(s, c.(ifOn := on));
    SetIfCtx(c, on);
    assert LocksInv(s') by { SetIfLocks(s, on); }
    LocalStepKeeps(s, s', KernelLock(0)) by { CtxKeys(s); }
  }

  lemma SetIfCtx(c: Ctx, on: bool)
    requires CtxOk(c) && c.pc == Program
    ensures CtxOk(c.(ifOn := on))
  {
    forall l ensures Depth(c.(ifOn := on), l) == Depth(c, l) {}
  }

  lemma SetIfLocks(s: State, on: bool)
    requires LocksInv(s) && CtxOf(s, s.cur).pc == Program
    ensures LocksInv(WithCtx(s, CtxOf(s, s.cur).(ifOn := on)))
  {
    hide LockInv;
    var s' := WithCtx(s, CtxOf(s, s.cur).(ifOn := on));
    forall l ensures LockInv(s', l) { SameLock(s, s', s.cur, l); }
  }

  lemma SamePlacesAll(s: State, s': State)
    requires PlaceInv(s) && s'.ctx == s.ctx && s'.locks == s.locks && s'.queues == s.queues
    requires forall t :: IsBlocked(s', t) <==> IsBlocked(s, t)
    ensures PlaceInv(s')
  {
    forall l ensures WaitersInv(s', l) { assert WaitersInv(s, l) && LockAt(s', l) == LockAt(s, l); }
    forall q ensures SlotsInv(s', q) { assert SlotsInv(s, q) && QueueAt(s', q) == QueueAt(s, q); }
    forall t ensures CtxOf(s', t) == CtxOf(s, t) {}
  }

  /** A step that moves threads on and off the CPU without blocking or waking any. */
  lemma PreemptionKeeps(s: State, s': State)
    requires Inv(s) && SchedInv(s') && s'.locks == s.locks && s'.queues == s.queues && s.pcbs.Keys <= s'.pcbs.Keys
    requires s'.ctx == s.ctx
    requires forall t :: IsBlocked(s', t) <==> IsBlocked(s, t)
    ensures Inv(s')
  {
    hide SchedInv, PlaceInv, CtxInv, LocksInv, WakeInv, RingsInv;
    SamePlacesAll(s, s');
    SameLocks(s, s');
    SameWakes(s, s');
    RingsKeep(s, s');
    SameCtxs(s, s');
  }

  lemma TimerKeeps(s: State)
    requires Inv(s)
    ensures Inv(TimerHandler(s)) && TimerHandler(s).halted == s.halted
    ensures forall t :: IsBlocked(TimerHandler(s), t) <==> IsBlocked(s, t)
  {
    hide Inv, SchedInv, TimerHandler;
    InvFacts(s, KernelLock(0));
    TimerEffect(s);
    PreemptionKeeps(s, TimerHandler(s));
  }

  /** A new thread joins the ready list; its context is the one an absent thread has. */
  lemma SpawnKeeps(s: State, t: Tid, prio: int)
    requires Inv(s) && !s.halted && t !in s.pcbs
    ensures var s' := ThreadStart(s, t, prio); Inv(s') && !s'.halted
    ensures forall u :: IsBlocked(ThreadStart(s, t, prio), u) <==> IsBlocked(s, u)
  {
    hide SchedInv, PlaceInv, CtxInv, LocksInv, WakeInv, RingsInv;
    var s' := ThreadStart(s, t, prio);
    SpawnSched(s, t, prio);
    var s1 := s'.(ctx := s.ctx);
    PreemptionKeeps(s, s1);
    forall u ensures CtxOf(s', u) == CtxOf(s1, u) { SpawnCtx(s, t, prio, u); }
    SameCtxView(s1, s');
  }

  lemma SpawnSched(s: State, t: Tid, prio: int)
    requires SchedInv(s) && t !in s.pcbs
    ensures t !in s.all && t !in s.ready
    ensures SchedInv(ThreadStart(s, t, prio)) && SchedInv(ThreadStart(s, t, prio).(ctx := s.ctx))
  {
    var s' := ThreadStart(s, t, prio);
    var s1 := s'.(ctx := s.ctx);
    assert t !in s.all && t !in s.ready;
    forall u | u in s'.pcbs ensures StatusOk(s', u) && StatusOk(s1, u) { if u != t { assert StatusOk(s, u); } }
  }

  lemma SpawnCtx(s: State, t: Tid, prio: int, u: Tid)
    requires SchedInv(s) && t !in s.pcbs
    ensures CtxOf(ThreadStart(s, t, prio), u) == CtxOf(s, u)
  {
  }

  /** Only the domain of the context map differs. */
  lemma SameCtxView(s: State, s': State)
    requires Inv(s) && SchedInv(s') && s' == s.(ctx := s'.ctx) && (forall u :: CtxOf(s', u) == CtxOf(s, u))
    ensures Inv(s')
  {
    InvFacts(s, KernelLock(0));
    hide PlaceInv, CtxInv, LocksInv, WakeInv, RingsInv, SchedInv;
    PlacesKeep(s, s');
    WakesKeep(s, s');
    RingsKeep(s, s');
    assert CtxInv(s') by { CtxViewOk(s, s'); }
    assert LocksInv(s') by { LockViewOk(s, s'); }
  }

  lemma CtxViewOk(s: State, s': State)
    requires CtxInv(s) && (forall u :: CtxOf(s', u) == CtxOf(s, u))
    ensures CtxInv(s')
  {
    hide CtxOk;
    forall u ensures CtxOk(CtxOf(s', u)) { assert CtxOf(s', u) == CtxOf(s, u); }
  }

  lemma LockViewOk(s: State, s': State)
    requires LocksInv(s) && s'.locks == s.locks && s'.pcbs == s.pcbs && (forall u :: CtxOf(s', u) == CtxOf(s, u))
    ensures LocksInv(s')
  {
    hide LockInv;
    forall l ensures LockInv(s', l) { SameLock(s, s', s.cur, l); }
  }

  /** Every legal step keeps the invariant, fires no ASSERT and leaves the idle thread runnable. */
  lemma StepKeeps(s: State, a: Action, idle: Tid)
    requires Inv(s) && IdleInv(s, idle) && Enabled(s, a) && Disciplined(s, a, idle)
    ensures var s' := Next(s, a); Inv(s') && !s'.halted && IdleInv(s', idle)
  {
    hide Inv;
    InvFacts(s, KernelLock(0));
    match a {
      case SetIf(on) => SetIfKeeps(s, on);
      case CallAcquire(l) => CallKeeps(s, l, Acquire(l, Entry, ByProgram));
      case CallRelease(l) => CallKeeps(s, l, Release(l, CheckHolder, ByProgram));
      case CallGet(q) => QueueMoves(s, q, GetTop(q));
      case CallPut(q, b) => QueueMoves(s, q, PutTop(q, b));
      case Spawn(t, prio) => SpawnKeeps(s, t, prio);
      case Continue => ContinueKeeps(s, idle); hide Advance;
      case Timer => TimerKeeps(s); TimerEffect(s); hide TimerHandler, SchedInv;
      case Key(q, b) =>
        if !IsFull(QueueAt(s, q).ring) { PutByteKeeps(s, q, b); hide PutByte, SchedInv; }
    }
  }

  // ---------- whole runs ----------

  lemma InitInv(s: State, main: Tid)
    requires InitState(s, main)
    ensures Inv(s) && IdleInv(s, main)
  {
    forall l ensures LockAt(s, l) == LockInit() {}
    forall q ensures QueueAt(s, q) == QueueInit() {}
    forall t ensures CtxOf(s, t) == Ctx(Program, false, map[]) {}
    forall l ensures LockInv(s, l) && WaitersInv(s, l) {}
    forall q ensures SlotsInv(s, q) {}
  }

  lemma {:induction false} RunKeeps(s: State, run: seq<Action>, idle: Tid)
    requires Inv(s) && !s.halted && IdleInv(s, idle) && LegalRun(s, run, idle)
    ensures var s' := Exec(s, run); Inv(s') && !s'.halted && IdleInv(s', idle)
    decreases |run|
  {
    hide Inv, IdleInv, Next, Enabled, Disciplined;
    if run != [] {
      StepKeeps(s, run[0], idle);
      RunKeeps(Next(s, run[0]), run[1..], idle);
    }
  }
}
