/**
 Every step keeps the invariant.
 */
module KernelSteps {
  import opened Words
  import opened KernelState
  import opened KernelInv

  // ---------- scheduling moves ----------

  /** What a step may do to the scheduler's data, seen from the rest of the state. */
  predicate SameRest(s: State, s': State) {
    s'.ctx == s.ctx && s'.locks == s.locks && s'.queues == s.queues && s'.pcbs.Keys == s.pcbs.Keys && s'.all == s.all
  }

  lemma NoDupTail<T>(xs: seq<T>)
    requires NoDup(xs) && xs != []
    ensures NoDup(xs[1..]) && xs[0] !in xs[1..]
    ensures forall x :: x in xs <==> x == xs[0] || x in xs[1..]
  {
    assert xs == [xs[0]] + xs[1..];
  }

  lemma DispatchEffect(s: State)
    requires s.ready != [] && NoDup(s.ready) && s.cur !in s.ready
    requires s.cur in s.pcbs && s.ctx.Keys <= s.pcbs.Keys && NoDup(s.all) && (forall t :: t in s.all <==> t in s.pcbs)
    requires forall t | t in s.ready :: t in s.pcbs
    requires forall t | t in s.pcbs ::
      && (s.pcbs[t].status == Ready || s.pcbs[t].status == Blocked)
      && (s.pcbs[t].status == Ready <==> t in s.ready)
    ensures var s' := Dispatch(s); SchedInv(s') && SameRest(s, s') && s'.halted == s.halted
    ensures Dispatch(s).cur == s.ready[0]
    ensures forall t :: IsBlocked(Dispatch(s), t) <==> IsBlocked(s, t)
  {
    NoDupTail(s.ready);
    var s' := Dispatch(s);
    forall t | t in s'.pcbs ensures StatusOk(s', t) {}
  }

  lemma BlockEffect(s: State)
    requires SchedInv(s) && s.ready != []
    ensures var s' := ThreadBlock(s, Blocked); SchedInv(s') && SameRest(s, s') && s'.halted == s.halted
    ensures ThreadBlock(s, Blocked).cur == s.ready[0]
    ensures forall t :: IsBlocked(ThreadBlock(s, Blocked), t) <==> IsBlocked(s, t) || t == s.cur
  {
    var s1 := WithPcb(s, s.cur, PcbOf(s, s.cur).(status := Blocked));
    forall t | t in s1.pcbs ensures (s1.pcbs[t].status == Ready || s1.pcbs[t].status == Blocked)
                                 && (s1.pcbs[t].status == Ready <==> t in s1.ready)
    {
      assert StatusOk(s, t);
    }
    assert s.cur !in s.ready by { assert StatusOk(s, s.cur); }
    DispatchEffect(s1);
  }

  lemma RequeueDispatchEffect(s: State)
    requires SchedInv(s)
    ensures var s' := Schedule(s); SchedInv(s') && SameRest(s, s') && s'.halted == s.halted
    ensures Schedule(s).cur == (s.ready + [s.cur])[0]
    ensures forall t :: IsBlocked(Schedule(s), t) <==> IsBlocked(s, t)
  {
    assert StatusOk(s, s.cur);
    var s1 := Requeue(s);
    var s2 := Dispatch(s1);
    assert NoDup(s1.ready) by {
      forall i, j | 0 <= i < j < |s1.ready| ensures s1.ready[i] != s1.ready[j] {}
    }
    forall t ensures t in s1.ready <==> t in s.ready || t == s.cur {}
    forall t | t in s1.pcbs ensures (s1.pcbs[t].status == Ready || s1.pcbs[t].status == Blocked)
                                 && (s1.pcbs[t].status == Ready <==> t in s1.ready)
    {
      assert StatusOk(s, t);
    }
    NoDupTail(s1.ready);
    forall t | t in s2.pcbs ensures StatusOk(s2, t) {}
  }

  lemma UnblockEffect(s: State, t: Tid)
    requires SchedInv(s) && IsBlocked(s, t)
    ensures var s' := ThreadUnblock(s, t); SchedInv(s') && SameRest(s, s') && s'.halted == s.halted && s'.cur == s.cur
    ensures forall u :: IsBlocked(ThreadUnblock(s, t), u) <==> IsBlocked(s, u) && u != t
  {
    assert StatusOk(s, t);
    var s' := ThreadUnblock(s, t);
    assert NoDup(s'.ready);
    forall u | u in s'.pcbs ensures StatusOk(s', u) {
      assert StatusOk(s, u);
      assert u in s'.ready <==> u == t || u in s.ready;
    }
  }

  /** A change to one thread's tick counters only. */
  lemma CountersEffect(s: State, s': State, p: Pcb)
    requires SchedInv(s) && s' == WithPcb(s, s.cur, p).(ticks := s'.ticks) && p.status == PcbOf(s, s.cur).status
    ensures SchedInv(s') && SameRest(s, s')
    ensures forall t :: IsBlocked(s', t) <==> IsBlocked(s, t)
  {
    forall t | t in s'.pcbs ensures StatusOk(s', t) { assert StatusOk(s, t); }
  }

  lemma TimerEffect(s: State)
    requires SchedInv(s)
    ensures var s' := TimerHandler(s); SchedInv(s') && SameRest(s, s') && s'.halted == s.halted
    ensures forall t :: IsBlocked(TimerHandler(s), t) <==> IsBlocked(s, t)
  {
    hide SchedInv, Schedule;
    var s1 := CountTick(s);
    CountersEffect(s, s1, PcbOf(s1, s.cur));
    if PcbOf(s1, s1.cur).ticks == 0 {
      RequeueDispatchEffect(s1);
    } else {
      CountersEffect(s1, TimerHandler(s), PcbOf(TimerHandler(s), s.cur));
    }
  }

  // ---------- reading the invariant ----------

  lemma InvFacts(s: State, l: LockId)
    requires Inv(s)
    ensures SchedInv(s) && LockInv(s, l) && CtxOk(CtxOf(s, s.cur)) && s.cur in s.pcbs && !IsBlocked(s, s.cur)
  {
    assert StatusOk(s, s.cur);
  }

  lemma OwnerIsSole(s: State, t: Tid, l: LockId)
    requires LockInv(s, l) && Owns(CtxOf(s, t), l)
    ensures SoleOwner(s, t, l) && LockAt(s, l).sema.value == 0
  {
    assert !NoOwner(s, l);
    var u :| SoleOwner(s, u, l);
  }

  lemma HolderOwns(s: State, t: Tid, l: LockId)
    requires LockInv(s, l) && LockAt(s, l).holder == Some(t)
    ensures Owns(CtxOf(s, t), l)
  {
    var u :| SoleOwner(s, u, l);
  }

  // ---------- steps that leave the scheduler alone ----------

  predicate InLoopCode(pc: Pc) { pc.Acquire? && pc.acq.InLoop? }

  predicate Elsewhere(pc: Pc, l: LockId) {
    !(pc.Acquire? && pc.l == l) && !(pc.Release? && pc.l == l)
  }

  /** For lock l the two contexts of one thread look the same. */
  predicate SameFor(c: Ctx, c': Ctx, l: LockId) {
    Depth(c, l) == Depth(c', l) && Elsewhere(c.pc, l) && Elsewhere(c'.pc, l)
  }

  /** Only thread t's context and lock l may differ. */
  ghost predicate TouchesOnly(s: State, s': State, t: Tid, l: LockId) {
    && s'.pcbs.Keys == s.pcbs.Keys
    && s'.ctx.Keys <= s'.pcbs.Keys
    && (forall u | u != t :: CtxOf(s', u) == CtxOf(s, u))
    && (forall m | m != l :: LockAt(s', m) == LockAt(s, m))
    && (forall m | m != l :: SameFor(CtxOf(s, t), CtxOf(s', t), m))
  }

  lemma SameLock(s: State, s': State, t: Tid, m: LockId)
    requires LockInv(s, m) && LockAt(s', m).(sema := LockAt(s, m).sema) == LockAt(s, m)
    requires LockAt(s', m).sema.value == LockAt(s, m).sema.value
    requires s'.pcbs.Keys == s.pcbs.Keys && (forall u | u != t :: CtxOf(s', u) == CtxOf(s, u))
    requires Owns(CtxOf(s', t), m) == Owns(CtxOf(s, t), m)
    requires Owns(CtxOf(s, t), m) ==> (OwnerView(LockAt(s, m), t, CtxOf(s, t), m) ==> OwnerView(LockAt(s, m), t, CtxOf(s', t), m))
    ensures LockInv(s', m)
  {
    forall u ensures Owns(CtxOf(s', u), m) == Owns(CtxOf(s, u), m) {}
    if LockAt(s, m).sema.value == 0 {
      var u :| SoleOwner(s, u, m);
      assert SoleOwner(s', u, m);
    }
  }

  lemma OtherLocks(s: State, s': State, t: Tid, l: LockId)
    requires LocksInv(s) && TouchesOnly(s, s', t, l)
    ensures forall m | m != l :: LockInv(s', m)
  {
    hide LockInv;
    forall m | m != l ensures LockInv(s', m) {
      assert SameFor(CtxOf(s, t), CtxOf(s', t), m);
      SameLock(s, s', t, m);
    }
  }

  /** The owner of l stays its owner. */
  lemma OwnerKeeps(s: State, s': State, t: Tid, l: LockId)
    requires LocksInv(s) && TouchesOnly(s, s', t, l)
    requires LockAt(s', l).sema.value == LockAt(s, l).sema.value
    requires Owns(CtxOf(s, t), l) && Owns(CtxOf(s', t), l)
    requires OwnerView(LockAt(s', l), t, CtxOf(s', t), l)
    ensures LocksInv(s')
  {
    OtherLocks(s, s', t, l);
    OwnerIsSole(s, t, l);
    assert SoleOwner(s', t, l);
    assert LockInv(s', l);
  }

  /** A thread that does not own l moves without touching it. */
  lemma StrangerKeeps(s: State, s': State, t: Tid, l: LockId)
    requires LocksInv(s) && TouchesOnly(s, s', t, l)
    requires LockAt(s', l).(sema := LockAt(s, l).sema) == LockAt(s, l)
    requires LockAt(s', l).sema.value == LockAt(s, l).sema.value
    requires !Owns(CtxOf(s, t), l) && !Owns(CtxOf(s', t), l)
    ensures LocksInv(s')
  {
    OtherLocks(s, s', t, l);
    SameLock(s, s', t, l);
  }

  /** Nobody's wait state changes. */
  ghost predicate SamePlaces(s: State, s': State) {
    && (forall t :: IsBlocked(s', t) <==> IsBlocked(s, t))
    && (forall l :: LockAt(s', l).sema.waiters == LockAt(s, l).sema.waiters)
    && (forall q :: QueueAt(s', q).producer == QueueAt(s, q).producer && QueueAt(s', q).consumer == QueueAt(s, q).consumer)
  }

  lemma PlacesKeep(s: State, s': State)
    requires PlaceInv(s) && SamePlaces(s, s') && !IsBlocked(s, s.cur)
    requires forall t | t != s.cur :: CtxOf(s', t) == CtxOf(s, t)
    ensures PlaceInv(s')
  {
    forall l ensures WaitersInv(s', l) { assert WaitersInv(s, l); }
    forall q ensures SlotsInv(s', q) { assert SlotsInv(s, q); }
  }

  lemma WakesKeep(s: State, s': State)
    requires WakeInv(s) && SamePlaces(s, s') && s'.pcbs.Keys == s.pcbs.Keys
    requires forall t | t != s.cur :: CtxOf(s', t) == CtxOf(s, t)
    requires forall l :: LockAt(s', l).sema.value == 1 ==> LockAt(s, l).sema.value == 1
    requires forall l :: AtLoop(CtxOf(s, s.cur).pc, l) ==> AtLoop(CtxOf(s', s.cur).pc, l) || LockAt(s', l).sema.value != 1
    ensures WakeInv(s')
  {
    forall l | LockAt(s', l).sema.value == 1 && LockAt(s', l).sema.waiters != []
      ensures exists t :: Woken(s', t, l)
    {
      var t :| Woken(s, t, l);
      assert Woken(s', t, l);
    }
  }

  lemma SchedKeeps(s: State, s': State)
    requires SchedInv(s) && s'.cur == s.cur && s'.ready == s.ready && s'.pcbs == s.pcbs && s'.all == s.all
    requires s'.ctx.Keys <= s'.pcbs.Keys
    ensures SchedInv(s')
  {
    forall t | t in s'.pcbs ensures StatusOk(s', t) { assert StatusOk(s, t); }
  }

  lemma CtxsKeep(s: State, s': State, t: Tid)
    requires CtxInv(s) && CtxOk(CtxOf(s', t)) && (forall u | u != t :: CtxOf(s', u) == CtxOf(s, u))
    ensures CtxInv(s')
  {
    hide CtxOk;
    forall u ensures CtxOk(CtxOf(s', u)) { if u != t { assert CtxOf(s', u) == CtxOf(s, u); } }
  }

  lemma RingsKeep(s: State, s': State)
    requires RingsInv(s) && (forall q :: QueueAt(s', q).ring == QueueAt(s, q).ring)
    ensures RingsInv(s')
  {
    hide RingOk;
  }

  /** The scheduler's data and the queues are as before, and so is every semaphore. */
  ghost predicate LocalStep(s: State, s': State, l: LockId) {
    && TouchesOnly(s, s', s.cur, l)
    && s'.cur == s.cur && s'.ready == s.ready && s'.pcbs == s.pcbs && s'.all == s.all
    && s'.queues == s.queues && s'.halted == s.halted
    && LockAt(s', l).sema == LockAt(s, l).sema
    && !InLoopCode(CtxOf(s, s.cur).pc)
    && CtxOk(CtxOf(s', s.cur))
  }

  lemma LocalStepKeeps(s: State, s': State, l: LockId)
    requires Inv(s) && LocalStep(s, s', l) && LocksInv(s')
    ensures Inv(s')
  {
    hide PlaceInv, LocksInv, CtxInv, WakeInv, RingsInv, SchedInv, CtxOk;
    InvFacts(s, l);
    forall m ensures LockAt(s', m).sema == LockAt(s, m).sema {}
    forall q ensures QueueAt(s', q) == QueueAt(s, q) {}
    PlacesKeep(s, s');
    WakesKeep(s, s');
    SchedKeeps(s, s');
    RingsKeep(s, s');
    CtxsKeep(s, s', s.cur);
  }

  // ---------- the statements of lock_acquire and lock_release ----------

  /** The new context after the thread recorded depth d for l and moved to pc. */
  lemma NewCtxOk(c: Ctx, pc: Pc, l: LockId, d: nat)
    requires CtxOk(c) && d < U32 && !Elsewhere(c.pc, l)
    requires PointOk(Ctx(pc, c.ifOn, c.depth[l := d]))
    requires l.QueueLock? ==> d == if HoldsQueue(pc, l.q) then 1 else 0
    requires forall q | QueueLock(q) != l :: !HoldsQueue(pc, q)
    ensures CtxOk(Ctx(pc, c.ifOn, c.depth[l := d]))
  {
    var c' := Ctx(pc, c.ifOn, c.depth[l := d]);
    forall m | m != l ensures Depth(c', m) == Depth(c, m) {}
  }

  /** Same, where the depth is not recorded anew. */
  lemma MovedCtxOk(c: Ctx, pc: Pc)
    requires CtxOk(c) && PointOk(c.(pc := pc))
    requires forall q :: HoldsQueue(pc, q) <==> HoldsQueue(c.pc, q)
    ensures CtxOk(c.(pc := pc))
  {
    forall m ensures Depth(c.(pc := pc), m) == Depth(c, m) {}
  }

  lemma CtxDomain(s: State)
    requires Inv(s)
    ensures s.ctx.Keys <= s.pcbs.Keys && s.cur in s.pcbs
  {
  }

  lemma OwnerStep(s: State, s': State, l: LockId)
    requires Inv(s) && LocalStep(s, s', l) && Owns(CtxOf(s, s.cur), l) && Owns(CtxOf(s', s.cur), l)
    requires OwnerView(LockAt(s', l), s.cur, CtxOf(s', s.cur), l)
    ensures Inv(s')
  {
    hide PlaceInv, CtxInv, WakeInv, RingsInv, CtxOk, LocksInv, SchedInv, OwnerView, Owns;
    OwnerKeeps(s, s', s.cur, l);
    LocalStepKeeps(s, s', l);
  }

  /** The thread that owns l moves inside lock code. */
  lemma OwnerMoves(s: State, l: LockId, pc: Pc)
    requires Inv(s) && !InLoopCode(CtxOf(s, s.cur).pc)
    requires forall m | m != l :: Elsewhere(CtxOf(s, s.cur).pc, m) && Elsewhere(pc, m)
    requires var c' := CtxOf(s, s.cur).(pc := pc); CtxOk(c') && Owns(c', l) && OwnerView(LockAt(s, l), s.cur, c', l)
    requires Owns(CtxOf(s, s.cur), l)
    ensures Inv(Goto(s, pc))
  {
    hide Inv, CtxOk, SchedInv, OwnerView, Owns;
    CtxDomain(s);
    OwnerStep(s, Goto(s, pc), l);
  }

  /** The thread that owns l rewrites the lock's holder and count and moves inside lock code. */
  lemma OwnerWrites(s: State, l: LockId, k: Lock, pc: Pc)
    requires Inv(s) && k.sema == LockAt(s, l).sema
    requires !Elsewhere(CtxOf(s, s.cur).pc, l) && !Elsewhere(pc, l) && !InLoopCode(CtxOf(s, s.cur).pc)
    requires var c' := CtxOf(s, s.cur).(pc := pc); CtxOk(c') && Owns(c', l) && OwnerView(k, s.cur, c', l)
    requires Owns(CtxOf(s, s.cur), l)
    ensures Inv(Goto(WithLock(s, l, k), pc))
  {
    hide Inv, CtxOk, SchedInv, OwnerView, Owns;
    CtxDomain(s);
    OwnerStep(s, Goto(WithLock(s, l, k), pc), l);
  }

  /** The thread that owns l stores a new count, records its depth and leaves the lock code. */
  lemma OwnerLeaves(s: State, l: LockId, k: Lock, pc: Pc, d: nat)
    requires Inv(s) && k.sema == LockAt(s, l).sema && d >= 1
    requires !Elsewhere(CtxOf(s, s.cur).pc, l) && !InLoopCode(CtxOf(s, s.cur).pc) && !pc.Acquire? && !pc.Release?
    requires CtxOk(Ctx(pc, CtxOf(s, s.cur).ifOn, CtxOf(s, s.cur).depth[l := d]))
    requires Owns(CtxOf(s, s.cur), l) && k.holder == Some(s.cur) && k.repeat == d
    ensures Inv(GotoDepth(WithLock(s, l, k), pc, l, d))
  {
    hide Inv, CtxOk, SchedInv;
    CtxDomain(s);
    OwnerStep(s, GotoDepth(WithLock(s, l, k), pc, l, d), l);
  }

  lemma QueueDepth(c: Ctx)
    requires CtxOk(c)
    ensures forall q :: Depth(c, QueueLock(q)) <= 1
  {
  }

  lemma EntryKeeps(s: State, l: LockId, who: Caller)
    requires Inv(s) && CtxOf(s, s.cur).pc == Acquire(l, Entry, who)
    ensures Inv(LockAcquire(s, l, Entry, who))
  {
    hide Inv;
    var c, k := CtxOf(s, s.cur), LockAt(s, l);
    InvFacts(s, l);
    if k.holder == Some(s.cur) {
      HolderOwns(s, s.cur, l);
      OwnerIsSole(s, s.cur, l);
      MovedCtxOk(c, Acquire(l, IncLoad, who));
      OwnerMoves(s, l, Acquire(l, IncLoad, who));
    } else {
      if Owns(c, l) { OwnerIsSole(s, s.cur, l); }
      MovedCtxOk(c, Acquire(l, Down, who));
      StrangerMoves(s, l, Acquire(l, Down, who));
    }
  }

  /** A thread that does not own l moves to a point where it still does not. */
  lemma StrangerMoves(s: State, l: LockId, pc: Pc)
    requires Inv(s) && CtxOk(CtxOf(s, s.cur).(pc := pc)) && !InLoopCode(CtxOf(s, s.cur).pc)
    requires forall m | m != l :: Elsewhere(CtxOf(s, s.cur).pc, m) && Elsewhere(pc, m)
    requires !Owns(CtxOf(s, s.cur), l) && !Owns(CtxOf(s, s.cur).(pc := pc), l)
    ensures Inv(Goto(s, pc))
  {
    hide PlaceInv, CtxInv, WakeInv, RingsInv, CtxOk, LockInv;
    assert LocalStep(s, Goto(s, pc), l);
    StrangerKeeps(s, Goto(s, pc), s.cur, l);
    LocalStepKeeps(s, Goto(s, pc), l);
  }

  /** The statements between sema_down and the end of lock_acquire. */
  lemma AcquireKeeps(s: State, l: LockId, at: AcqPoint, who: Caller)
    requires Inv(s) && !s.halted && CtxOf(s, s.cur).pc == Acquire(l, at, who)
    requires !at.Entry? && !at.Down? && !at.InLoop?
    ensures Inv(LockAcquire(s, l, at, who)) && !LockAcquire(s, l, at, who).halted
  {
    hide Inv, LockInv, SchedInv, SemaDown, AfterAcquire;
    var c, k := CtxOf(s, s.cur), LockAt(s, l);
    InvFacts(s, l);
    OwnerIsSole(s, s.cur, l);
    var d := Depth(c, l);
    match at {
      case SetHolder =>
        MovedCtxOk(c, Acquire(l, CheckZero, who));
        OwnerWrites(s, l, k.(holder := Some(s.cur)), Acquire(l, CheckZero, who));
      case CheckZero =>
        MovedCtxOk(c, Acquire(l, SetOne, who));
        OwnerMoves(s, l, Acquire(l, SetOne, who));
      case IncLoad =>
        MovedCtxOk(c, Acquire(l, IncStore(k.repeat), who));
        OwnerMoves(s, l, Acquire(l, IncStore(k.repeat), who));
      case SetOne => AcquireLeaves(s, l, at, who, 1);
      case IncStore(tmp) => AcquireLeaves(s, l, at, who, tmp + 1);
    }
  }

  lemma AcquireLeaves(s: State, l: LockId, at: AcqPoint, who: Caller, d: nat)
    requires Inv(s) && CtxOf(s, s.cur).pc == Acquire(l, at, who) && Owns(CtxOf(s, s.cur), l)
    requires d == Depth(CtxOf(s, s.cur), l) + 1 && (at.SetOne? || at.IncStore?)
    ensures Inv(GotoDepth(WithLock(s, l, LockAt(s, l).(repeat := d)), AfterAcquire(l, who), l, d))
  {
    hide Inv, LockInv;
    var c, k := CtxOf(s, s.cur), LockAt(s, l);
    InvFacts(s, l);
    OwnerIsSole(s, s.cur, l);
    QueueDepth(c);
    NewCtxOk(c, AfterAcquire(l, who), l, d);
    hide CtxOk;
    OwnerLeaves(s, l, k.(repeat := d), AfterAcquire(l, who), d);
  }

  /** The statements of lock_release before sema_up. */
  lemma ReleaseKeeps(s: State, l: LockId, at: RelPoint, who: Caller)
    requires Inv(s) && !s.halted && CtxOf(s, s.cur).pc == Release(l, at, who) && !at.Up?
    ensures Inv(LockRelease(s, l, at, who)) && !LockRelease(s, l, at, who).halted
  {
    hide Inv, LockInv, SchedInv, CtxOk, SemaUp;
    var c, k := CtxOf(s, s.cur), LockAt(s, l);
    InvFacts(s, l);
    ReleasePoint(s, l, at, who);
    OwnerIsSole(s, s.cur, l);
    match at {
      case CheckHolder => ReleaseMoves(s, l, at, who, Test, k);
      case Test => ReleaseMoves(s, l, at, who, if k.repeat > 1 then DecLoad else CheckOne, k);
      case DecLoad => ReleaseMoves(s, l, at, who, DecStore(k.repeat), k);
      case CheckOne => ReleaseMoves(s, l, at, who, ClearHolder, k);
      case ClearHolder => ReleaseMoves(s, l, at, who, ClearRepeat, k.(holder := None));
      case ClearRepeat => ReleaseMoves(s, l, at, who, Up, k.(repeat := 0));
      case DecStore(tmp) =>
        QueueDepth(c);
        NewCtxOk(c, AfterRelease(l, who), l, tmp - 1);
        OwnerLeaves(s, l, k.(repeat := (tmp + U32 - 1) % U32), AfterRelease(l, who), tmp - 1);
    }
  }

  lemma ReleasePoint(s: State, l: LockId, at: RelPoint, who: Caller)
    requires CtxOk(CtxOf(s, s.cur)) && CtxOf(s, s.cur).pc == Release(l, at, who)
    ensures var c := CtxOf(s, s.cur); PointOk(c) && Owns(c, l) && RelDepthOk(at, Depth(c, l)) && Depth(c, l) < U32
  {
  }

  lemma ReleaseMoves(s: State, l: LockId, at: RelPoint, who: Caller, at': RelPoint, k: Lock)
    requires Inv(s) && CtxOf(s, s.cur).pc == Release(l, at, who) && Owns(CtxOf(s, s.cur), l)
    requires k.sema == LockAt(s, l).sema && RelDepthOk(at', Depth(CtxOf(s, s.cur), l))
    requires OwnerView(k, s.cur, CtxOf(s, s.cur).(pc := Release(l, at', who)), l)
    ensures Inv(Goto(WithLock(s, l, k), Release(l, at', who)))
    ensures k == LockAt(s, l) ==> Inv(Goto(s, Release(l, at', who)))
  {
    hide Inv, LockInv, OwnerView, CallerOk, RelDepthOk;
    InvFacts(s, l);
    assert Depth(CtxOf(s, s.cur).(pc := Release(l, at', who)), l) == Depth(CtxOf(s, s.cur), l);
    MovedCtxOk(CtxOf(s, s.cur), Release(l, at', who));
    hide CtxOk;
    OwnerWrites(s, l, k, Release(l, at', who));
    if k == LockAt(s, l) { OwnerMoves(s, l, Release(l, at', who)); }
  }
}
