/**
 What a call of each kernel function means for the lists, the locks and the queues, said without its
 statements: from a state that satisfies the invariant, who runs next, who waits where, what the
 invariant still says, and exactly when an ASSERT stops the machine.
 */
module KernelMeaning {
  import opened Words
  import opened KernelState
  import opened KernelInv
  import opened KernelSteps
  import opened KernelSwitches
  import opened KernelRuns

  // ---------- thread.c and timer.c ----------

  /** The running thread joins the ready list at its end, and the thread at its front leaves it and runs. */
  predicate Rotates(s: State, s': State) { [s'.cur] + s'.ready == s.ready + [s.cur] }

  /** Only the threads in `woken` stop being blocked, only those in `asleep` start to be. */
  ghost predicate BlockedBut(s: State, s': State, woken: set<Tid>, asleep: set<Tid>) {
    forall t :: IsBlocked(s', t) <==> (IsBlocked(s, t) && t !in woken) || t in asleep
  }

  /** Priorities stay, and so do the slices and counters of all threads but those in `but`. */
  ghost predicate SameSlices(s: State, s': State, but: set<Tid>) {
    && (forall t :: PcbOf(s', t).priority == PcbOf(s, t).priority)
    && (forall t | t !in but :: PcbOf(s', t).ticks == PcbOf(s, t).ticks && PcbOf(s', t).elapsed == PcbOf(s, t).elapsed)
  }

  /** The two threads change places, and the one that leaves the CPU has its full slice again. */
  ghost predicate ScheduleMeans(s: State, s': State) {
    SchedInv(s) ==>
      && SchedInv(s') && SameRest(s, s') && s'.halted == s.halted && s'.ticks == s.ticks
      && Rotates(s, s') && BlockedBut(s, s', {}, {})
      && SameSlices(s, s', {s.cur}) && PcbOf(s', s.cur).elapsed == PcbOf(s, s.cur).elapsed
      && PcbOf(s', s.cur).ticks == PcbOf(s', s.cur).priority
  }

  lemma ScheduleIs(s: State)
    ensures ScheduleMeans(s, Schedule(s))
  {
    if SchedInv(s) {
      RequeueDispatchEffect(s);
      assert StatusOk(s, s.cur);
    }
  }

  /** The running thread sleeps with the given status and the first ready thread runs; the machine stops
      if there is none, and on a status that is not one of waiting. */
  ghost predicate BlockMeans(s: State, s': State, stat: Status) {
    && (stat in {Running, Ready, Died} ==> s'.halted)
    && (SchedInv(s) && stat in {Waiting, Blocked, Hanging} ==>
          if s.ready == [] then s'.halted
          else
            && SameRest(s, s') && s'.halted == s.halted && [s'.cur] + s'.ready == s.ready
            && PcbOf(s', s.cur) == PcbOf(s, s.cur).(status := stat) && PcbOf(s', s'.cur) == PcbOf(s, s'.cur).(status := Running)
            && (forall t | t != s.cur && t != s'.cur :: PcbOf(s', t) == PcbOf(s, t))
            && (stat == Blocked ==> SchedInv(s') && BlockedBut(s, s', {}, {s.cur})))
  }

  lemma CurNotReady(s: State)
    requires SchedInv(s)
    ensures s.cur in s.pcbs && s.cur !in s.ready && forall t | t in s.ready :: t in s.pcbs
  {
    assert StatusOk(s, s.cur);
  }

  lemma BlockShape(s: State, stat: Status)
    requires s.ready != [] && stat in {Waiting, Blocked, Hanging} && s.cur in s.pcbs && s.cur !in s.ready && forall t | t in s.ready :: t in s.pcbs
    ensures var s' := ThreadBlock(s, stat);
      && SameRest(s, s') && s'.halted == s.halted && [s'.cur] + s'.ready == s.ready
      && PcbOf(s', s.cur) == PcbOf(s, s.cur).(status := stat) && PcbOf(s', s'.cur) == PcbOf(s, s'.cur).(status := Running)
      && (forall t | t != s.cur && t != s'.cur :: PcbOf(s', t) == PcbOf(s, t))
  {
    assert s.ready[0] in s.ready && [s.ready[0]] + s.ready[1..] == s.ready;
  }

  lemma BlockIs(s: State, stat: Status)
    ensures BlockMeans(s, ThreadBlock(s, stat), stat)
  {
    hide SchedInv, Schedule;
    if SchedInv(s) && stat in {Waiting, Blocked, Hanging} && s.ready != [] {
      CurNotReady(s);
      BlockShape(s, stat);
      if stat == Blocked { BlockEffect(s); }
    }
    if stat in {Waiting, Blocked, Hanging} && s.ready == [] { NobodyLeft(s, stat); }
  }

  lemma NobodyLeft(s: State, stat: Status)
    requires s.ready == [] && stat in {Waiting, Blocked, Hanging}
    ensures ThreadBlock(s, stat).halted
  {
  }

  /** The same for the status all callers give. */
  lemma BlocksNow(s: State)
    requires SchedInv(s)
    ensures var s' := ThreadBlock(s, Blocked); if s.ready == [] then s'.halted else [s'.cur] + s'.ready == s.ready && SameRest(s, s')
  {
    hide SchedInv, ThreadBlock;
    BlockIs(s, Blocked);
  }

  /** A blocked thread goes to the front of the ready list; the machine stops on any other. */
  ghost predicate UnblockMeans(s: State, s': State, t: Tid) {
    SchedInv(s) && t in s.pcbs ==>
      if !IsBlocked(s, t) then s'.halted
      else
        && SchedInv(s') && SameRest(s, s') && s'.halted == s.halted && s'.cur == s.cur
        && s'.ready == [t] + s.ready && BlockedBut(s, s', {t}, {}) && SameSlices(s, s', {})
  }

  lemma UnblockIs(s: State, t: Tid)
    ensures UnblockMeans(s, ThreadUnblock(s, t), t)
  {
    if SchedInv(s) && t in s.pcbs {
      if IsBlocked(s, t) { UnblockEffect(s, t); } else { assert StatusOk(s, t); }
    }
  }

  /** Preemption exactly when the time slice is used up, and a full slice for the thread preempted; the
      running thread's own counter advances with the global one. */
  ghost predicate TickMeans(s: State, s': State) {
    && s'.ticks == (s.ticks + 1) % U32 && SameSlices(s, s', {s.cur})
    && PcbOf(s', s.cur).elapsed == (PcbOf(s, s.cur).elapsed + 1) % U32
    && if PcbOf(s, s.cur).ticks == 0 then Rotates(s, s') && PcbOf(s', s.cur).ticks == PcbOf(s, s.cur).priority
       else s'.cur == s.cur && s'.ready == s.ready && PcbOf(s', s.cur).ticks == PcbOf(s, s.cur).ticks - 1
  }

  lemma TickIs(s: State)
    requires SchedInv(s)
    ensures TickMeans(s, TimerHandler(s))
  {
    hide SchedInv;
    var s1 := CountTick(s);
    CountersEffect(s, s1, PcbOf(s1, s.cur));
    ScheduleIs(s1);
    hide Schedule;
  }

  ghost predicate TimerMeans(s: State, s': State) {
    Inv(s) ==> Inv(s') && s'.halted == s.halted && BlockedBut(s, s', {}, {}) && TickMeans(s, s')
  }

  lemma TimerIs(s: State)
    ensures TimerMeans(s, TimerHandler(s))
  {
    hide Inv, SchedInv, TimerHandler, TickMeans;
    if Inv(s) {
      TimerKeeps(s);
      InvFacts(s, KernelLock(0));
      TickIs(s);
    }
  }

  /** What init_thread stores: the priority cut to eight bits, a full slice, and no time used. */
  predicate FreshPcb(p: Pcb, prio: int) {
    && p.status == Ready && p.elapsed == 0 && p.ticks == p.priority < U8 && (p.priority - prio) % U8 == 0
    && (0 <= prio < U8 ==> p.priority == prio)
  }

  /** One thread more, last in both lists, and nothing else changes; starting a thread that is already in
      the lists stops the machine. */
  ghost predicate StartMeans(s: State, s': State, t: Tid, prio: int) {
    && (SchedInv(s) && t in s.pcbs ==> s'.halted)
    && (Inv(s) && !s.halted && t !in s.pcbs ==>
          && Inv(s') && !s'.halted && s'.cur == s.cur && s'.ready == s.ready + [t] && s'.all == s.all + [t]
          && s'.pcbs.Keys == s.pcbs.Keys + {t} && FreshPcb(PcbOf(s', t), prio)
          && (forall u | u != t :: PcbOf(s', u) == PcbOf(s, u)) && s'.locks == s.locks && s'.queues == s.queues)
  }

  lemma StartIs(s: State, t: Tid, prio: int)
    ensures StartMeans(s, ThreadStart(s, t, prio), t, prio)
  {
    hide Inv;
    if Inv(s) && !s.halted && t !in s.pcbs {
      SpawnKeeps(s, t, prio);
      InvFacts(s, KernelLock(0));
      StartShape(s, t, prio);
    }
    hide ThreadStart;
    if SchedInv(s) && t in s.pcbs { StartTwice(s, t, prio); }
  }

  lemma StartTwice(s: State, t: Tid, prio: int)
    requires SchedInv(s) && t in s.pcbs
    ensures ThreadStart(s, t, prio).halted
  {
  }

  lemma StartShape(s: State, t: Tid, prio: int)
    requires SchedInv(s) && t !in s.pcbs
    ensures var s' := ThreadStart(s, t, prio);
      && s'.cur == s.cur && s'.ready == s.ready + [t] && s'.all == s.all + [t] && s'.locks == s.locks && s'.queues == s.queues
      && s'.pcbs.Keys == s.pcbs.Keys + {t} && FreshPcb(PcbOf(s', t), prio) && forall u | u != t :: PcbOf(s', u) == PcbOf(s, u)
  {
    assert t !in s.ready && t !in s.all;
    hide SchedInv;
  }

  // ---------- sync.c ----------

  predicate AtDown(s: State, l: LockId, who: Caller) {
    CtxOf(s, s.cur).pc == Acquire(l, Down, who) || CtxOf(s, s.cur).pc == Acquire(l, InLoop, who)
  }

  /** sema_down: the caller becomes the lock's only owner if it is free, and otherwise the last of its
      waiters; it stops the machine exactly if it must wait and nobody can run instead. */
  ghost predicate DownMeans(s: State, s': State, l: LockId, who: Caller) {
    Inv(s) && AtDown(s, l, who) ==>
      var k := LockAt(s, l).sema;
      if k.value != 0 then
        Inv(s') && s'.halted == s.halted && s'.cur == s.cur && SoleOwner(s', s.cur, l) && LockAt(s', l).sema == Sema(0, k.waiters)
        && CtxOf(s', s.cur).pc == Acquire(l, SetHolder, who)
      else if s.ready != [] then
        && Inv(s') && Slept(s, s', Acquire(l, InLoop, who)) && [s'.cur] + s'.ready == s.ready
        && LockAt(s', l).sema == Sema(0, k.waiters + [s.cur])
      else s'.halted
  }

  lemma DownIs(s: State, l: LockId, who: Caller)
    ensures DownMeans(s, SemaDown(s, l, who), l, who)
  {
    hide Inv, SoleOwner, Slept, SemaDown;
    if Inv(s) && AtDown(s, l, who) {
      if LockAt(s, l).sema.value != 0 { DownTakes(s, l, who); } else { DownWaits(s, l, who); }
    }
  }

  lemma DownTakes(s: State, l: LockId, who: Caller)
    requires Inv(s) && AtDown(s, l, who) && LockAt(s, l).sema.value != 0
    ensures DownMeans(s, SemaDown(s, l, who), l, who)
  {
    hide Inv, SoleOwner, SchedInv, ThreadBlock, LockInv, CtxOk;
    TakeKeeps(s, l, CtxOf(s, s.cur).pc.acq, who);
    InvFacts(s, l);
    LockHasUnit(s, l);
    InvFacts(SemaDown(s, l, who), l);
    OwnerIsSole(SemaDown(s, l, who), s.cur, l);
  }

  lemma LockHasUnit(s: State, l: LockId)
    requires LockInv(s, l)
    ensures LockAt(s, l).sema.value <= 1
  {
  }

  lemma DownWaits(s: State, l: LockId, who: Caller)
    requires Inv(s) && AtDown(s, l, who) && LockAt(s, l).sema.value == 0
    ensures DownMeans(s, SemaDown(s, l, who), l, who)
  {
    hide Inv, SoleOwner, Slept, ThreadBlock, SchedInv, LockInv, CtxOk;
    var k, at := LockAt(s, l), CtxOf(s, s.cur).pc.acq;
    NotWaiting(s, l);
    InvFacts(s, l);
    var s1 := Goto(WithLock(s, l, WithSema(k, 0, k.sema.waiters + [s.cur])), Acquire(l, InLoop, who));
    SchedMoves(s, s1);
    BlocksNow(s1);
    if s.ready != [] { SleepKeeps(s, l, at, who); }
  }

  /** SchedInv looks at neither locks nor the contents of contexts. */
  lemma SchedMoves(s: State, s1: State)
    requires SchedInv(s) && s1 == s.(ctx := s1.ctx, locks := s1.locks, queues := s1.queues) && s1.ctx.Keys == s.ctx.Keys + {s.cur}
    ensures SchedInv(s1)
  {
    CtxKeys(s);
    SchedKeeps(s, s1);
  }

  /** Where a caller goes on behind lock_acquire: a program behind its call, the queue's functions at
      ioq_wait. */
  predicate BehindAcquire(pc: Pc, l: LockId, who: Caller) {
    match who
    case ByProgram => pc == Program
    case ByGet => l.QueueLock? && pc == GetWait(l.q)
    case ByPut(b) => l.QueueLock? && pc == PutWait(l.q, b)
  }

  /** Where a caller goes on behind lock_release: a program behind its call, the queue's functions at the
      head of their loops, a producer with the byte it was given. */
  predicate BehindRelease(pc: Pc, l: LockId, who: Caller) {
    match who
    case ByProgram => pc == Program
    case ByGet => l.QueueLock? && pc == GetTop(l.q)
    case ByPut(b) => l.QueueLock? && pc == PutTop(l.q, b)
  }

  lemma CallerPoints(s: State, l: LockId, who: Caller)
    requires Inv(s) && (CtxOf(s, s.cur).pc.Acquire? || CtxOf(s, s.cur).pc.Release?) && CtxOf(s, s.cur).pc.l == l && CtxOf(s, s.cur).pc.who == who
    ensures BehindAcquire(AfterAcquire(l, who), l, who) && BehindRelease(AfterRelease(l, who), l, who)
  {
    hide Inv;
    InvFacts(s, l);
  }

  /** sema_up: the lock is free and without owner, and its first waiter, if any, is next to run. */
  ghost predicate UpMeans(s: State, s': State, l: LockId, who: Caller) {
    Inv(s) && !s.halted && CtxOf(s, s.cur).pc == Release(l, Up, who) ==>
      var w := LockAt(s, l).sema.waiters;
      && Inv(s') && !s'.halted && s'.cur == s.cur && NoOwner(s', l) && BehindRelease(CtxOf(s', s.cur).pc, l, who)
      && LockAt(s', l) == Lock(None, 0, Sema(1, if w == [] then [] else w[1..]))
      && (if w == [] then s'.ready == s.ready && BlockedBut(s, s', {}, {}) else s'.ready == [w[0]] + s.ready && BlockedBut(s, s', {w[0]}, {}))
  }

  lemma WokenFirst(s: State, l: LockId)
    requires Inv(s)
    ensures var w := LockAt(s, l).sema.waiters; SemaWake(s, l).ready == if w == [] then s.ready else [w[0]] + s.ready
  {
    hide Inv, SchedInv;
    WakeEffect(s, l);
  }

  /** The state sema_up leaves, in terms of the one after its waking half. */
  lemma UpShape(s: State, l: LockId, who: Caller)
    requires Inv(s) && !s.halted && CtxOf(s, s.cur).pc == Release(l, Up, who)
    ensures var s1, s', w := SemaWake(s, l), SemaUp(s, l, who), LockAt(s, l).sema.waiters;
      && s'.cur == s.cur && s'.ready == s1.ready && s'.pcbs == s1.pcbs && CtxOf(s', s.cur).pc == AfterRelease(l, who)
      && LockAt(s', l) == Lock(None, 0, Sema(1, if w == [] then [] else w[1..]))
  {
    hide Inv, SchedInv, SoleOwner, LockInv;
    InvFacts(s, l);
    UpView(s, l, who);
    WakeEffect(s, l);
    hide SemaWake;
  }

  lemma UpView(s: State, l: LockId, who: Caller)
    requires Inv(s) && CtxOf(s, s.cur).pc == Release(l, Up, who)
    ensures LockAt(s, l).holder == None && LockAt(s, l).repeat == 0 && LockAt(s, l).sema.value == 0
  {
    hide Inv, SchedInv;
    InvFacts(s, l);
    OwnerIsSole(s, s.cur, l);
  }

  lemma FreeLock(s: State, l: LockId)
    requires Inv(s) && LockAt(s, l).sema.value == 1
    ensures NoOwner(s, l)
  {
    hide Inv;
    InvFacts(s, l);
  }

  lemma UpIs(s: State, l: LockId, who: Caller)
    ensures UpMeans(s, SemaUp(s, l, who), l, who)
  {
    hide Inv, SchedInv, NoOwner;
    if Inv(s) && !s.halted && CtxOf(s, s.cur).pc == Release(l, Up, who) {
      UpKeeps(s, l, who);
      WakeEffect(s, l);
      WokenFirst(s, l);
      UpShape(s, l, who);
      CallerPoints(s, l, who);
      hide SemaWake, SemaUp, AfterRelease, BehindRelease;
      FreeLock(SemaUp(s, l, who), l);
    }
  }

  /** lock_acquire, statement by statement: no ASSERT fires, and behind the last statement the caller
      holds the lock one level deeper. */
  ghost predicate AcquireMeans(s: State, s': State, l: LockId, at: AcqPoint, who: Caller) {
    Inv(s) && !s.halted && CtxOf(s, s.cur).pc == Acquire(l, at, who) ==>
      if (at.Down? || at.InLoop?) && LockAt(s, l).sema.value == 0 && s.ready == [] then s'.halted
      else
        && Inv(s') && !s'.halted
        && (at.SetOne? || at.IncStore? ==>
              var d := Depth(CtxOf(s, s.cur), l) + 1;
              && LockAt(s', l).holder == Some(s.cur) && LockAt(s', l).repeat == d
              && Depth(CtxOf(s', s.cur), l) == d && BehindAcquire(CtxOf(s', s.cur).pc, l, who))
  }

  lemma AcquireIs(s: State, l: LockId, at: AcqPoint, who: Caller)
    ensures AcquireMeans(s, LockAcquire(s, l, at, who), l, at, who)
  {
    hide Inv, SemaDown, SoleOwner, Slept;
    if Inv(s) && !s.halted && CtxOf(s, s.cur).pc == Acquire(l, at, who) {
      if at.Down? || at.InLoop? {
        DownIs(s, l, who);
        SleptRuns(s, SemaDown(s, l, who), Acquire(l, InLoop, who));
      } else if at.Entry? {
        EntryKeeps(s, l, who);
      } else {
        AcquireKeeps(s, l, at, who);
        if at.SetOne? || at.IncStore? {
          AcquireDepth(s, l, at, who);
          CallerPoints(s, l, who);
        }
      }
    }
  }

  lemma SleptRuns(s: State, s': State, pc: Pc)
    ensures Slept(s, s', pc) ==> s'.halted == s.halted
  {
  }

  lemma AcquireDepth(s: State, l: LockId, at: AcqPoint, who: Caller)
    requires Inv(s) && CtxOf(s, s.cur).pc == Acquire(l, at, who) && (at.SetOne? || at.IncStore?)
    ensures var s', d := LockAcquire(s, l, at, who), Depth(CtxOf(s, s.cur), l) + 1;
      LockAt(s', l).holder == Some(s.cur) && LockAt(s', l).repeat == d && Depth(CtxOf(s', s.cur), l) == d
  {
    hide Inv;
    InvFacts(s, l);
    OwnerIsSole(s, s.cur, l);
  }

  /** lock_release, statement by statement: no ASSERT fires, and one level of nesting goes. */
  ghost predicate ReleaseMeans(s: State, s': State, l: LockId, at: RelPoint, who: Caller) {
    Inv(s) && !s.halted && CtxOf(s, s.cur).pc == Release(l, at, who) ==>
      && Inv(s') && !s'.halted
      && (at.DecStore? || at.Up? ==> Depth(CtxOf(s', s.cur), l) == Depth(CtxOf(s, s.cur), l) - 1)
      && (at.DecStore? ==> LockAt(s', l).holder == Some(s.cur) && LockAt(s', l).repeat == Depth(CtxOf(s', s.cur), l))
      && (at.DecStore? ==> BehindRelease(CtxOf(s', s.cur).pc, l, who))
      && (at.Up? ==> UpMeans(s, s', l, who))
  }

  lemma ReleaseIs(s: State, l: LockId, at: RelPoint, who: Caller)
    ensures ReleaseMeans(s, LockRelease(s, l, at, who), l, at, who)
  {
    hide Inv, UpMeans;
    if Inv(s) && !s.halted && CtxOf(s, s.cur).pc == Release(l, at, who) {
      if at.Up? {
        UpIs(s, l, who);
        UpKeeps(s, l, who);
        UpDepth(s, l, who);
      } else {
        ReleaseKeeps(s, l, at, who);
        if at.DecStore? {
          ReleaseDepth(s, l, at, who);
          CallerPoints(s, l, who);
        }
      }
    }
  }

  lemma UpDepth(s: State, l: LockId, who: Caller)
    requires Inv(s) && !s.halted && CtxOf(s, s.cur).pc == Release(l, Up, who)
    ensures Depth(CtxOf(SemaUp(s, l, who), s.cur), l) == Depth(CtxOf(s, s.cur), l) - 1
  {
    hide Inv, SchedInv;
    InvFacts(s, l);
    OwnerIsSole(s, s.cur, l);
    UpKeeps(s, l, who);
    WakeEffect(s, l);
    hide SemaWake;
  }

  lemma ReleaseDepth(s: State, l: LockId, at: RelPoint, who: Caller)
    requires Inv(s) && CtxOf(s, s.cur).pc == Release(l, at, who) && at.DecStore?
    ensures var s' := LockRelease(s, l, at, who);
      && Depth(CtxOf(s', s.cur), l) == Depth(CtxOf(s, s.cur), l) - 1
      && LockAt(s', l).holder == Some(s.cur) && LockAt(s', l).repeat == Depth(CtxOf(s', s.cur), l)
  {
    hide Inv;
    InvFacts(s, l);
    OwnerIsSole(s, s.cur, l);
  }

  // ---------- ioqueue.c ----------

  function Waiter(t: Option<Tid>): set<Tid> { if t.Some? then {t.value} else {} }

  /** The bytes in a queue. */
  ghost function BytesIn(s: State, q: QueueId): seq<char> {
    var r := QueueAt(s, q).ring; if RingOk(r) then Contents(r) else []
  }

  lemma RingsOk(s: State, q: QueueId)
    requires Inv(s)
    ensures RingOk(QueueAt(s, q).ring)
  {
  }

  /** Thread t, if there is one, is off its slot and first in the ready list; no other thread, lock or queue
      has changed. */
  ghost predicate Woke(s: State, s': State, q: QueueId, t: Option<Tid>) {
    && s'.cur == s.cur && s'.ctx == s.ctx && s'.locks == s.locks && !s'.halted
    && s'.ready == (if t.Some? then [t.value] else []) + s.ready
    && BlockedBut(s, s', Waiter(t), {}) && SameSlices(s, s', {})
    && (forall p | p != q :: QueueAt(s', p) == QueueAt(s, p))
  }

  /** A byte is appended, and the thread in the consumer slot, if any, is next to run. */
  ghost predicate PutMeans(s: State, s': State, q: QueueId, b: char) {
    Inv(s) && !s.halted && !IsFull(QueueAt(s, q).ring) ==>
      && Inv(s') && BytesIn(s', q) == BytesIn(s, q) + [b] && Woke(s, s', q, QueueAt(s, q).consumer)
      && QueueAt(s', q).consumer == None && QueueAt(s', q).producer == QueueAt(s, q).producer
  }

  /** The thread in a slot, if any, is unblocked. */
  lemma SlotWakes(s: State, s1: State, q: QueueId, t: Option<Tid>)
    requires SchedInv(s) && !s.halted && s1 == s.(queues := s1.queues) && (t.Some? ==> IsBlocked(s, t.value))
    requires forall p | p != q :: QueueAt(s1, p) == QueueAt(s, p)
    ensures var s2 := if t.Some? then ThreadUnblock(s1, t.value) else s1; Woke(s, s2, q, t) && s2.queues == s1.queues
  {
    hide ThreadUnblock, SchedInv;
    SchedMovesQueue(s, s1);
    if t.Some? { UnblockIs(s1, t.value); } else { assert [] + s.ready == s.ready; }
  }

  lemma WokeThen(s: State, s1: State, s': State, q: QueueId, t: Option<Tid>)
    requires Woke(s, s1, q, t) && s' == s1.(queues := s'.queues) && forall p | p != q :: QueueAt(s', p) == QueueAt(s1, p)
    ensures Woke(s, s', q, t)
  {
  }

  lemma PutShape(s: State, q: QueueId, b: char)
    requires Inv(s) && !s.halted && !IsFull(QueueAt(s, q).ring)
    ensures var s' := PutByte(s, q, b);
      && Woke(s, s', q, QueueAt(s, q).consumer)
      && QueueAt(s', q) == QueueAt(s, q).(ring := RingPut(QueueAt(s, q).ring, b), consumer := None)
  {
    hide Inv, RingPut, SchedInv, ThreadUnblock, RingOk;
    QueueFacts(s, q);
    var k := QueueAt(s, q);
    var s1 := WithQueue(s, q, k.(ring := RingPut(k.ring, b)));
    SlotWakes(s, s1, q, k.consumer);
    var s2 := if k.consumer.Some? then ThreadUnblock(s1, k.consumer.value) else s1;
    assert !s2.halted;
    hide Woke;
    WokeThen(s, s2, PutByte(s, q, b), q, k.consumer);
  }

  lemma PutIs(s: State, q: QueueId, b: char)
    ensures PutMeans(s, PutByte(s, q, b), q, b)
  {
    hide Inv, RingOk, RingPut, Contents, PutByte, Woke;
    if Inv(s) && !s.halted && !IsFull(QueueAt(s, q).ring) {
      PutByteKeeps(s, q, b);
      PutShape(s, q, b);
      RingsOk(s, q);
      RingPutKeeps(QueueAt(s, q).ring, b);
    }
  }

  lemma SchedMovesQueue(s: State, s1: State)
    requires SchedInv(s) && s1 == s.(queues := s1.queues)
    ensures SchedInv(s1)
  {
    SchedKeeps(s, s1);
  }

  /** The oldest byte is taken and returned, and the thread in the producer slot, if any, is next to run. */
  ghost predicate GetMeans(s: State, s': State, q: QueueId, byte: char) {
    Inv(s) && !s.halted && !IsEmpty(QueueAt(s, q).ring) ==>
      && Inv(s') && [byte] + BytesIn(s', q) == BytesIn(s, q) && Woke(s, s', q, QueueAt(s, q).producer)
      && QueueAt(s', q).producer == None && QueueAt(s', q).consumer == QueueAt(s, q).consumer
  }

  lemma GetShape(s: State, q: QueueId)
    requires Inv(s) && !s.halted && !IsEmpty(QueueAt(s, q).ring)
    ensures var s' := GetByte(s, q);
      && Woke(s, s', q, QueueAt(s, q).producer)
      && QueueAt(s', q) == QueueAt(s, q).(ring := RingGet(QueueAt(s, q).ring), producer := None)
  {
    hide Inv, RingGet, SchedInv, ThreadUnblock, RingOk;
    QueueFacts(s, q);
    var k := QueueAt(s, q);
    var s1 := WithQueue(s, q, k.(ring := RingGet(k.ring)));
    SlotWakes(s, s1, q, k.producer);
    var s2 := if k.producer.Some? then ThreadUnblock(s1, k.producer.value) else s1;
    assert !s2.halted;
    hide Woke;
    WokeThen(s, s2, GetByte(s, q), q, k.producer);
  }

  lemma GetIs(s: State, q: QueueId)
    ensures GetMeans(s, GetByte(s, q), q, RingFront(QueueAt(s, q).ring))
  {
    hide Inv, RingOk, RingGet, RingFront, Contents, GetByte, Woke;
    if Inv(s) && !s.halted && !IsEmpty(QueueAt(s, q).ring) {
      GetByteKeeps(s, q);
      GetShape(s, q);
      RingsOk(s, q);
      RingGetKeeps(QueueAt(s, q).ring);
    }
  }

  /** ioq_getchar at the head of its loop: with a byte there the call takes the oldest and returns with it,
      otherwise only the thread's program point moves, to the queue's lock. */
  ghost predicate GetLoopMeans(s: State, s': State, q: QueueId, byte: Option<char>) {
    Inv(s) && !s.halted && CtxOf(s, s.cur).pc == GetTop(q) ==>
      && Inv(s') && !s'.halted && s'.cur == s.cur
      && match byte
         case None => BytesIn(s, q) == [] && CtxOf(s', s.cur).pc == Acquire(QueueLock(q), Entry, ByGet) && s' == s.(ctx := s'.ctx)
         case Some(b) => CtxOf(s', s.cur).pc == Program && BytesIn(s, q) == [b] + BytesIn(s', q)
  }

  /** What ioq_getchar has to give at the head of its loop. */
  function Oldest(s: State, q: QueueId): Option<char> {
    var r := QueueAt(s, q).ring; if IsEmpty(r) then None else Some(RingFront(r))
  }

  lemma GetLoopIs(s: State, q: QueueId)
    ensures GetLoopMeans(s, GetLoop(s, q), q, Oldest(s, q))
  {
    hide Inv, RingOk, RingFront, GetByte;
    if Inv(s) && !s.halted && CtxOf(s, s.cur).pc == GetTop(q) {
      RunsNow(s);
      GetKeeps(s, q, s.cur);
      RingsOk(s, q);
      EmptyIs(QueueAt(s, q).ring);
      GetIs(s, q);
    }
  }

  lemma EmptyIs(r: Ring)
    requires RingOk(r)
    ensures IsEmpty(r) <==> Contents(r) == []
    ensures IsFull(r) <==> |Contents(r)| == BUF_SIZE - 1
  {
  }

  lemma RunsNow(s: State)
    requires Inv(s)
    ensures IdleInv(s, s.cur)
  {
    assert StatusOk(s, s.cur);
  }

  /** ioq_putchar at the head of its loop: with room the call stores the byte and returns, otherwise only
      the thread's program point moves, to the queue's lock. */
  ghost predicate PutLoopMeans(s: State, s': State, q: QueueId, b: char) {
    Inv(s) && !s.halted && CtxOf(s, s.cur).pc == PutTop(q, b) ==>
      && Inv(s') && !s'.halted && s'.cur == s.cur
      && if |BytesIn(s, q)| == BUF_SIZE - 1 then CtxOf(s', s.cur).pc == Acquire(QueueLock(q), Entry, ByPut(b)) && s' == s.(ctx := s'.ctx)
         else CtxOf(s', s.cur).pc == Program && BytesIn(s', q) == BytesIn(s, q) + [b]
  }

  lemma PutLoopIs(s: State, q: QueueId, b: char)
    ensures PutLoopMeans(s, PutLoop(s, q, b), q, b)
  {
    hide Inv, RingOk, PutByte;
    if Inv(s) && !s.halted && CtxOf(s, s.cur).pc == PutTop(q, b) {
      RunsNow(s);
      PutKeeps(s, q, b, s.cur);
      RingsOk(s, q);
      EmptyIs(QueueAt(s, q).ring);
      PutIs(s, q, b);
    }
  }

  /** ioq_wait: the caller sleeps in its slot, with the queue's lock still its own and the bytes as they
      were; it stops the machine exactly if nobody can run instead. */
  ghost predicate WaitMeans(s: State, s': State, q: QueueId, pc: Pc) {
    Inv(s) && !s.halted && (CtxOf(s, s.cur).pc == GetWait(q) || (CtxOf(s, s.cur).pc.PutWait? && CtxOf(s, s.cur).pc.q == q)) ==>
      if s.ready == [] then s'.halted
      else
        && Inv(s') && Slept(s, s', pc) && [s'.cur] + s'.ready == s.ready && SoleOwner(s', s.cur, QueueLock(q))
        && s'.locks == s.locks && QueueAt(s', q).ring == QueueAt(s, q).ring
        && (if pc.GetSlot? then QueueAt(s', q).consumer else QueueAt(s', q).producer) == Some(s.cur)
  }

  lemma WaitIs(s: State, q: QueueId, k: Queue, pc: Pc)
    requires k == (if pc.GetSlot? then QueueAt(s, q).(consumer := Some(s.cur)) else QueueAt(s, q).(producer := Some(s.cur)))
    requires (pc == GetSlot(q) && CtxOf(s, s.cur).pc == GetWait(q)) || (pc.PutSlot? && CtxOf(s, s.cur).pc == PutWait(q, pc.byte) && pc.q == q)
    ensures WaitMeans(s, ThreadBlock(Goto(WithQueue(s, q, k), pc), Blocked), q, pc)
  {
    hide Inv, SchedInv, ThreadBlock, SoleOwner;
    if Inv(s) && !s.halted {
      SlotsFree(s, q);
      QueueFacts(s, q);
      var s1 := Goto(WithQueue(s, q, k), pc);
      SchedMoves(s, s1);
      BlocksNow(s1);
      if s.ready != [] {
        WaitKeeps(s, q, k, pc);
        var s' := ThreadBlock(s1, Blocked);
        SlotOwner(s, s', q, pc);
      }
    }
  }

  lemma SlotOwner(s: State, s': State, q: QueueId, pc: Pc)
    requires Inv(s') && (if pc.GetSlot? then QueueAt(s', q).consumer else QueueAt(s', q).producer) == Some(s.cur)
    ensures SoleOwner(s', s.cur, QueueLock(q))
  {
    hide Inv, SoleOwner;
    InvFacts(s', QueueLock(q));
    SlotOwns(s', q, s.cur);
    OwnerIsSole(s', s.cur, QueueLock(q));
  }

  lemma WaitConsumerIs(s: State, q: QueueId)
    ensures CtxOf(s, s.cur).pc == GetWait(q) ==> WaitMeans(s, WaitConsumer(s, q), q, GetSlot(q))
  {
    hide Inv, ThreadBlock;
    if CtxOf(s, s.cur).pc == GetWait(q) && Inv(s) {
      SlotsFree(s, q);
      WaitIs(s, q, QueueAt(s, q).(consumer := Some(s.cur)), GetSlot(q));
    }
  }

  lemma WaitProducerIs(s: State, q: QueueId, b: char)
    ensures CtxOf(s, s.cur).pc == PutWait(q, b) ==> WaitMeans(s, WaitProducer(s, q, b), q, PutSlot(q, b))
  {
    hide Inv, ThreadBlock;
    if CtxOf(s, s.cur).pc == PutWait(q, b) && Inv(s) {
      SlotsFree(s, q);
      WaitIs(s, q, QueueAt(s, q).(producer := Some(s.cur)), PutSlot(q, b));
    }
  }

  // ---------- lock_init and ioqueue_init ----------

  /** Both states show the same in every lock and every queue. */
  ghost predicate SameShown(s: State, s': State) {
    && s' == s.(locks := s'.locks, queues := s'.queues)
    && (forall l :: LockAt(s', l) == LockAt(s, l)) && (forall q :: QueueAt(s', q) == QueueAt(s, q))
  }

  lemma ShownPlaces(s: State, s': State)
    requires PlaceInv(s) && SameShown(s, s')
    ensures PlaceInv(s')
  {
    forall l ensures WaitersInv(s', l) { assert WaitersInv(s, l) && LockAt(s', l) == LockAt(s, l); }
    forall q ensures SlotsInv(s', q) { assert SlotsInv(s, q) && QueueAt(s', q) == QueueAt(s, q); }
    forall t ensures CtxOf(s', t) == CtxOf(s, t) && IsBlocked(s', t) == IsBlocked(s, t) {}
  }

  lemma ShownLocks(s: State, s': State)
    requires LocksInv(s) && WakeInv(s) && SameShown(s, s')
    ensures LocksInv(s') && WakeInv(s')
  {
    forall l ensures LockInv(s', l) {
      assert LockInv(s, l) && LockAt(s', l) == LockAt(s, l);
      forall t ensures CtxOf(s', t) == CtxOf(s, t) {}
      if LockAt(s, l).sema.value == 0 {
        var t :| SoleOwner(s, t, l);
        assert SoleOwner(s', t, l);
      }
    }
    forall l | LockAt(s', l).sema.value == 1 && LockAt(s', l).sema.waiters != [] ensures exists t :: Woken(s', t, l) {
      var t :| Woken(s, t, l);
      assert Woken(s', t, l);
    }
  }

  /** Initialising a lock or a queue that nobody has used keeps the invariant. */
  lemma InitKeeps(s: State, s': State)
    requires SameShown(s, s')
    ensures Inv(s) ==> Inv(s')
  {
    hide SchedInv, PlaceInv, CtxInv, LocksInv, WakeInv, RingsInv;
    if Inv(s) {
      CtxKeys(s);
      SchedKeeps(s, s');
      ShownPlaces(s, s');
      ShownLocks(s, s');
      RingsKeep(s, s');
      SameCtxs(s, s');
    }
  }

  lemma FreshLock(s: State, l: LockId)
    requires l !in s.locks
    ensures SameShown(s, WithLock(s, l, LockInit()))
  {
  }

  lemma FreshQueue(s: State, q: QueueId)
    requires QueueLock(q) !in s.locks && q !in s.queues
    ensures SameShown(s, WithQueue(WithLock(s, QueueLock(q), LockInit()), q, QueueInit()))
  {
  }
}
