/**
 Legal runs put together step by step, to show that a state can be reached.
 */
module KernelPaths {
  import opened Words
  import opened KernelState
  import opened KernelInv
  import opened KernelSteps
  import opened KernelRuns
  import opened KernelTheorems

  ghost predicate Good(s: State, idle: Tid) { Inv(s) && !s.halted && IdleInv(s, idle) }

  /** A legal run in which thread b does not stand in the consumer slot of q before its end. */
  ghost predicate Path(s: State, run: seq<Action>, idle: Tid, b: Tid, q: QueueId)
    decreases |run|
  {
    run == [] || (&& Enabled(s, run[0]) && Disciplined(s, run[0], idle) && CtxOf(s, b).pc != GetSlot(q)
                  && Path(Next(s, run[0]), run[1..], idle, b, q))
  }

  ghost predicate Leads(s: State, s': State, idle: Tid, b: Tid, q: QueueId) {
    exists run :: Path(s, run, idle, b, q) && Exec(s, run) == s'
  }

  lemma {:induction false} PathIsLegal(s: State, run: seq<Action>, idle: Tid, b: Tid, q: QueueId)
    requires Path(s, run, idle, b, q)
    ensures LegalRun(s, run, idle)
    decreases |run|
  {
    hide Enabled, Disciplined, Next;
    if run != [] { PathIsLegal(Next(s, run[0]), run[1..], idle, b, q); }
  }

  lemma LeadsNowhere(s: State, idle: Tid, b: Tid, q: QueueId)
    ensures Leads(s, s, idle, b, q)
  {
    assert Path(s, [], idle, b, q) && Exec(s, []) == s;
  }

  lemma {:induction false} PathThen(s: State, run: seq<Action>, more: seq<Action>, idle: Tid, b: Tid, q: QueueId)
    requires Path(s, run, idle, b, q) && Path(Exec(s, run), more, idle, b, q)
    ensures Path(s, run + more, idle, b, q) && Exec(s, run + more) == Exec(Exec(s, run), more)
    decreases |run|
  {
    hide Enabled, Disciplined, Next;
    if run == [] {
      assert run + more == more;
    } else {
      assert (run + more)[1..] == run[1..] + more && (run + more)[0] == run[0];
      PathThen(Next(s, run[0]), run[1..], more, idle, b, q);
    }
  }

  lemma LeadsOn(s: State, s1: State, s2: State, idle: Tid, b: Tid, q: QueueId)
    requires Leads(s, s1, idle, b, q) && Leads(s1, s2, idle, b, q)
    ensures Leads(s, s2, idle, b, q)
  {
    hide Path;
    var run :| Path(s, run, idle, b, q) && Exec(s, run) == s1;
    var more :| Path(s1, more, idle, b, q) && Exec(s1, more) == s2;
    PathThen(s, run, more, idle, b, q);
  }

  /** One step further along a path. */
  lemma Act(s0: State, s: State, a: Action, idle: Tid, b: Tid, q: QueueId)
    requires Leads(s0, s, idle, b, q) && Good(s, idle)
    requires Enabled(s, a) && Disciplined(s, a, idle) && CtxOf(s, b).pc != GetSlot(q)
    ensures Leads(s0, Next(s, a), idle, b, q) && Good(Next(s, a), idle)
  {
    hide Inv, Next, Enabled, Disciplined, IdleInv;
    StepKeeps(s, a, idle);
    var s' := Next(s, a);
    assert Path(s', [], idle, b, q) && [a][1..] == [];
    assert Path(s, [a], idle, b, q) && Exec(s, [a]) == Exec(s', []) == s';
    LeadsOn(s0, s, s', idle, b, q);
  }

  /** What a legal path from boot leads to is reachable. */
  lemma LeadsFromBoot(s0: State, main: Tid, s: State, b: Tid, q: QueueId)
    requires InitState(s0, main) && Leads(s0, s, main, b, q)
    ensures Reachable(s)
  {
    var run :| Path(s0, run, main, b, q) && Exec(s0, run) == s;
    PathIsLegal(s0, run, main, b, q);
  }

  // ---------- giving up the CPU ----------

  /** Only the timer went on. */
  ghost predicate SameBut(s: State, s': State) {
    s'.ctx == s.ctx && s'.locks == s.locks && s'.queues == s.queues && s'.pcbs.Keys == s.pcbs.Keys
  }

  lemma TickEffect(s: State)
    requires SchedInv(s) && s.ready != []
    ensures var s' := TimerHandler(s); SameBut(s, s') && var n := PcbOf(s, s.cur).ticks;
      if n == 0 then s'.cur == s.ready[0] && s'.ready == s.ready[1..] + [s.cur]
      else s'.cur == s.cur && s'.ready == s.ready && PcbOf(s', s.cur).ticks == n - 1
  {
    TimerEffect(s);
    assert StatusOk(s, s.cur);
    assert (s.ready + [s.cur])[1..] == s.ready[1..] + [s.cur];
  }

  /** A thread with interrupts on loses the CPU to the next ready thread once its slice is over. */
  lemma {:induction false} Preempted(s0: State, s: State, idle: Tid, b: Tid, q: QueueId) returns (s': State)
    requires Leads(s0, s, idle, b, q) && Good(s, idle) && s.ready != []
    requires InterruptsOn(CtxOf(s, s.cur)) && CtxOf(s, b).pc != GetSlot(q)
    ensures Leads(s0, s', idle, b, q) && Good(s', idle) && SameBut(s, s')
    ensures s'.cur == s.ready[0] && s'.ready == s.ready[1..] + [s.cur]
    decreases PcbOf(s, s.cur).ticks
  {
    hide Inv, SchedInv, LockInv, CtxOk, IdleInv, TimerHandler, Leads;
    InvFacts(s, KernelLock(0));
    Act(s0, s, Timer, idle, b, q);
    TickEffect(s);
    s' := TimerHandler(s);
    if PcbOf(s, s.cur).ticks != 0 { s' := Preempted(s0, s', idle, b, q); }
  }

  /** Interrupts are on, or the thread is outside the modelled functions and can turn them on. */
  predicate Open(c: Ctx) { c.pc == Program || InterruptsOn(c) }

  /** The same for a thread that may first have to turn interrupts on. */
  lemma Yields(s0: State, s: State, idle: Tid, b: Tid, q: QueueId) returns (s': State)
    requires Leads(s0, s, idle, b, q) && Good(s, idle) && s.ready != []
    requires Open(CtxOf(s, s.cur)) && CtxOf(s, b).pc != GetSlot(q)
    ensures Leads(s0, s', idle, b, q) && Good(s', idle)
    ensures s'.cur == s.ready[0] && s'.ready == s.ready[1..] + [s.cur] && s'.locks == s.locks && s'.queues == s.queues
    ensures forall t :: CtxOf(s', t).pc == CtxOf(s, t).pc && (t != s.cur ==> CtxOf(s', t) == CtxOf(s, t))
    ensures s'.pcbs.Keys == s.pcbs.Keys
  {
    hide Inv, IdleInv, Leads;
    if CtxOf(s, s.cur).pc == Program {
      Act(s0, s, SetIf(true), idle, b, q);
      s' := Preempted(s0, Next(s, SetIf(true)), idle, b, q);
    } else {
      s' := Preempted(s0, s, idle, b, q);
    }
  }

  // ---------- a waiting idle thread ----------

  /** One step that leaves the lists and the queues alone. */
  ghost predicate Quiet(s: State, s': State) {
    && s'.cur == s.cur && s'.ready == s.ready && s'.pcbs == s.pcbs && s'.queues == s.queues && s'.halted == s.halted
    && (forall t | t != s.cur :: CtxOf(s', t) == CtxOf(s, t))
    && CtxOf(s', s.cur).ifOn == CtxOf(s, s.cur).ifOn
    && (forall l :: LockAt(s', l).sema.waiters == LockAt(s, l).sema.waiters)
  }

  /** The points between the test of the buffer that sends a thread to the queue's lock, or the end of a
      wait for lock l, and the end of lock_acquire, with the lock free up to its decrement. */
  predicate Heading(s: State, l: LockId, who: Caller) {
    var pc := CtxOf(s, s.cur).pc;
    && (who == ByProgram <==> l.KernelLock?)
    && (|| (pc.GetTop? && l == QueueLock(pc.q) && who == ByGet && IsEmpty(QueueAt(s, pc.q).ring) && LockAt(s, l).sema.value == 1)
        || (pc.PutTop? && l == QueueLock(pc.q) && who == ByPut(pc.byte) && IsFull(QueueAt(s, pc.q).ring) && LockAt(s, l).sema.value == 1)
        || (pc.Acquire? && pc.l == l && pc.who == who && pc.acq in {Entry, Down, InLoop} && LockAt(s, l).sema.value == 1)
        || (pc.Acquire? && pc.l == l && pc.who == who && pc.acq in {SetHolder, CheckZero, SetOne})
        || pc == AfterAcquire(l, who))
  }

  function StepsLeft(pc: Pc): nat {
    match pc
    case GetTop(_) => 7
    case PutTop(_, _) => 7
    case Acquire(_, at, _) => (match at case Entry => 6 case Down => 5 case InLoop => 5 case SetHolder => 4 case CheckZero => 3 case SetOne => 2 case _ => 0)
    case _ => 1
  }

  lemma FreeLock(s: State, l: LockId)
    requires Inv(s) && LockAt(s, l).sema.value == 1
    ensures LockAt(s, l).holder == None && LockAt(s, l).repeat == 0
  {
    assert LockInv(s, l);
  }

  /** On its way the running thread gets one step closer. */
  lemma HeadingMoves(s: State, l: LockId, who: Caller)
    requires Inv(s) && !s.halted && Heading(s, l, who) && CtxOf(s, s.cur).pc != AfterAcquire(l, who)
    ensures var s' := Advance(s);
      && Heading(s', l, who) && Quiet(s, s') && !s'.halted
      && StepsLeft(CtxOf(s', s.cur).pc) == StepsLeft(CtxOf(s, s.cur).pc) - 1
  {
    hide Inv, SchedInv, LockInv, CtxOk, LockAcquire, GetLoop, PutLoop, Heading;
    var pc := CtxOf(s, s.cur).pc;
    InvFacts(s, l);
    HeadingPoint(s, l, who);
    if pc.GetTop? {
      HeadTop(s, pc.q);
    } else if pc.PutTop? {
      HeadPutTop(s, pc.q, pc.byte);
    } else {
      if LockAt(s, l).sema.value == 1 { FreeLock(s, l); }
      if pc.acq.CheckZero? { ZeroAtCheck(s, l); }
      HeadAcquire(s, l, pc.acq, who);
    }
  }

  lemma HeadingPoint(s: State, l: LockId, who: Caller)
    requires Heading(s, l, who) && CtxOf(s, s.cur).pc != AfterAcquire(l, who)
    ensures var pc := CtxOf(s, s.cur).pc;
      || (pc.GetTop? && l == QueueLock(pc.q) && who == ByGet)
      || (pc.PutTop? && l == QueueLock(pc.q) && who == ByPut(pc.byte))
      || (pc.Acquire? && pc == Acquire(l, pc.acq, who) && pc.acq in {Entry, Down, InLoop, SetHolder, CheckZero, SetOne}
          && (pc.acq in {Entry, Down, InLoop} ==> LockAt(s, l).sema.value == 1))
  {
  }

  lemma ZeroAtCheck(s: State, l: LockId)
    requires LockInv(s, l) && CtxOk(CtxOf(s, s.cur)) && CtxOf(s, s.cur).pc.Acquire? && CtxOf(s, s.cur).pc.l == l && CtxOf(s, s.cur).pc.acq.CheckZero?
    ensures LockAt(s, l).repeat == 0
  {
    OwnerIsSole(s, s.cur, l);
  }

  lemma HeadTop(s: State, q: QueueId)
    requires Heading(s, QueueLock(q), ByGet) && CtxOf(s, s.cur).pc == GetTop(q)
    ensures var s' := GetLoop(s, q);
      Heading(s', QueueLock(q), ByGet) && Quiet(s, s') && CtxOf(s', s.cur).pc == Acquire(QueueLock(q), Entry, ByGet)
  {
    hide GetByte;
  }

  lemma HeadPutTop(s: State, q: QueueId, ch: char)
    requires Heading(s, QueueLock(q), ByPut(ch)) && CtxOf(s, s.cur).pc == PutTop(q, ch)
    ensures var s' := PutLoop(s, q, ch);
      Heading(s', QueueLock(q), ByPut(ch)) && Quiet(s, s') && CtxOf(s', s.cur).pc == Acquire(QueueLock(q), Entry, ByPut(ch))
  {
    hide PutByte;
  }

  lemma HeadAcquire(s: State, l: LockId, at: AcqPoint, who: Caller)
    requires Heading(s, l, who) && CtxOf(s, s.cur).pc == Acquire(l, at, who)
    requires at in {Entry, Down, InLoop} ==> LockAt(s, l).holder == None && LockAt(s, l).sema.value == 1
    requires at in {Entry, Down, InLoop, SetHolder, CheckZero, SetOne}
    requires at.CheckZero? ==> LockAt(s, l).repeat == 0
    ensures var s' := LockAcquire(s, l, at, who);
      && Heading(s', l, who) && Quiet(s, s')
      && StepsLeft(CtxOf(s', s.cur).pc) == StepsLeft(CtxOf(s, s.cur).pc) - 1
  {
    hide ThreadBlock;
  }

  /** Inside the queue's functions interrupts are off, so only the running thread can move. */
  lemma OnlyContinue(s: State, q: QueueId, who: Caller, a: Action)
    requires Inv(s) && Enabled(s, a) && Heading(s, QueueLock(q), who)
    ensures a == Continue
  {
    hide Inv;
    InvFacts(s, KernelLock(0));
  }

  /** The thread goes on to the end of lock_acquire. */
  lemma {:induction false} HeadsOn(s0: State, s: State, l: LockId, who: Caller, idle: Tid, b: Tid, q: QueueId) returns (s': State)
    requires Leads(s0, s, idle, b, q) && Good(s, idle) && Heading(s, l, who) && (s.cur != b ==> CtxOf(s, b).pc != GetSlot(q))
    ensures Leads(s0, s', idle, b, q) && Good(s', idle) && CtxOf(s', s.cur).pc == AfterAcquire(l, who) && Quiet(s, s')
    decreases StepsLeft(CtxOf(s, s.cur).pc)
  {
    hide Inv, IdleInv, Leads, Advance, Disciplined, Heading;
    if CtxOf(s, s.cur).pc == AfterAcquire(l, who) {
      s' := s;
    } else {
      HeadingMoves(s, l, who);
      HeadingAllowed(s, l, who, idle);
      Act(s0, s, Continue, idle, b, q);
      s' := HeadsOn(s0, Advance(s), l, who, idle, b, q);
    }
  }

  lemma HeadingAllowed(s: State, l: LockId, who: Caller, idle: Tid)
    requires Heading(s, l, who) && CtxOf(s, s.cur).pc != AfterAcquire(l, who)
    ensures Disciplined(s, Continue, idle) && !CtxOf(s, s.cur).pc.GetSlot? && !CtxOf(s, s.cur).pc.Program?
  {
  }

  /** The ASSERT on the empty ready list does fire if the only thread there is reads an empty queue: a
      legal run from boot leads to a state whose next step halts. */
  lemma MainAloneHalts(s0: State, main: Tid, q: QueueId) returns (s: State)
    requires InitState(s0, main)
    ensures Reachable(s) && s.cur == main && Enabled(s, Continue) && Next(s, Continue).halted
  {
    hide Inv, IdleInv, Leads;
    InitInv(s0, main);
    LeadsNowhere(s0, main, main, q);
    Act(s0, s0, CallGet(q), main, main, q);
    var s1 := Next(s0, CallGet(q));
    s := HeadsOn(s0, s1, QueueLock(q), ByGet, main, main, q);
    LeadsFromBoot(s0, main, s, main, q);
    BlockingHaltsIff(s);
  }

  // ---------- a lock nested too deep ----------

  /** Where the running thread holds l to depth d and is outside the lock functions. */
  ghost predicate Holding(s: State, l: LockId, d: nat) {
    CtxOf(s, s.cur).pc == Program && Depth(CtxOf(s, s.cur), l) == d
  }

  lemma NestedSteps(s: State, n: nat)
    requires CtxOf(s, s.cur).pc == Acquire(KernelLock(n), Entry, ByProgram) && LockAt(s, KernelLock(n)).holder == Some(s.cur) && !s.halted
    ensures var s1 := Next(s, Continue); var s2 := Next(s1, Continue); var s3 := Next(s2, Continue);
      && !s1.halted && CtxOf(s1, s.cur).pc == Acquire(KernelLock(n), IncLoad, ByProgram) && s1.cur == s.cur
      && !s2.halted && CtxOf(s2, s.cur).pc == Acquire(KernelLock(n), IncStore(LockAt(s, KernelLock(n)).repeat), ByProgram) && s2.cur == s.cur
      && s3.cur == s.cur && Holding(s3, KernelLock(n), Depth(CtxOf(s, s.cur), KernelLock(n)) + 1)
  {
    hide SemaDown;
  }

  /** One more nested acquisition. */
  lemma NestOnce(s0: State, s: State, n: nat, d: nat, idle: Tid) returns (s': State)
    requires Leads(s0, s, idle, s.cur, 0) && Good(s, idle) && Holding(s, KernelLock(n), d) && 1 <= d && d + 1 < U32
    ensures s'.cur == s.cur && Leads(s0, s', idle, s.cur, 0) && Good(s', idle) && Holding(s', KernelLock(n), d + 1)
  {
    hide Inv, IdleInv, Leads, LockInv, SoleOwner, CtxOk, SchedInv, LockAcquire;
    var l, b := KernelLock(n), s.cur;
    InvFacts(s, l);
    OwnerIsSole(s, s.cur, l);
    OwnerFields(s, l);
    Act(s0, s, CallAcquire(l), idle, b, 0);
    var s1 := Next(s, CallAcquire(l));
    NestedSteps(s1, n);
    Act(s0, s1, Continue, idle, b, 0);
    var s2 := Next(s1, Continue);
    Act(s0, s2, Continue, idle, b, 0);
    var s3 := Next(s2, Continue);
    Act(s0, s3, Continue, idle, b, 0);
    s' := Next(s3, Continue);
  }

  lemma {:induction false} NestTo(s0: State, s: State, n: nat, d: nat, goal: nat, idle: Tid) returns (s': State)
    requires Leads(s0, s, idle, s.cur, 0) && Good(s, idle) && Holding(s, KernelLock(n), d) && 1 <= d <= goal < U32
    ensures s'.cur == s.cur && Leads(s0, s', idle, s.cur, 0) && Good(s', idle) && Holding(s', KernelLock(n), goal)
    decreases goal - d
  {
    hide Inv, IdleInv, Leads, Holding;
    s' := s;
    if d < goal {
      s' := NestOnce(s0, s, n, d, idle);
      s' := NestTo(s0, s', n, d + 1, goal, idle);
    }
  }

  lemma FirstSteps(s: State, n: nat)
    requires CtxOf(s, s.cur).pc == Acquire(KernelLock(n), Entry, ByProgram) && !s.halted && LockAt(s, KernelLock(n)) == LockInit()
    ensures var l, t := KernelLock(n), s.cur;
      var s1 := Next(s, Continue); var s2 := Next(s1, Continue); var s3 := Next(s2, Continue); var s4 := Next(s3, Continue); var s5 := Next(s4, Continue);
      && !s1.halted && s1.cur == t && CtxOf(s1, t).pc == Acquire(l, Down, ByProgram) && LockAt(s1, l).sema.value == 1
      && !s2.halted && s2.cur == t && CtxOf(s2, t).pc == Acquire(l, SetHolder, ByProgram)
      && !s3.halted && s3.cur == t && CtxOf(s3, t).pc == Acquire(l, CheckZero, ByProgram)
      && !s4.halted && s4.cur == t && CtxOf(s4, t).pc == Acquire(l, SetOne, ByProgram)
      && s5.cur == t && Holding(s5, l, Depth(CtxOf(s, t), l) + 1)
  {
    hide ThreadBlock;
    var l, t := KernelLock(n), s.cur;
    var s1 := Next(s, Continue);
    assert CtxOf(s1, t).pc == Acquire(l, Down, ByProgram) && LockAt(s1, l) == LockInit();
    var s2 := Next(s1, Continue);
    assert CtxOf(s2, t).pc == Acquire(l, SetHolder, ByProgram) && LockAt(s2, l).repeat == 0;
    var s3 := Next(s2, Continue);
    assert CtxOf(s3, t).pc == Acquire(l, CheckZero, ByProgram) && LockAt(s3, l).repeat == 0;
    assert Depth(CtxOf(s3, t), l) == Depth(CtxOf(s, t), l);
  }

  /** A thread alone can nest a lock 2^32 - 1 deep, legally; one more acquisition and its release then
      stop the machine. */
  lemma NestingHalts(s0: State, main: Tid, n: nat) returns (s: State)
    requires InitState(s0, main)
    ensures Reachable(s) && CtxOf(s, s.cur).pc == Program
    ensures var s1 := Next(Next(Next(Next(s, CallAcquire(KernelLock(n))), Continue), Continue), Continue);
      Next(Next(Next(Next(s1, CallRelease(KernelLock(n))), Continue), Continue), Continue).halted
  {
    hide Inv, IdleInv, Leads, LockAcquire, Next;
    var l := KernelLock(n);
    InitInv(s0, main);
    LeadsNowhere(s0, main, main, 0);
    Act(s0, s0, CallAcquire(l), main, main, 0);
    var a := Next(s0, CallAcquire(l));
    CalledAcquire(s0, n, main);
    FirstSteps(a, n);
    Act(s0, a, Continue, main, main, 0);
    var a1 := Next(a, Continue);
    Act(s0, a1, Continue, main, main, 0);
    var a2 := Next(a1, Continue);
    Act(s0, a2, Continue, main, main, 0);
    var a3 := Next(a2, Continue);
    Act(s0, a3, Continue, main, main, 0);
    var a4 := Next(a3, Continue);
    Act(s0, a4, Continue, main, main, 0);
    var a5 := Next(a4, Continue);
    s := NestTo(s0, a5, n, 1, U32 - 1, main);
    LeadsFromBoot(s0, main, s, main, 0);
    NestingHaltsIff(s, l);
  }

  lemma CalledAcquire(s0: State, n: nat, main: Tid)
    requires InitState(s0, main)
    ensures var a := Next(s0, CallAcquire(KernelLock(n)));
      && a.cur == main && !a.halted && CtxOf(a, main).pc == Acquire(KernelLock(n), Entry, ByProgram)
      && LockAt(a, KernelLock(n)) == LockInit() && Depth(CtxOf(a, main), KernelLock(n)) == 0
  {
  }
}
