/**
 What every run from boot guarantees, stated about the state itself.
 */
module KernelTheorems {
  import opened Words
  import opened KernelState
  import opened KernelInv
  import opened KernelSteps
  import opened KernelSwitches
  import opened KernelRuns

  /** s is reached by a legal run from the state thread_init leaves, with main never waiting. */
  ghost predicate Reachable(s: State) {
    exists s0: State, main: Tid, run: seq<Action> :: InitState(s0, main) && LegalRun(s0, run, main) && s == Exec(s0, run)
  }

  lemma ReachableInv(s: State)
    requires Reachable(s)
    ensures Inv(s) && !s.halted
  {
    hide Inv;
    var s0: State, main: Tid, run: seq<Action> :| InitState(s0, main) && LegalRun(s0, run, main) && s == Exec(s0, run);
    InitInv(s0, main);
    RunKeeps(s0, run, main);
  }

  /** Theorem: no ASSERT or PANIC of the modelled functions ever fires, the one on an empty
      ready list included. */
  lemma NoAssertFires(s0: State, main: Tid, run: seq<Action>)
    requires InitState(s0, main) && LegalRun(s0, run, main)
    ensures !Exec(s0, run).halted
  {
    hide Inv;
    InitInv(s0, main);
    RunKeeps(s0, run, main);
  }

  // ---------- mutual exclusion ----------

  ghost function Owners(s: State, l: LockId): set<Tid> {
    set t | t in s.pcbs && Owns(CtxOf(s, t), l)
  }

  /** Theorem: the value of the semaphore and the threads between its decrement and its
      increment add up to one; a holder is that one thread, and outside the two lock
      functions the count is its nesting depth. */
  lemma MutualExclusion(s: State, l: LockId)
    requires Reachable(s)
    ensures LockAt(s, l).sema.value + |Owners(s, l)| == 1
    ensures forall t: Tid :: LockAt(s, l).holder == Some(t) ==> Owners(s, l) == {t}
    ensures forall t | t in s.pcbs && Depth(CtxOf(s, t), l) > 0 && Elsewhere(CtxOf(s, t).pc, l) ::
      LockAt(s, l).holder == Some(t) && LockAt(s, l).repeat == Depth(CtxOf(s, t), l)
    ensures forall t :: Depth(CtxOf(s, t), l) > 0 ==> LockAt(s, l).sema.value == 0
  {
    ReachableInv(s);
    InvFacts(s, l);
    hide Inv, SchedInv;
    if LockAt(s, l).sema.value == 1 {
      assert Owners(s, l) == {};
    } else {
      var u: Tid :| SoleOwner(s, u, l);
      assert Owners(s, l) == {u};
    }
  }

  /** lock_release stops the machine exactly when its caller does not hold the lock. */
  lemma ReleaseHaltsIff(s: State, l: LockId)
    requires Inv(s) && !s.halted && CtxOf(s, s.cur).pc == Program
    ensures Next(Next(s, CallRelease(l)), Continue).halted <==> Depth(CtxOf(s, s.cur), l) == 0
  {
    InvFacts(s, l);
    hide Inv, SchedInv;
    var c := CtxOf(s, s.cur);
    if Depth(c, l) > 0 {
      OwnerIsSole(s, s.cur, l);
    } else if LockAt(s, l).holder == Some(s.cur) {
      HolderOwns(s, s.cur, l);
      assert false;
    }
  }

  lemma OwnerFields(s: State, l: LockId)
    requires SoleOwner(s, s.cur, l) && CtxOf(s, s.cur).pc == Program
    ensures LockAt(s, l).holder == Some(s.cur) && LockAt(s, l).repeat == Depth(CtxOf(s, s.cur), l)
  {
  }

  /** A nested acquisition followed by its release goes wrong exactly when the 32-bit count wraps. */
  lemma NestingHaltsIff(s: State, l: LockId)
    requires Inv(s) && !s.halted && CtxOf(s, s.cur).pc == Program && Depth(CtxOf(s, s.cur), l) >= 1
    ensures
      var s1 := Next(Next(Next(Next(s, CallAcquire(l)), Continue), Continue), Continue);
      && CtxOf(s1, s.cur).pc == Program && Depth(CtxOf(s1, s.cur), l) == Depth(CtxOf(s, s.cur), l) + 1
      && (Next(Next(Next(Next(s1, CallRelease(l)), Continue), Continue), Continue).halted
          <==> Depth(CtxOf(s, s.cur), l) + 1 == U32)
  {
    hide Inv, SchedInv, LockInv, SoleOwner, CtxOk, Next;
    InvFacts(s, l);
    OwnerIsSole(s, s.cur, l);
    OwnerFields(s, l);
    var d := Depth(CtxOf(s, s.cur), l);
    NestingAcquire(s, l);
    var s1 := Next(Next(Next(Next(s, CallAcquire(l)), Continue), Continue), Continue);
    assert LockAt(s1, l).repeat == (d + 1) % U32;
    NestingRelease(s1, l);
  }

  lemma NestingAcquire(s: State, l: LockId)
    requires CtxOf(s, s.cur).pc == Program && LockAt(s, l).holder == Some(s.cur) && !s.halted
    ensures var s1 := Next(Next(Next(Next(s, CallAcquire(l)), Continue), Continue), Continue);
      && CtxOf(s1, s.cur).pc == Program && Depth(CtxOf(s1, s.cur), l) == Depth(CtxOf(s, s.cur), l) + 1
      && s1.cur == s.cur && !s1.halted
      && LockAt(s1, l).holder == Some(s.cur) && LockAt(s1, l).repeat == (LockAt(s, l).repeat + 1) % U32
  {
    hide SemaDown;
    var d, n := Depth(CtxOf(s, s.cur), l), LockAt(s, l).repeat;
    var a1 := Next(s, CallAcquire(l));
    assert CtxOf(a1, s.cur).pc == Acquire(l, Entry, ByProgram) && LockAt(a1, l) == LockAt(s, l);
    var a2 := Next(a1, Continue);
    assert CtxOf(a2, s.cur).pc == Acquire(l, IncLoad, ByProgram) && LockAt(a2, l) == LockAt(s, l);
    var a3 := Next(a2, Continue);
    assert CtxOf(a3, s.cur).pc == Acquire(l, IncStore(n), ByProgram) && LockAt(a3, l) == LockAt(s, l);
    assert Depth(CtxOf(a3, s.cur), l) == d;
  }

  lemma NestingRelease(s: State, l: LockId)
    requires CtxOf(s, s.cur).pc == Program && LockAt(s, l).holder == Some(s.cur) && !s.halted
    ensures Next(Next(Next(Next(s, CallRelease(l)), Continue), Continue), Continue).halted <==> LockAt(s, l).repeat == 0
  {
    var r1 := Next(s, CallRelease(l));
    assert r1.cur == s.cur && LockAt(r1, l) == LockAt(s, l) && CtxOf(r1, s.cur).pc == Release(l, CheckHolder, ByProgram);
    var r2 := Next(r1, Continue);
    assert r2.cur == s.cur && LockAt(r2, l) == LockAt(s, l) && CtxOf(r2, s.cur).pc == Release(l, Test, ByProgram);
    var r3 := Next(r2, Continue);
    assert r3.cur == s.cur && LockAt(r3, l) == LockAt(s, l) && !r3.halted;
  }

  // ---------- wake-ups ----------

  /** Theorem: while a lock is free and threads wait for it, some thread already taken off the
      waiter list stands in sema_down's loop, ready or running, and will test the value again. */
  lemma NoLostWakeup(s: State, l: LockId)
    requires Reachable(s)
    requires LockAt(s, l).sema.value == 1 && LockAt(s, l).sema.waiters != []
    ensures exists t :: && t in s.pcbs && (t == s.cur || t in s.ready)
                        && AtLoop(CtxOf(s, t).pc, l) && t !in LockAt(s, l).sema.waiters
  {
    ReachableInv(s);
    var t :| Woken(s, t, l);
    assert StatusOk(s, t) && WaitersInv(s, l);
    assert t in s.pcbs && (t == s.cur || t in s.ready) && AtLoop(CtxOf(s, t).pc, l) && t !in LockAt(s, l).sema.waiters;
  }

  // ---------- thread conservation ----------

  datatype Place = OnCpu | InReady | InWaiters(l: LockId) | InConsumer(q: QueueId) | InProducer(q: QueueId)

  predicate At(s: State, t: Tid, p: Place) {
    match p
    case OnCpu => t == s.cur
    case InReady => t in s.ready
    case InWaiters(l) => t in LockAt(s, l).sema.waiters
    case InConsumer(q) => QueueAt(s, q).consumer == Some(t)
    case InProducer(q) => QueueAt(s, q).producer == Some(t)
  }

  function PlaceStatus(p: Place): Status {
    match p case OnCpu => Running case InReady => Ready case _ => Blocked
  }

  function Home(s: State, t: Tid): Place
    requires t in s.pcbs
  {
    if t == s.cur then OnCpu
    else if t in s.ready then InReady
    else match CtxOf(s, t).pc
      case Acquire(l, _, _) => InWaiters(l)
      case GetSlot(q) => InConsumer(q)
      case PutSlot(q, _) => InProducer(q)
      case _ => OnCpu
  }

  lemma PlaceFixesStatus(s: State, t: Tid, p: Place)
    requires Inv(s) && t in s.pcbs && At(s, t, p)
    ensures p == Home(s, t) && s.pcbs[t].status == PlaceStatus(p)
  {
    assert StatusOk(s, t);
    match p {
      case InWaiters(l) => assert WaitersInv(s, l);
      case InConsumer(q) => assert SlotsInv(s, q);
      case InProducer(q) => assert SlotsInv(s, q);
      case _ =>
    }
  }

  /** Theorem: every created thread is in exactly one place, at most once in any list, and its
      status names that place; a thread that was not created is in none. */
  lemma ThreadConservation(s: State, t: Tid)
    requires Reachable(s)
    ensures NoDup(s.ready) && forall l :: NoDup(LockAt(s, l).sema.waiters)
    ensures t !in s.pcbs ==> forall p :: !At(s, t, p)
    ensures t in s.pcbs ==>
      && At(s, t, Home(s, t)) && s.pcbs[t].status == PlaceStatus(Home(s, t))
      && (forall p :: At(s, t, p) ==> p == Home(s, t))
  {
    ReachableInv(s);
    forall l ensures NoDup(LockAt(s, l).sema.waiters) { assert WaitersInv(s, l); }
    forall p | At(s, t, p) ensures t in s.pcbs {
      match p {
        case InWaiters(l) => assert WaitersInv(s, l);
        case InConsumer(q) => assert SlotsInv(s, q);
        case InProducer(q) => assert SlotsInv(s, q);
        case _ =>
      }
    }
    if t in s.pcbs {
      HomeIsPlace(s, t);
      forall p | At(s, t, p) ensures p == Home(s, t) { PlaceFixesStatus(s, t, p); }
    }
  }

  lemma HomeIsPlace(s: State, t: Tid)
    requires Inv(s) && t in s.pcbs
    ensures At(s, t, Home(s, t)) && s.pcbs[t].status == PlaceStatus(Home(s, t))
  {
    assert StatusOk(s, t);
    if t != s.cur && t !in s.ready {
      assert IsBlocked(s, t) && CanBlock(CtxOf(s, t).pc);
      match CtxOf(s, t).pc {
        case Acquire(l, _, _) => assert WaitersInv(s, l);
        case GetSlot(q) => assert SlotsInv(s, q);
        case PutSlot(q, _) => assert SlotsInv(s, q);
      }
    }
  }

  /** The assertion in schedule fires on a blocking step exactly when no other thread is ready. */
  lemma BlockingHaltsIff(s: State)
    requires Inv(s) && !s.halted && Blocks(s, Continue)
    ensures Advance(s).halted <==> s.ready == []
  {
    InvFacts(s, KernelLock(0));
    assert StatusOk(s, s.cur);
    var pc := CtxOf(s, s.cur).pc;
    if pc.GetWait? || pc.PutWait? {
      SlotsFree(s, pc.q);
    } else {
      NotWaiting(s, pc.l);
    }
  }

  // ---------- queues ----------

  lemma RingFacts(r: Ring)
    requires RingOk(r)
    ensures |r.buf| == 1024 && r.head < 1024 && r.tail < 1024
    ensures r.put == r.got + Contents(r) && r.got <= r.put
    ensures |Contents(r)| == (r.head + 1024 - r.tail) % 1024
    ensures IsEmpty(r) <==> Contents(r) == []
    ensures IsFull(r) <==> |Contents(r)| == 1023
  {
  }

  /** Theorem: bytes come out in the order they went in, the buffer holds what has not come out
      yet, and that is never more than 1023 bytes. */
  lemma QueueIsFifo(s: State, q: QueueId)
    requires Reachable(s)
    ensures var r := QueueAt(s, q).ring;
      && |r.buf| == 1024 && r.head < 1024 && r.tail < 1024
      && r.put == r.got + Contents(r)
      && r.got <= r.put
      && |Contents(r)| <= 1023
      && (IsEmpty(r) <==> Contents(r) == []) && (IsFull(r) <==> |Contents(r)| == 1023)
  {
    hide Inv;
    ReachableInv(s);
    QueueFacts(s, q);
    hide SlotsInv, SchedInv, RingOk, Contents;
    RingFacts(QueueAt(s, q).ring);
  }
}
