/**
 The order in which threads wait and are woken.
 */
module KernelOrder {
  import opened Words
  import opened KernelState
  import opened KernelInv

  // ---------- one step ----------

  /** A queue of threads between two moments: unchanged, one joined at the end, or the first left. */
  predicate FifoStep(w: seq<Tid>, w': seq<Tid>, joins: Tid) {
    w' == w || w' == w + [joins] || (w != [] && w' == w[1..])
  }

  /** Whatever happens, the waiter list of a lock changes only by the running thread joining at its end
      or its first thread being woken. */
  lemma WaitersStep(s: State, a: Action, l: LockId)
    ensures FifoStep(LockAt(s, l).sema.waiters, LockAt(Next(s, a), l).sema.waiters, s.cur)
  {
    hide Advance, TimerHandler, PutByte, ThreadStart;
    match a {
      case Continue => ContinueFifo(s, l);
      case Timer => TimerOnly(s);
      case Key(q, b) => BytesOnly(s, q, b);
      case Spawn(t, prio) => assert ThreadStart(s, t, prio).locks == s.locks by { StartOnly(s, t, prio); }
      case _ =>
    }
  }

  lemma StartOnly(s: State, t: Tid, prio: int)
    ensures ThreadStart(s, t, prio).locks == s.locks
  {
  }

  lemma ScheduleOnly(s: State)
    ensures Schedule(s).locks == s.locks
  {
    hide Requeue, Dispatch, PcbOf;
    RequeueOnly(s);
    DispatchOnly(Requeue(s));
  }

  lemma RequeueOnly(s: State)
    ensures Requeue(s).locks == s.locks
  {
  }

  lemma DispatchOnly(s: State)
    ensures Dispatch(s).locks == s.locks
  {
  }

  lemma TimerOnly(s: State)
    ensures TimerHandler(s).locks == s.locks
  {
    hide Schedule, PcbOf;
    ScheduleOnly(CountTick(s));
  }

  lemma BlockOnly(s: State)
    ensures ThreadBlock(s, Blocked).locks == s.locks
  {
    hide Schedule, PcbOf;
    ScheduleOnly(WithPcb(s, s.cur, PcbOf(s, s.cur).(status := Blocked)));
  }

  lemma UnblockOnly(s: State, t: Tid)
    ensures ThreadUnblock(s, t).locks == s.locks
  {
  }

  lemma BytesOnly(s: State, q: QueueId, b: char)
    ensures PutByte(s, q, b).locks == s.locks && GetByte(s, q).locks == s.locks
  {
    hide ThreadUnblock, RingPut, RingGet;
    var k := QueueAt(s, q);
    if k.consumer.Some? { UnblockOnly(WithQueue(s, q, k.(ring := RingPut(k.ring, b))), k.consumer.value); }
    if k.producer.Some? { UnblockOnly(WithQueue(s, q, k.(ring := RingGet(k.ring))), k.producer.value); }
  }

  lemma ContinueFifo(s: State, l: LockId)
    ensures FifoStep(LockAt(s, l).sema.waiters, LockAt(Advance(s), l).sema.waiters, s.cur)
  {
    hide LockAcquire, LockRelease, GetLoop, PutLoop, WaitConsumer, WaitProducer, FifoStep, LockAt;
    match CtxOf(s, s.cur).pc {
      case Acquire(m, at, who) => AcquireFifo(s, m, at, who, l);
      case Release(m, at, who) => ReleaseFifo(s, m, at, who, l);
      case GetTop(q) => QueueOnly(s, q, '\0', l);
      case PutTop(q, b) => QueueOnly(s, q, b, l);
      case GetWait(q) => QueueOnly(s, q, '\0', l);
      case PutWait(q, b) => QueueOnly(s, q, b, l);
      case Program => SameFifo(s, s, l);
      case GetSlot(q) => SameFifo(s, Advance(s), l);
      case PutSlot(q, b) => SameFifo(s, Advance(s), l);
    }
  }

  lemma SameFifo(s: State, s': State, l: LockId)
    requires s'.locks == s.locks
    ensures FifoStep(LockAt(s, l).sema.waiters, LockAt(s', l).sema.waiters, s.cur)
  {
  }

  lemma QueueOnly(s: State, q: QueueId, b: char, l: LockId)
    ensures FifoStep(LockAt(s, l).sema.waiters, LockAt(GetLoop(s, q), l).sema.waiters, s.cur)
    ensures FifoStep(LockAt(s, l).sema.waiters, LockAt(PutLoop(s, q, b), l).sema.waiters, s.cur)
    ensures FifoStep(LockAt(s, l).sema.waiters, LockAt(WaitConsumer(s, q), l).sema.waiters, s.cur)
    ensures FifoStep(LockAt(s, l).sema.waiters, LockAt(WaitProducer(s, q, b), l).sema.waiters, s.cur)
  {
    hide FifoStep, LockAt, ThreadBlock, PutByte, GetByte;
    var k := QueueAt(s, q);
    BytesOnly(s, q, b);
    BlockOnly(Goto(WithQueue(s, q, k.(consumer := Some(s.cur))), GetSlot(q)));
    BlockOnly(Goto(WithQueue(s, q, k.(producer := Some(s.cur))), PutSlot(q, b)));
    assert GetLoop(s, q).locks == s.locks && PutLoop(s, q, b).locks == s.locks;
    assert WaitConsumer(s, q).locks == s.locks && WaitProducer(s, q, b).locks == s.locks;
    hide GetLoop, PutLoop, WaitConsumer, WaitProducer;
    SameFifo(s, GetLoop(s, q), l);
    SameFifo(s, PutLoop(s, q, b), l);
    SameFifo(s, WaitConsumer(s, q), l);
    SameFifo(s, WaitProducer(s, q, b), l);
  }

  lemma AcquireFifo(s: State, m: LockId, at: AcqPoint, who: Caller, l: LockId)
    ensures FifoStep(LockAt(s, l).sema.waiters, LockAt(LockAcquire(s, m, at, who), l).sema.waiters, s.cur)
  {
    hide SemaDown, AfterAcquire, Depth;
    if at.Down? || at.InLoop? {
      DownFifo(s, m, who, l);
    } else {
      assert LockAt(LockAcquire(s, m, at, who), l).sema == LockAt(s, l).sema;
    }
  }

  lemma DownFifo(s: State, m: LockId, who: Caller, l: LockId)
    ensures FifoStep(LockAt(s, l).sema.waiters, LockAt(SemaDown(s, m, who), l).sema.waiters, s.cur)
  {
    hide ThreadBlock;
    var k := LockAt(s, m);
    BlockOnly(Goto(WithLock(s, m, WithSema(k, 0, k.sema.waiters + [s.cur])), Acquire(m, InLoop, who)));
  }

  lemma UpFifo(s: State, m: LockId, who: Caller, l: LockId)
    ensures FifoStep(LockAt(s, l).sema.waiters, LockAt(SemaUp(s, m, who), l).sema.waiters, s.cur)
  {
    hide SemaWake, AfterRelease, Depth;
    WakeFifo(s, m, l);
    assert LockAt(SemaUp(s, m, who), l).sema.waiters == LockAt(if SemaUp(s, m, who) == Halt(s) then s else SemaWake(s, m), l).sema.waiters;
  }

  lemma WakeFifo(s: State, m: LockId, l: LockId)
    ensures FifoStep(LockAt(s, l).sema.waiters, LockAt(SemaWake(s, m), l).sema.waiters, s.cur)
  {
    hide ThreadUnblock;
    var k := LockAt(s, m);
    if k.sema.waiters != [] { UnblockOnly(WithLock(s, m, WithSema(k, k.sema.value, k.sema.waiters[1..])), k.sema.waiters[0]); }
  }

  lemma ReleaseFifo(s: State, m: LockId, at: RelPoint, who: Caller, l: LockId)
    ensures FifoStep(LockAt(s, l).sema.waiters, LockAt(LockRelease(s, m, at, who), l).sema.waiters, s.cur)
  {
    hide SemaUp, AfterRelease, Depth;
    if at.Up? {
      UpFifo(s, m, who, l);
    } else {
      assert LockAt(LockRelease(s, m, at, who), l).sema == LockAt(s, l).sema;
    }
  }

  /** A thread that was unblocked goes to the front: the next switch goes to it. */
  lemma WokenRunsNext(s: State, t: Tid)
    requires SchedInv(s) && !s.halted && IsBlocked(s, t)
    ensures var s' := ThreadUnblock(s, t); !s'.halted && s'.cur == s.cur && Schedule(s').cur == t && Schedule(s').ready == s.ready + [s.cur]
  {
    assert StatusOk(s, t) && StatusOk(s, s.cur);
    var s' := ThreadUnblock(s, t);
    assert s'.ready == [t] + s.ready && s.cur !in s'.ready;
    assert Requeue(s').ready == [t] + (s.ready + [s.cur]);
  }

  // ---------- runs ----------

  function Waiters(s: State, l: LockId): seq<Tid> { LockAt(s, l).sema.waiters }

  /** The threads that joined the waiters of l along the run, in order. */
  function Joined(s: State, run: seq<Action>, l: LockId): seq<Tid>
    decreases |run|
  {
    if run == [] then []
    else
      var s' := Next(s, run[0]);
      (if |Waiters(s', l)| > |Waiters(s, l)| then [s.cur] else []) + Joined(s', run[1..], l)
  }

  /** How many threads were taken off the waiters of l along the run. */
  function Left(s: State, run: seq<Action>, l: LockId): nat
    decreases |run|
  {
    if run == [] then 0
    else
      var s' := Next(s, run[0]);
      (if |Waiters(s', l)| < |Waiters(s, l)| then 1 else 0) + Left(s', run[1..], l)
  }

  /** Theorem: after any run of anything the waiters are those that were there, followed by those that
      joined, in order, without as many from the front as were woken. */
  lemma {:induction false} WaitersAreFifo(s: State, run: seq<Action>, l: LockId)
    ensures Left(s, run, l) <= |Waiters(s, l) + Joined(s, run, l)|
    ensures Waiters(Exec(s, run), l) == (Waiters(s, l) + Joined(s, run, l))[Left(s, run, l)..]
    decreases |run|
  {
    hide Next;
    if run != [] {
      var s' := Next(s, run[0]);
      WaitersStep(s, run[0], l);
      WaitersAreFifo(s', run[1..], l);
      Prepend(Waiters(s, l), Waiters(s', l), s.cur, Joined(s', run[1..], l), Left(s', run[1..], l));
    }
  }

  lemma Prepend(w: seq<Tid>, w': seq<Tid>, t: Tid, js: seq<Tid>, d: nat)
    requires FifoStep(w, w', t) && d <= |w' + js|
    ensures var js' := (if |w'| > |w| then [t] else []) + js; var d' := (if |w'| < |w| then 1 else 0) + d;
      d' <= |w + js'| && (w + js')[d'..] == (w' + js)[d..]
  {
    if w' == w + [t] {
      assert w + ([t] + js) == w' + js;
    } else if w' != w {
      assert w + js == [w[0]] + (w' + js);
    } else {
      assert [] + js == js;
    }
  }

  lemma {:induction false} LeftByOne(s: State, run: seq<Action>, l: LockId)
    requires run != []
    ensures var before := Left(s, run[..|run| - 1], l); before <= Left(s, run, l) <= before + 1
    decreases |run|
  {
    hide Next;
    if |run| == 1 {
      assert run[1..] == [] && run[..0] == [];
    } else {
      assert run[..|run| - 1][1..] == run[1..][..|run[1..]| - 1] && run[..|run| - 1][0] == run[0];
      LeftByOne(Next(s, run[0]), run[1..], l);
    }
  }

  /** After k steps exactly the j threads in front of the j-th waiter had been woken, and it was next. */
  ghost predicate TurnOf(s: State, run: seq<Action>, l: LockId, j: nat, k: nat)
    requires j < |Waiters(s, l)|
  {
    && k < |run| && Left(s, run[..k], l) == j
    && Waiters(Exec(s, run[..k]), l) != [] && Waiters(Exec(s, run[..k]), l)[0] == Waiters(s, l)[j]
  }

  /** Theorem: when a waiter has been woken, there was a moment before at which every waiter in front of
      it had been woken and it had not. */
  lemma {:induction false} WokenInOrder(s: State, run: seq<Action>, l: LockId, j: nat)
    requires j < |Waiters(s, l)| && Left(s, run, l) > j
    ensures exists k: nat :: TurnOf(s, run, l, j, k)
    decreases |run|
  {
    hide Next;
    var shorter := run[..|run| - 1];
    LeftByOne(s, run, l);
    if Left(s, shorter, l) > j {
      WokenInOrder(s, shorter, l, j);
      var k: nat :| TurnOf(s, shorter, l, j, k);
      assert shorter[..k] == run[..k];
      assert TurnOf(s, run, l, j, k);
    } else {
      WaitersAreFifo(s, shorter, l);
      assert (Waiters(s, l) + Joined(s, shorter, l))[j..][0] == Waiters(s, l)[j];
      assert TurnOf(s, run, l, j, |run| - 1);
    }
  }
}
