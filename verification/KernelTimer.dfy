/**
 Time slices: the exact round-robin schedule, and the tick accounting of whole runs.
 */
module KernelTimer {
  import opened Words
  import opened KernelState
  import opened KernelInv
  import opened KernelSteps
  import opened KernelSwitches
  import opened KernelRuns

  // ---------- round robin ----------

  function Ticks(s: State, n: nat): State
    decreases n
  {
    if n == 0 then s else Ticks(TimerHandler(s), n - 1)
  }

  /** How many interrupts pass while the given threads use up what is left of their slices. */
  function Slices(s: State, ts: seq<Tid>): nat
    decreases |ts|
  {
    if ts == [] then 0 else PcbOf(s, ts[0]).ticks + 1 + Slices(s, ts[1..])
  }

  lemma {:induction false} TicksAdd(s: State, m: nat, n: nat)
    ensures Ticks(s, m + n) == Ticks(Ticks(s, m), n)
    decreases m
  {
    hide TimerHandler;
    if m > 0 { TicksAdd(TimerHandler(s), m - 1, n); }
  }

  /** The running thread keeps the CPU for `ticks` more interrupts. */
  lemma {:induction false} WithinSlice(s: State, n: nat)
    requires SchedInv(s) && n <= PcbOf(s, s.cur).ticks
    ensures var s' := Ticks(s, n);
      && SchedInv(s') && s'.cur == s.cur && s'.ready == s.ready && PcbOf(s', s.cur).ticks == PcbOf(s, s.cur).ticks - n
      && (forall t | t != s.cur :: PcbOf(s', t) == PcbOf(s, t))
    decreases n
  {
    if n > 0 {
      TimerEffect(s);
      var s1 := TimerHandler(s);
      assert s1.cur == s.cur && s1.ready == s.ready && PcbOf(s1, s.cur).ticks == PcbOf(s, s.cur).ticks - 1;
      assert forall t | t != s.cur :: PcbOf(s1, t) == PcbOf(s, t);
      hide TimerHandler, SchedInv;
      WithinSlice(s1, n - 1);
    }
  }

  /** The next interrupt after that hands the CPU to the head of the ready list. */
  lemma SliceEnds(s: State)
    requires SchedInv(s) && s.ready != []
    ensures var s' := Ticks(s, PcbOf(s, s.cur).ticks + 1);
      && SchedInv(s') && s'.cur == s.ready[0] && s'.ready == s.ready[1..] + [s.cur]
      && (forall t | t != s.cur :: PcbOf(s', t).ticks == PcbOf(s, t).ticks)
  {
    var n := PcbOf(s, s.cur).ticks;
    WithinSlice(s, n);
    TicksAdd(s, n, 1);
    var s1 := Ticks(s, n);
    assert Ticks(s1, 1) == TimerHandler(s1) by { assert Ticks(TimerHandler(s1), 0) == TimerHandler(s1); }
    SwitchAtZero(s1);
    hide TimerHandler, SchedInv;
  }

  lemma SwitchAtZero(s: State)
    requires SchedInv(s) && s.ready != [] && PcbOf(s, s.cur).ticks == 0
    ensures var s' := TimerHandler(s);
      && SchedInv(s') && s'.cur == s.ready[0] && s'.ready == s.ready[1..] + [s.cur]
      && (forall t | t != s.cur :: PcbOf(s', t).ticks == PcbOf(s, t).ticks)
  {
    TimerEffect(s);
    assert StatusOk(s, s.cur);
    assert (s.ready + [s.cur])[1..] == s.ready[1..] + [s.cur];
  }

  lemma {:induction false} SlicesSame(s: State, s': State, ts: seq<Tid>)
    requires forall t | t in ts :: PcbOf(s', t).ticks == PcbOf(s, t).ticks
    ensures Slices(s', ts) == Slices(s, ts)
    decreases |ts|
  {
    if ts != [] { SlicesSame(s, s', ts[1..]); }
  }

  /** Theorem: under timer interrupts alone the i-th ready thread gets the CPU at exactly the
      interrupt after the slices of the running thread and of the threads before it, and keeps
      it for its own slice. */
  lemma {:induction false} RoundRobin(s: State, i: nat, k: nat)
    requires SchedInv(s) && i < |s.ready| && k <= PcbOf(s, s.ready[i]).ticks
    ensures Ticks(s, Slices(s, [s.cur] + s.ready[..i]) + k).cur == s.ready[i]
    decreases i
  {
    hide SchedInv, Ticks, Slices;
    var first := PcbOf(s, s.cur).ticks + 1;
    SliceEnds(s);
    SlicesCons(s, s.cur, s.ready[..i]);
    var d := Slices(s, s.ready[..i]);
    TicksAdd(s, first, d + k);
    NotRunning(s, i);
    if i == 0 {
      SlicesNone(s);
      WithinSlice(Ticks(s, first), k);
    } else {
      AfterSlice(s, Ticks(s, first), i);
      RoundRobin(Ticks(s, first), i - 1, k);
    }
  }

  lemma SlicesNone(s: State)
    ensures Slices(s, []) == 0
  {
  }

  /** What remains of the wait, counted in the state after the running thread's slice. */
  lemma AfterSlice(s: State, s1: State, i: nat)
    requires SchedInv(s) && 0 < i < |s.ready| && s1.cur == s.ready[0] && s1.ready == s.ready[1..] + [s.cur]
    requires forall t | t != s.cur :: PcbOf(s1, t).ticks == PcbOf(s, t).ticks
    ensures Slices(s1, [s1.cur] + s1.ready[..i - 1]) == Slices(s, s.ready[..i])
    ensures s1.ready[i - 1] == s.ready[i] && PcbOf(s1, s.ready[i]).ticks == PcbOf(s, s.ready[i]).ticks
  {
    NotRunning(s, i);
    hide SchedInv, Slices;
    assert s.ready[..i] == [s1.cur] + s1.ready[..i - 1];
    SlicesSame(s, s1, s.ready[..i]);
  }

  lemma NotRunning(s: State, i: nat)
    requires SchedInv(s) && i < |s.ready|
    ensures forall t | t in s.ready :: t != s.cur
    ensures s.ready[i] != s.cur
  {
    assert StatusOk(s, s.cur);
    assert s.ready[i] in s.ready;
  }

  lemma SlicesCons(s: State, t: Tid, ts: seq<Tid>)
    ensures Slices(s, [t] + ts) == PcbOf(s, t).ticks + 1 + Slices(s, ts)
  {
    assert ([t] + ts)[1..] == ts;
  }

  /** Exactly then and not one interrupt earlier. */
  lemma DispatchIsExact(s: State, i: nat)
    requires SchedInv(s) && i < |s.ready|
    ensures var d := Slices(s, [s.cur] + s.ready[..i]);
      && d >= 1 && Ticks(s, d).cur == s.ready[i]
      && Ticks(s, d - 1).cur == (if i == 0 then s.cur else s.ready[i - 1])
  {
    hide SchedInv, Ticks;
    RoundRobin(s, i, 0);
    SlicesCons(s, s.cur, s.ready[..i]);
    if i == 0 {
      WithinSlice(s, PcbOf(s, s.cur).ticks);
    } else {
      var last := s.ready[i - 1];
      assert s.ready[..i] == s.ready[..i - 1] + [last];
      SlicesAppend(s, [s.cur] + s.ready[..i - 1], last);
      assert [s.cur] + s.ready[..i] == ([s.cur] + s.ready[..i - 1]) + [last];
      RoundRobin(s, i - 1, PcbOf(s, last).ticks);
    }
  }

  lemma {:induction false} SlicesAppend(s: State, ts: seq<Tid>, t: Tid)
    ensures Slices(s, ts + [t]) == Slices(s, ts) + PcbOf(s, t).ticks + 1
    decreases |ts|
  {
    if ts == [] {
      assert ts + [t] == [t] && [t][1..] == [];
    } else {
      assert (ts + [t])[1..] == ts[1..] + [t];
      SlicesAppend(s, ts[1..], t);
    }
  }

  // ---------- interrupts interleaved with everything else that does not block or wake ----------

  predicate SameSched(s: State, s': State) {
    s'.cur == s.cur && s'.ready == s.ready && s'.pcbs == s.pcbs && s'.ticks == s.ticks
  }

  /** The step would put another thread back on the ready list. */
  predicate Wakes(s: State, a: Action) {
    var pc := CtxOf(s, s.cur).pc;
    match a
    case Key(q, _) => !IsFull(QueueAt(s, q).ring) && QueueAt(s, q).consumer != None
    case Continue =>
      || (pc.Release? && pc.rel.Up? && LockAt(s, pc.l).sema.waiters != [])
      || (pc.GetTop? && !IsEmpty(QueueAt(s, pc.q).ring) && QueueAt(s, pc.q).producer != None)
      || (pc.PutTop? && !IsFull(QueueAt(s, pc.q).ring) && QueueAt(s, pc.q).consumer != None)
    case _ => false
  }

  predicate Neutral(s: State, a: Action) {
    a.Timer? || (!a.Spawn? && !Blocks(s, a) && !Wakes(s, a))
  }

  lemma NeutralKeepsSched(s: State, a: Action)
    requires Neutral(s, a) && !a.Timer?
    ensures SameSched(s, Next(s, a))
  {
    hide Advance;
    if a.Continue? { NeutralContinues(s); }
  }

  lemma NeutralContinues(s: State)
    requires Neutral(s, Continue)
    ensures SameSched(s, Advance(s))
  {
    hide LockAcquire, LockRelease, GetLoop, PutLoop, WaitConsumer, WaitProducer;
    var pc := CtxOf(s, s.cur).pc;
    match pc {
      case Acquire(l, at, who) => NeutralAcquires(s, l, at, who);
      case Release(l, at, who) => NeutralReleases(s, l, at, who);
      case GetTop(q) => NeutralQueue(s, q, '\0');
      case PutTop(q, b) => NeutralQueue(s, q, b);
      case _ =>
    }
  }

  lemma NeutralAcquires(s: State, l: LockId, at: AcqPoint, who: Caller)
    requires at.Down? || at.InLoop? ==> LockAt(s, l).sema.value != 0
    ensures SameSched(s, LockAcquire(s, l, at, who))
  {
  }

  lemma NeutralReleases(s: State, l: LockId, at: RelPoint, who: Caller)
    requires at.Up? ==> LockAt(s, l).sema.waiters == []
    ensures SameSched(s, LockRelease(s, l, at, who))
  {
    hide ThreadUnblock;
    if at.Up? { assert SemaWake(s, l) == s; }
  }

  lemma NeutralQueue(s: State, q: QueueId, b: char)
    ensures IsEmpty(QueueAt(s, q).ring) || QueueAt(s, q).producer == None ==> SameSched(s, GetLoop(s, q))
    ensures IsFull(QueueAt(s, q).ring) || QueueAt(s, q).consumer == None ==> SameSched(s, PutLoop(s, q, b))
  {
  }

  lemma CountCongruent(s: State, u: State)
    requires SameSched(s, u)
    ensures SameSched(CountTick(s), CountTick(u))
  {
  }

  lemma RequeueCongruent(s: State, u: State)
    requires SameSched(s, u)
    ensures SameSched(Requeue(s), Requeue(u))
  {
    assert PcbOf(s, s.cur) == PcbOf(u, u.cur);
  }

  lemma DispatchCongruent(s: State, u: State)
    requires SameSched(s, u)
    ensures SameSched(Dispatch(s), Dispatch(u))
  {
    if s.ready != [] {
      assert PcbOf(s, s.ready[0]) == PcbOf(u, u.ready[0]);
    }
  }

  lemma ScheduleCongruent(s: State, u: State)
    requires SameSched(s, u)
    ensures SameSched(Schedule(s), Schedule(u))
  {
    hide Requeue, Dispatch;
    RequeueCongruent(s, u);
    DispatchCongruent(Requeue(s), Requeue(u));
  }

  lemma TimerCongruent(s: State, u: State)
    requires SameSched(s, u)
    ensures SameSched(TimerHandler(s), TimerHandler(u))
  {
    CountCongruent(s, u);
    var s1, u1 := CountTick(s), CountTick(u);
    hide CountTick;
    if PcbOf(s1, s1.cur).ticks == 0 {
      ScheduleCongruent(s1, u1);
    }
    hide Schedule;
  }

  predicate NeutralRun(s: State, run: seq<Action>)
    decreases |run|
  {
    run == [] || (Neutral(s, run[0]) && NeutralRun(Next(s, run[0]), run[1..]))
  }

  function Interrupts(run: seq<Action>): nat
    decreases |run|
  {
    if run == [] then 0 else (if run[0].Timer? then 1 else 0) + Interrupts(run[1..])
  }

  lemma {:induction false} TicksCongruent(s: State, u: State, n: nat)
    requires SameSched(s, u)
    ensures SameSched(Ticks(s, n), Ticks(u, n))
    decreases n
  {
    if n > 0 {
      TimerCongruent(s, u);
      hide TimerHandler;
      TicksCongruent(TimerHandler(s), TimerHandler(u), n - 1);
    }
  }

  lemma NextTimer(s: State)
    ensures Next(s, Timer) == TimerHandler(s)
  {
  }

  lemma {:induction false} RunIsTicks(s: State, run: seq<Action>)
    requires NeutralRun(s, run)
    ensures SameSched(Ticks(s, Interrupts(run)), Exec(s, run))
    decreases |run|
  {
    hide Neutral, Next, TimerHandler;
    if run != [] {
      assert run[0].Timer? ==> Next(s, run[0]) == TimerHandler(s) by { NextTimer(s); }
      RunIsTicks(Next(s, run[0]), run[1..]);
      if !run[0].Timer? {
        NeutralKeepsSched(s, run[0]);
        TicksCongruent(s, Next(s, run[0]), Interrupts(run[1..]));
      }
    }
  }

  /** Theorem: in any run without blocking, waking or creating threads, the i-th ready thread runs
      from interrupt number Slices(cur, ready[..i]) on, for ticks + 1 interrupts. */
  lemma RoundRobinRun(s: State, run: seq<Action>, i: nat, k: nat)
    requires SchedInv(s) && NeutralRun(s, run) && i < |s.ready| && k <= PcbOf(s, s.ready[i]).ticks
    requires Interrupts(run) == Slices(s, [s.cur] + s.ready[..i]) + k
    ensures Exec(s, run).cur == s.ready[i]
  {
    hide SchedInv, Ticks, Slices, Neutral, Next;
    RunIsTicks(s, run);
    RoundRobin(s, i, k);
  }

  // ---------- tick accounting ----------

  function Elapsed(s: State, ts: seq<Tid>): nat
    decreases |ts|
  {
    if ts == [] then 0 else PcbOf(s, ts[0]).elapsed + Elapsed(s, ts[1..])
  }

  ghost predicate SlicesOk(s: State) {
    forall t | t in s.pcbs :: s.pcbs[t].ticks <= s.pcbs[t].priority < U8
  }

  ghost predicate TicksInv(s: State) {
    && SlicesOk(s)
    && s.ticks < U32
    && Elapsed(s, s.all) % U32 == s.ticks
  }

  /** Counters of old threads are as before. */
  ghost predicate SameCounters(s: State, s': State) {
    && s'.ticks == s.ticks
    && (forall t | t in s.pcbs :: t in s'.pcbs)
    && (forall t | t in s.pcbs :: s'.pcbs[t].(status := s.pcbs[t].status) == s.pcbs[t])
  }

  lemma {:induction false} ElapsedSame(s: State, s': State, ts: seq<Tid>)
    requires forall t | t in ts :: PcbOf(s', t).elapsed == PcbOf(s, t).elapsed
    ensures Elapsed(s', ts) == Elapsed(s, ts)
    decreases |ts|
  {
    if ts != [] { ElapsedSame(s, s', ts[1..]); }
  }

  lemma {:induction false} ElapsedAppend(s: State, ts: seq<Tid>, t: Tid)
    ensures Elapsed(s, ts + [t]) == Elapsed(s, ts) + PcbOf(s, t).elapsed
    decreases |ts|
  {
    if ts == [] {
      assert ts + [t] == [t] && [t][1..] == [];
    } else {
      assert (ts + [t])[1..] == ts[1..] + [t];
      ElapsedAppend(s, ts[1..], t);
    }
  }

  /** One thread's counter goes up by one, modulo 2^32. */
  lemma {:induction false} ElapsedUp(s: State, s': State, ts: seq<Tid>, t: Tid)
    requires NoDup(ts) && t in ts
    requires forall u | u in ts && u != t :: PcbOf(s', u).elapsed == PcbOf(s, u).elapsed
    requires PcbOf(s', t).elapsed == (PcbOf(s, t).elapsed + 1) % U32
    ensures Elapsed(s', ts) % U32 == (Elapsed(s, ts) + 1) % U32
    decreases |ts|
  {
    hide PcbOf;
    NoDupTail(ts);
    var x, rest, rest' := PcbOf(s, ts[0]).elapsed, Elapsed(s, ts[1..]), Elapsed(s', ts[1..]);
    if ts[0] == t {
      ElapsedSame(s, s', ts[1..]);
      CountUp(x + 1, (x + 1) % U32, rest);
    } else {
      ElapsedUp(s, s', ts[1..], t);
      CountUp(rest', rest + 1, x);
    }
  }

  lemma CountUp(a: nat, b: nat, c: nat)
    requires a % U32 == b % U32
    ensures (a + c) % U32 == (b + c) % U32
  {
    assert a + c == b + c + U32 * (a / U32 - b / U32);
  }

  lemma CountersOk(s: State, s': State)
    requires SchedInv(s) && TicksInv(s) && SameCounters(s, s') && s'.all == s.all && s'.pcbs.Keys == s.pcbs.Keys
    ensures TicksInv(s')
  {
    ElapsedSame(s, s', s.all);
  }

  lemma TimerCounts(s: State)
    requires SchedInv(s) && TicksInv(s)
    ensures TicksInv(TimerHandler(s))
  {
    hide TimerHandler, SchedInv, SlicesOk, PcbOf;
    TimerEffect(s);
    var s' := TimerHandler(s);
    TimerCounters(s);
    AllFacts(s);
    ElapsedUp(s, s', s.all, s.cur);
    CountUp(Elapsed(s, s.all), s.ticks, 1);
  }

  lemma AllFacts(s: State)
    requires SchedInv(s)
    ensures NoDup(s.all) && s.cur in s.all && (forall t | t in s.ready :: t in s.pcbs)
  {
  }

  lemma ScheduleCounters(s: State)
    requires SchedInv(s) && SlicesOk(s)
    ensures var s' := Schedule(s);
      && s'.ticks == s.ticks && (forall t :: PcbOf(s', t).elapsed == PcbOf(s, t).elapsed) && SlicesOk(s')
  {
    hide Requeue;
    var s1 := Requeue(s);
    RequeueCounters(s);
    if s1.ready != [] { assert s1.ready[0] in s1.ready; }
  }

  lemma RequeueCounters(s: State)
    requires SchedInv(s) && SlicesOk(s)
    ensures var s1 := Requeue(s);
      && SlicesOk(s1) && s1.ticks == s.ticks && (forall t :: PcbOf(s1, t).elapsed == PcbOf(s, t).elapsed)
      && (forall t | t in s1.ready :: t in s1.pcbs)
  {
  }

  lemma TimerCounters(s: State)
    requires SchedInv(s) && SlicesOk(s)
    ensures var s' := TimerHandler(s);
      && s'.ticks == (s.ticks + 1) % U32
      && PcbOf(s', s.cur).elapsed == (PcbOf(s, s.cur).elapsed + 1) % U32
      && (forall t | t != s.cur :: PcbOf(s', t).elapsed == PcbOf(s, t).elapsed)
      && SlicesOk(s')
  {
    var s1 := CountTick(s);
    CountersEffect(s, s1, PcbOf(s1, s.cur));
    hide SchedInv;
    assert SlicesOk(s1);
    if PcbOf(s1, s1.cur).ticks == 0 {
      ScheduleCounters(s1);
    }
    hide Schedule;
  }

  lemma BlockCounts(s: State)
    requires s.cur in s.pcbs && (forall t | t in s.ready :: t in s.pcbs)
    ensures var s' := ThreadBlock(s, Blocked); SameCounters(s, s') && s'.all == s.all && s'.pcbs.Keys == s.pcbs.Keys
  {
  }

  lemma UnblockCounts(s: State, t: Tid)
    requires t in s.pcbs
    ensures var s' := ThreadUnblock(s, t); SameCounters(s, s') && s'.all == s.all && s'.pcbs.Keys == s.pcbs.Keys
  {
  }

  /** No counter, and no entry in the list of all threads, has changed. */
  ghost predicate CountsKept(s: State, s': State) {
    SameCounters(s, s') && s'.all == s.all && s'.pcbs.Keys == s.pcbs.Keys
  }

  lemma AcquireCounts(s: State, l: LockId, at: AcqPoint, who: Caller)
    requires s.cur in s.pcbs && (forall t | t in s.ready :: t in s.pcbs)
    ensures CountsKept(s, LockAcquire(s, l, at, who))
  {
    hide SemaDown, AfterAcquire, Depth;
    if at.Down? || at.InLoop? {
      DownCounts(s, l, who);
    } else {
      assert LockAcquire(s, l, at, who).pcbs == s.pcbs;
    }
  }

  lemma DownCounts(s: State, l: LockId, who: Caller)
    requires s.cur in s.pcbs && (forall t | t in s.ready :: t in s.pcbs)
    ensures CountsKept(s, SemaDown(s, l, who))
  {
    hide ThreadBlock;
    var k := LockAt(s, l);
    BlockCounts(Goto(WithLock(s, l, WithSema(k, 0, k.sema.waiters + [s.cur])), Acquire(l, InLoop, who)));
  }

  lemma ReleaseCounts(s: State, l: LockId, at: RelPoint, who: Caller)
    requires Inv(s)
    ensures CountsKept(s, LockRelease(s, l, at, who))
  {
    hide Inv, SemaUp, AfterRelease, Depth;
    if at.Up? {
      SemaUpCounts(s, l, who);
    } else {
      assert LockRelease(s, l, at, who).pcbs == s.pcbs;
    }
  }

  lemma SemaUpCounts(s: State, l: LockId, who: Caller)
    requires Inv(s)
    ensures CountsKept(s, SemaUp(s, l, who))
  {
    hide Inv, SemaWake, AfterRelease, Depth;
    UpCounts(s, l);
  }

  lemma QueueCounts(s: State, q: QueueId)
    requires Inv(s) && (CtxOf(s, s.cur).pc.GetTop? || CtxOf(s, s.cur).pc.PutTop?)
    ensures CountsKept(s, Advance(s))
  {
    hide Inv, GetByte, PutByte;
    var pc := CtxOf(s, s.cur).pc;
    ByteCounts(s, pc.q, if pc.PutTop? then pc.byte else '\0');
  }

  lemma WaitCounts(s: State)
    requires s.cur in s.pcbs && (forall t | t in s.ready :: t in s.pcbs)
    requires CtxOf(s, s.cur).pc.GetWait? || CtxOf(s, s.cur).pc.PutWait?
    ensures CountsKept(s, Advance(s))
  {
    match CtxOf(s, s.cur).pc {
      case GetWait(q) => BlockCounts(Goto(WithQueue(s, q, QueueAt(s, q).(consumer := Some(s.cur))), GetSlot(q)));
      case PutWait(q, b) => BlockCounts(Goto(WithQueue(s, q, QueueAt(s, q).(producer := Some(s.cur))), PutSlot(q, b)));
    }
    hide ThreadBlock;
  }

  /** Every step but the timer's and thread creation leaves the counters alone. */
  lemma ContinueCounts(s: State)
    requires Inv(s)
    ensures CountsKept(s, Advance(s))
  {
    hide Inv, SchedInv, CtxOk, LockInv, LockAcquire, LockRelease, GetLoop, PutLoop, WaitConsumer, WaitProducer;
    InvFacts(s, KernelLock(0));
    AllFacts(s);
    match CtxOf(s, s.cur).pc {
      case Program =>
      case Acquire(l, at, who) => hide CountsKept; AcquireCounts(s, l, at, who);
      case Release(l, at, who) => hide CountsKept; ReleaseCounts(s, l, at, who);
      case GetTop(q) => hide CountsKept; QueueCounts(s, q);
      case PutTop(q, b) => hide CountsKept; QueueCounts(s, q);
      case GetWait(q) => hide CountsKept; WaitCounts(s);
      case PutWait(q, b) => hide CountsKept; WaitCounts(s);
      case GetSlot(q) =>
      case PutSlot(q, b) =>
    }
  }

  lemma UpCounts(s: State, l: LockId)
    requires Inv(s)
    ensures var s' := SemaWake(s, l); SameCounters(s, s') && s'.all == s.all && s'.pcbs.Keys == s.pcbs.Keys
  {
    var k := LockAt(s, l);
    if k.sema.waiters != [] {
      assert WaitersInv(s, l) && k.sema.waiters[0] in k.sema.waiters;
      hide Inv;
      UnblockCounts(WithLock(s, l, WithSema(k, k.sema.value, k.sema.waiters[1..])), k.sema.waiters[0]);
      hide ThreadUnblock;
    }
  }

  lemma ByteCounts(s: State, q: QueueId, b: char)
    requires Inv(s)
    ensures var s' := PutByte(s, q, b); SameCounters(s, s') && s'.all == s.all && s'.pcbs.Keys == s.pcbs.Keys
    ensures var s' := GetByte(s, q); SameCounters(s, s') && s'.all == s.all && s'.pcbs.Keys == s.pcbs.Keys
  {
    hide Inv, ThreadUnblock, RingOk, RingPut, RingGet, SchedInv;
    QueueFacts(s, q);
    var k := QueueAt(s, q);
    if k.consumer.Some? { UnblockCounts(WithQueue(s, q, k.(ring := RingPut(k.ring, b))), k.consumer.value); }
    if k.producer.Some? { UnblockCounts(WithQueue(s, q, k.(ring := RingGet(k.ring))), k.producer.value); }
  }

  lemma StepCounts(s: State, a: Action)
    requires Inv(s) && TicksInv(s) && Enabled(s, a)
    ensures TicksInv(Next(s, a))
  {
    hide TicksInv, Inv, SchedInv, LockInv, CtxOk, Advance, PutByte, TimerHandler, ThreadStart;
    InvFacts(s, KernelLock(0));
    match a {
      case Timer => TimerCounts(s);
      case Continue => ContinueCounts(s); CountersOk(s, Next(s, a));
      case Key(q, b) => ByteCounts(s, q, b); CountersOk(s, Next(s, a));
      case Spawn(t, prio) => SpawnCounts(s, t, prio);
      case _ => CountersOk(s, Next(s, a));
    }
  }

  lemma SpawnCounts(s: State, t: Tid, prio: int)
    requires SchedInv(s) && TicksInv(s) && t !in s.pcbs
    ensures TicksInv(ThreadStart(s, t, prio))
  {
    var s' := ThreadStart(s, t, prio);
    ElapsedSame(s, s', s.all);
    ElapsedAppend(s', s.all, t);
  }

  /** Theorem: in every reachable state no thread has more ticks left than its priority, and the
      elapsed ticks of all threads add up to the global count, modulo 2^32. */
  lemma {:induction false} TickAccounting(s: State, run: seq<Action>, idle: Tid)
    requires Inv(s) && !s.halted && IdleInv(s, idle) && TicksInv(s) && LegalRun(s, run, idle)
    ensures TicksInv(Exec(s, run))
    decreases |run|
  {
    hide Inv, IdleInv, TicksInv, Next, Enabled, Disciplined;
    if run != [] {
      StepKeeps(s, run[0], idle);
      StepCounts(s, run[0]);
      TickAccounting(Next(s, run[0]), run[1..], idle);
    }
  }

  lemma TickAccountingFromBoot(s0: State, main: Tid, run: seq<Action>)
    requires InitState(s0, main) && LegalRun(s0, run, main)
    ensures var s := Exec(s0, run);
      && (forall t | t in s.pcbs :: s.pcbs[t].ticks <= s.pcbs[t].priority < U8)
      && s.ticks < U32 && Elapsed(s, s.all) % U32 == s.ticks
  {
    InitInv(s0, main);
    assert s0.all[1..] == [];
    assert Elapsed(s0, s0.all) == 0;
    hide Inv;
    TickAccounting(s0, run, main);
  }
}
