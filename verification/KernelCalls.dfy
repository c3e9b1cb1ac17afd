/**
 What threads called and what came of it.  Beside a run stands the list of calls that threads have begun
 and not finished, kept from the actions alone; the history of a run is the list of calls that returned
 and of keys the keyboard handler stored.  The theorems say that the state is what the history says: the
 bytes in a queue are those its callers gave, in order, and the nesting depth of a lock is the number of
 acquisitions that returned less the releases.
 */
module KernelCalls {
  import opened Words
  import opened KernelState
  import opened KernelInv
  import opened KernelSteps
  import opened KernelSwitches
  import opened KernelRuns
  import opened KernelParked
  import opened KernelMeaning

  datatype Call = AcquireCall(l: LockId) | ReleaseCall(l: LockId) | GetCall(q: QueueId) | PutCall(q: QueueId, byte: char)

  type Pending = map<Tid, Call>

  datatype Event = Returned(t: Tid, call: Call) | Typed(q: QueueId, byte: char)

  function CallOf(a: Action): Option<Call> {
    match a
    case CallAcquire(l) => Some(AcquireCall(l))
    case CallRelease(l) => Some(ReleaseCall(l))
    case CallGet(q) => Some(GetCall(q))
    case CallPut(q, b) => Some(PutCall(q, b))
    case _ => None
  }

  /** The points of each function; inside ioq_getchar and ioq_putchar also those of the queue's lock. */
  predicate Within(pc: Pc, c: Call) {
    match c
    case AcquireCall(l) => pc.Acquire? && pc.l == l && pc.who == ByProgram
    case ReleaseCall(l) => pc.Release? && pc.l == l && pc.who == ByProgram
    case GetCall(q) => pc in {GetTop(q), GetWait(q), GetSlot(q)} || ((pc.Acquire? || pc.Release?) && pc.l == QueueLock(q) && pc.who == ByGet)
    case PutCall(q, b) =>
      pc in {PutTop(q, b), PutWait(q, b), PutSlot(q, b)} || ((pc.Acquire? || pc.Release?) && pc.l == QueueLock(q) && pc.who == ByPut(b))
  }

  /** The running thread comes back from its call in this step. */
  predicate Returns(s: State, a: Action) { a.Continue? && CtxOf(Next(s, a), s.cur).pc == Program }

  function Pend(s: State, a: Action, pend: Pending): Pending {
    if CallOf(a).Some? then pend[s.cur := CallOf(a).value]
    else if Returns(s, a) then pend - {s.cur}
    else pend
  }

  function EventOf(s: State, a: Action, pend: Pending): seq<Event> {
    match a
    case Key(q, b) => if IsFull(QueueAt(s, q).ring) then [] else [Typed(q, b)]
    case _ => if Returns(s, a) && s.cur in pend then [Returned(s.cur, pend[s.cur])] else []
  }

  function PendAfter(s: State, run: seq<Action>, pend: Pending): Pending
    decreases |run|
  {
    if run == [] then pend else PendAfter(Next(s, run[0]), run[1..], Pend(s, run[0], pend))
  }

  function History(s: State, run: seq<Action>, pend: Pending): seq<Event>
    decreases |run|
  {
    if run == [] then [] else EventOf(s, run[0], pend) + History(Next(s, run[0]), run[1..], Pend(s, run[0], pend))
  }

  // ---------- what a history says ----------

  /** The bytes given to queue q by calls that returned and by the keyboard. */
  function Given(h: seq<Event>, q: QueueId): seq<char> {
    if h == [] then []
    else (match h[0]
          case Typed(p, b) => if p == q then [b] else []
          case Returned(_, PutCall(p, b)) => if p == q then [b] else []
          case _ => []) + Given(h[1..], q)
  }

  /** How many calls of ioq_getchar on q returned. */
  function Taken(h: seq<Event>, q: QueueId): nat {
    if h == [] then 0 else (match h[0] case Returned(_, GetCall(p)) => if p == q then 1 else 0 case _ => 0) + Taken(h[1..], q)
  }

  /** Acquisitions of l by t that returned, less the releases. */
  function Nested(h: seq<Event>, t: Tid, l: LockId): int {
    if h == [] then 0
    else (match h[0]
          case Returned(u, AcquireCall(m)) => if u == t && m == l then 1 else 0
          case Returned(u, ReleaseCall(m)) => if u == t && m == l then -1 else 0
          case _ => 0) + Nested(h[1..], t, l)
  }

  lemma {:induction false} HistoryAppend(h: seq<Event>, k: seq<Event>, q: QueueId, t: Tid, l: LockId)
    ensures Given(h + k, q) == Given(h, q) + Given(k, q)
    ensures Taken(h + k, q) == Taken(h, q) + Taken(k, q)
    ensures Nested(h + k, t, l) == Nested(h, t, l) + Nested(k, t, l)
  {
    if h == [] {
      assert h + k == k;
    } else {
      assert (h + k)[1..] == h[1..] + k && (h + k)[0] == h[0];
      HistoryAppend(h[1..], k, q, t, l);
    }
  }

  // ---------- one step ----------

  /** Every thread is where its pending call says, or outside the modelled functions. */
  ghost predicate PendOk(s: State, pend: Pending) {
    forall t :: if t in pend then Within(CtxOf(s, t).pc, pend[t]) else CtxOf(s, t).pc == Program
  }

  /** What one step does to the running thread's point and depths and to the queues, by the call it is in. */
  ghost predicate Moved(s: State, s': State, c: Call) {
    var pc := CtxOf(s', s.cur).pc;
    && (pc == Program || Within(pc, c)) && CtxOf(s', s.cur).ifOn == CtxOf(s, s.cur).ifOn
    && (forall q :: QueueAt(s', q).ring.put == QueueAt(s, q).ring.put + (if pc == Program && c.PutCall? && c.q == q then [c.byte] else []))
    && (forall q :: |QueueAt(s', q).ring.got| == |QueueAt(s, q).ring.got| + (if pc == Program && c == GetCall(q) then 1 else 0))
    && (forall l: LockId | l.KernelLock? :: Depth(CtxOf(s', s.cur), l) == Depth(CtxOf(s, s.cur), l)
          + (if pc == Program && c == AcquireCall(l) then 1 else if pc == Program && c == ReleaseCall(l) then -1 else 0))
  }

  /** The running thread's new context, at an unchanged nesting depth, with the queues' buffers as they were. */
  lemma MovedAside(s: State, s': State, c: Call)
    requires Within(CtxOf(s', s.cur).pc, c) && (forall q :: QueueAt(s', q).ring == QueueAt(s, q).ring)
    requires CtxOf(s', s.cur).ifOn == CtxOf(s, s.cur).ifOn
    requires forall l: LockId | l.KernelLock? :: Depth(CtxOf(s', s.cur), l) == Depth(CtxOf(s, s.cur), l)
    ensures Moved(s, s', c)
  {
  }

  lemma BlockLeaves(s: State, pc: Pc)
    ensures var s' := ThreadBlock(Goto(s, pc), Blocked); s'.queues == s.queues && CtxOf(s', s.cur) == CtxOf(s, s.cur).(pc := pc)
  {
    BlockKeepsRest(Goto(s, pc));
    hide ThreadBlock;
  }

  lemma BlockKeepsRest(s: State)
    ensures var s' := ThreadBlock(s, Blocked); s'.queues == s.queues && s'.ctx == s.ctx
  {
    hide PcbOf;
  }

  lemma DownMoves(s: State, l: LockId, at: AcqPoint, who: Caller, c: Call)
    requires CtxOf(s, s.cur).pc == Acquire(l, at, who) && Within(CtxOf(s, s.cur).pc, c)
    ensures Moved(s, SemaDown(s, l, who), c)
  {
    hide ThreadBlock;
    var k := LockAt(s, l);
    var s1 := WithLock(s, l, WithSema(k, 0, k.sema.waiters + [s.cur]));
    BlockLeaves(s1, Acquire(l, InLoop, who));
    MovedAside(s, SemaDown(s, l, who), c);
  }

  lemma AcquireMoves(s: State, l: LockId, at: AcqPoint, who: Caller, c: Call)
    requires CtxOf(s, s.cur).pc == Acquire(l, at, who) && Within(CtxOf(s, s.cur).pc, c)
    ensures Moved(s, LockAcquire(s, l, at, who), c)
  {
    hide SemaDown, Moved;
    if at.Down? || at.InLoop? {
      DownMoves(s, l, at, who, c);
    } else if at.SetOne? || at.IncStore? {
      AcquireReturns(s, l, at, who, c);
    } else {
      AcquireStays(s, l, at, who, c);
    }
  }

  /** A new point of the same call, and perhaps other fields of a lock. */
  lemma LockOnly(s: State, s': State, pc: Pc, c: Call)
    requires s'.queues == s.queues && Within(pc, c) && (s'.ctx == s.ctx || s'.ctx == s.ctx[s.cur := CtxOf(s, s.cur).(pc := pc)])
    requires Within(CtxOf(s, s.cur).pc, c)
    ensures Moved(s, s', c)
  {
    MovedAside(s, s', c);
  }

  lemma AcquireStays(s: State, l: LockId, at: AcqPoint, who: Caller, c: Call)
    requires CtxOf(s, s.cur).pc == Acquire(l, at, who) && Within(CtxOf(s, s.cur).pc, c)
    requires !at.Down? && !at.InLoop? && !at.SetOne? && !at.IncStore?
    ensures Moved(s, LockAcquire(s, l, at, who), c)
  {
    hide Moved, Depth;
    var pc := CtxOf(LockAcquire(s, l, at, who), s.cur).pc;
    LockOnly(s, LockAcquire(s, l, at, who), pc, c);
  }

  lemma AcquireReturns(s: State, l: LockId, at: AcqPoint, who: Caller, c: Call)
    requires CtxOf(s, s.cur).pc == Acquire(l, at, who) && Within(CtxOf(s, s.cur).pc, c) && (at.SetOne? || at.IncStore?)
    ensures Moved(s, LockAcquire(s, l, at, who), c)
  {
    DepthOnly(s, LockAcquire(s, l, at, who), l, Depth(CtxOf(s, s.cur), l) + 1);
  }

  lemma DepthOnly(s: State, s': State, l: LockId, d: nat)
    requires CtxOf(s', s.cur).depth == CtxOf(s, s.cur).depth[l := d]
    ensures forall m :: Depth(CtxOf(s', s.cur), m) == if m == l then d else Depth(CtxOf(s, s.cur), m)
  {
  }

  lemma ReleaseMovesOn(s: State, l: LockId, at: RelPoint, who: Caller, c: Call)
    requires Inv(s) && !s.halted && CtxOf(s, s.cur).pc == Release(l, at, who) && Within(CtxOf(s, s.cur).pc, c)
    ensures Moved(s, LockRelease(s, l, at, who), c)
  {
    hide Inv, SemaUp, Moved, Depth;
    if at.Up? {
      UpReturns(s, l, who, c);
    } else if at.DecStore? {
      DecReturns(s, l, at, who, c);
    } else {
      LockOnly(s, LockRelease(s, l, at, who), CtxOf(LockRelease(s, l, at, who), s.cur).pc, c);
    }
  }

  /** A release that ends: the thread's depth at l goes down by one and its other depths stay. */
  lemma ReleaseReturns(s: State, s': State, l: LockId, at: RelPoint, who: Caller, c: Call)
    requires CtxOf(s, s.cur).pc == Release(l, at, who) && Within(CtxOf(s, s.cur).pc, c) && BehindRelease(CtxOf(s', s.cur).pc, l, who)
    requires s'.queues == s.queues && Depth(CtxOf(s, s.cur), l) >= 1 && CtxOf(s', s.cur).ifOn == CtxOf(s, s.cur).ifOn
    requires CtxOf(s', s.cur).depth == CtxOf(s, s.cur).depth[l := Depth(CtxOf(s, s.cur), l) - 1]
    ensures Moved(s, s', c)
  {
    DepthOnly(s, s', l, Depth(CtxOf(s, s.cur), l) - 1);
  }

  lemma DecReturns(s: State, l: LockId, at: RelPoint, who: Caller, c: Call)
    requires Inv(s) && !s.halted && CtxOf(s, s.cur).pc == Release(l, at, who) && Within(CtxOf(s, s.cur).pc, c) && at.DecStore?
    ensures Moved(s, LockRelease(s, l, at, who), c)
  {
    hide Inv, Moved, SchedInv, LockInv;
    InvFacts(s, l);
    ReleasePoint(s, l, at, who);
    CallerPoints(s, l, who);
    ReleaseReturns(s, LockRelease(s, l, at, who), l, at, who, c);
  }

  lemma UpReturns(s: State, l: LockId, who: Caller, c: Call)
    requires Inv(s) && !s.halted && CtxOf(s, s.cur).pc == Release(l, Up, who) && Within(CtxOf(s, s.cur).pc, c)
    ensures Moved(s, SemaUp(s, l, who), c)
  {
    hide Inv, Moved, SchedInv, LockInv, SemaWake;
    InvFacts(s, l);
    ReleasePoint(s, l, Up, who);
    CallerPoints(s, l, who);
    UpKeeps(s, l, who);
    WakeEffect(s, l);
    ReleaseReturns(s, SemaUp(s, l, who), l, Up, who, c);
  }

  // ---------- the queue's own points ----------

  lemma GetMoves(s: State, q: QueueId)
    requires Inv(s) && !s.halted && CtxOf(s, s.cur).pc == GetTop(q)
    ensures Moved(s, GetLoop(s, q), GetCall(q))
  {
    hide Inv, GetByte;
    if !IsEmpty(QueueAt(s, q).ring) { GetShape(s, q); }
  }

  lemma PutMoves(s: State, q: QueueId, b: char)
    requires Inv(s) && !s.halted && CtxOf(s, s.cur).pc == PutTop(q, b)
    ensures Moved(s, PutLoop(s, q, b), PutCall(q, b))
  {
    hide Inv, PutByte;
    if !IsFull(QueueAt(s, q).ring) { PutShape(s, q, b); }
  }

  lemma WaitMoves(s: State, q: QueueId, k: Queue, pc: Pc, c: Call)
    requires k.ring == QueueAt(s, q).ring && Within(pc, c)
    ensures Moved(s, ThreadBlock(Goto(WithQueue(s, q, k), pc), Blocked), c)
  {
    hide ThreadBlock;
    BlockLeaves(WithQueue(s, q, k), pc);
    MovedAside(s, ThreadBlock(Goto(WithQueue(s, q, k), pc), Blocked), c);
  }

  lemma StaysMoved(s: State, c: Call)
    requires Within(CtxOf(s, s.cur).pc, c)
    ensures Moved(s, Halt(s), c)
  {
  }

  /** A thread inside a call stays at points of that call, with what it was called with, until it returns; a
      returning ioq_putchar has stored the caller's byte, a returning ioq_getchar has taken one. */
  lemma ContinueMoves(s: State, c: Call)
    requires Inv(s) && !s.halted && Within(CtxOf(s, s.cur).pc, c)
    ensures Moved(s, Advance(s), c)
  {
    hide Inv, LockAcquire, LockRelease, GetLoop, PutLoop, ThreadBlock, Moved;
    match CtxOf(s, s.cur).pc {
      case Acquire(l, at, who) => AcquireMoves(s, l, at, who, c);
      case Release(l, at, who) => ReleaseMovesOn(s, l, at, who, c);
      case GetTop(q) => GetMoves(s, q);
      case PutTop(q, b) => PutMoves(s, q, b);
      case GetWait(q) => WaitMoves(s, q, QueueAt(s, q).(consumer := Some(s.cur)), GetSlot(q), c); StaysMoved(s, c);
      case PutWait(q, b) => WaitMoves(s, q, QueueAt(s, q).(producer := Some(s.cur)), PutSlot(q, b), c); StaysMoved(s, c);
      case GetSlot(q) => MovedAside(s, Advance(s), c);
      case PutSlot(q, b) => MovedAside(s, Advance(s), c);
    }
  }

  /** A thread's interrupt flag is the one it set last: every function restores what it found. */
  ghost predicate FlagsKept(s: State, s': State, a: Action) {
    forall t :: CtxOf(s', t).ifOn == if a.SetIf? && t == s.cur then a.on else CtxOf(s, t).ifOn
  }

  /** What one step adds to the state is what its event says. */
  ghost predicate Explained(s: State, s': State, h: seq<Event>) {
    && (forall q :: QueueAt(s', q).ring.put == QueueAt(s, q).ring.put + Given(h, q))
    && (forall q :: |QueueAt(s', q).ring.got| == |QueueAt(s, q).ring.got| + Taken(h, q))
    && (forall t, l: LockId | l.KernelLock? :: Depth(CtxOf(s', t), l) == Depth(CtxOf(s, t), l) + Nested(h, t, l))
  }

  lemma OneEvent(e: Event, q: QueueId, t: Tid, l: LockId)
    ensures Given([e], q) == if e.Typed? && e.q == q then [e.byte] else if e.Returned? && e.call.PutCall? && e.call.q == q then [e.call.byte] else []
    ensures Taken([e], q) == if e.Returned? && e.call == GetCall(q) then 1 else 0
    ensures Nested([e], t, l) == if e.Returned? && e.t == t && e.call == AcquireCall(l) then 1 else if e.Returned? && e.t == t && e.call == ReleaseCall(l) then -1 else 0
  {
    assert [e][1..] == [];
  }

  lemma ExplainedBy(s: State, s': State, c: Call)
    requires Moved(s, s', c) && forall t | t != s.cur :: CtxOf(s', t) == CtxOf(s, t)
    ensures Explained(s, s', if CtxOf(s', s.cur).pc == Program then [Returned(s.cur, c)] else [])
  {
    var e := Returned(s.cur, c);
    forall q ensures Given([e], q) == (if c.PutCall? && c.q == q then [c.byte] else []) && Taken([e], q) == (if c == GetCall(q) then 1 else 0) {
      OneEvent(e, q, 0, KernelLock(0));
    }
    forall t, l
      ensures Nested([e], t, l) == if s.cur == t && c == AcquireCall(l) then 1 else if s.cur == t && c == ReleaseCall(l) then -1 else 0
    {
      OneEvent(e, 0, t, l);
    }
    hide Given, Taken, Nested;
  }

  lemma ExplainedByNothing(s: State, s': State)
    requires (forall q :: QueueAt(s', q).ring == QueueAt(s, q).ring) && forall t, l :: Depth(CtxOf(s', t), l) == Depth(CtxOf(s, t), l)
    ensures Explained(s, s', [])
  {
  }

  lemma ContinueExplained(s: State, pend: Pending)
    requires Inv(s) && Enabled(s, Continue) && PendOk(s, pend)
    ensures Explained(s, Advance(s), EventOf(s, Continue, pend)) && PendOk(Advance(s), Pend(s, Continue, pend))
    ensures FlagsKept(s, Advance(s), Continue)
  {
    hide Inv, Advance, Moved, OwnStep, Explained;
    assert s.cur in pend && Within(CtxOf(s, s.cur).pc, pend[s.cur]);
    var c := pend[s.cur];
    ContinueMoves(s, c);
    OwnContinue(s);
    OwnFacts(s, Advance(s));
    ExplainedBy(s, Advance(s), c);
    MovedPoint(s, Advance(s), c);
  }

  lemma OwnFacts(s: State, s': State)
    requires OwnStep(s, s')
    ensures forall t | t != s.cur :: CtxOf(s', t) == CtxOf(s, t)
  {
  }

  lemma MovedPoint(s: State, s': State, c: Call)
    requires Moved(s, s', c)
    ensures CtxOf(s', s.cur).pc == Program || Within(CtxOf(s', s.cur).pc, c)
    ensures CtxOf(s', s.cur).ifOn == CtxOf(s, s.cur).ifOn
  {
  }

  lemma KeyExplained(s: State, q: QueueId, b: char, pend: Pending)
    requires Inv(s) && Enabled(s, Key(q, b)) && PendOk(s, pend)
    ensures Explained(s, Next(s, Key(q, b)), EventOf(s, Key(q, b), pend)) && PendOk(Next(s, Key(q, b)), pend)
    ensures FlagsKept(s, Next(s, Key(q, b)), Key(q, b))
  {
    hide Inv, PutByte;
    var s' := Next(s, Key(q, b));
    if IsFull(QueueAt(s, q).ring) {
      ExplainedByNothing(s, s');
    } else {
      PutShape(s, q, b);
      var e := Typed(q, b);
      forall p ensures Given([e], p) == (if p == q then [b] else []) && Taken([e], p) == 0 { OneEvent(e, p, 0, KernelLock(0)); }
      forall t, l ensures Nested([e], t, l) == 0 { OneEvent(e, 0, t, l); }
      hide Given, Taken, Nested;
      forall t ensures CtxOf(s', t) == CtxOf(s, t) {}
    }
  }

  lemma TimerExplained(s: State, pend: Pending)
    requires Inv(s) && PendOk(s, pend)
    ensures Explained(s, TimerHandler(s), []) && PendOk(TimerHandler(s), pend) && FlagsKept(s, TimerHandler(s), Timer)
  {
    hide Inv, SchedInv, TimerHandler;
    InvFacts(s, KernelLock(0));
    TimerEffect(s);
    var s' := TimerHandler(s);
    forall t ensures CtxOf(s', t) == CtxOf(s, t) {}
    forall q ensures QueueAt(s', q) == QueueAt(s, q) {}
    ExplainedByNothing(s, s');
  }

  lemma SpawnExplained(s: State, t: Tid, prio: int, pend: Pending)
    requires Inv(s) && t !in s.pcbs && PendOk(s, pend)
    ensures Explained(s, ThreadStart(s, t, prio), []) && PendOk(ThreadStart(s, t, prio), pend)
    ensures FlagsKept(s, ThreadStart(s, t, prio), Spawn(t, prio))
  {
    hide Inv;
    InvFacts(s, KernelLock(0));
    var s' := ThreadStart(s, t, prio);
    forall u ensures CtxOf(s', u) == CtxOf(s, u) { SpawnCtx(s, t, prio, u); }
    hide SchedInv;
    ExplainedByNothing(s, s');
  }

  /** A step by which the running thread enters a call, or changes its interrupt flag. */
  lemma OwnCtxExplained(s: State, c: Ctx)
    requires c.depth == CtxOf(s, s.cur).depth
    ensures Explained(s, WithCtx(s, c), [])
  {
    forall t, l ensures Depth(CtxOf(WithCtx(s, c), t), l) == Depth(CtxOf(s, t), l) {}
    ExplainedByNothing(s, WithCtx(s, c));
  }

  lemma PendEnter(s: State, c: Ctx, call: Call, pend: Pending)
    requires PendOk(s, pend) && Within(c.pc, call)
    ensures PendOk(WithCtx(s, c), pend[s.cur := call])
  {
  }

  lemma PendStays(s: State, c: Ctx, pend: Pending)
    requires PendOk(s, pend) && c.pc == CtxOf(s, s.cur).pc
    ensures PendOk(WithCtx(s, c), pend)
  {
  }

  lemma OwnFlag(s: State, c: Ctx, a: Action)
    requires c.ifOn == if a.SetIf? then a.on else CtxOf(s, s.cur).ifOn
    ensures FlagsKept(s, WithCtx(s, c), a)
  {
  }

  /** Theorem: every legal step is explained by its event, leaves every thread where its pending call says, and
      every interrupt flag as its thread set it. */
  lemma StepExplained(s: State, a: Action, idle: Tid, pend: Pending)
    requires Inv(s) && IdleInv(s, idle) && Enabled(s, a) && Disciplined(s, a, idle) && PendOk(s, pend)
    ensures Explained(s, Next(s, a), EventOf(s, a, pend)) && PendOk(Next(s, a), Pend(s, a, pend)) && FlagsKept(s, Next(s, a), a)
  {
    hide Inv, Advance, TimerHandler, PutByte, ThreadStart, Explained, PendOk, FlagsKept;
    var c := CtxOf(s, s.cur);
    match a {
      case Continue => ContinueExplained(s, pend);
      case Key(q, b) => KeyExplained(s, q, b, pend);
      case Timer => TimerExplained(s, pend);
      case Spawn(t, prio) => SpawnExplained(s, t, prio, pend);
      case SetIf(on) => OwnCtxExplained(s, c.(ifOn := on)); PendStays(s, c.(ifOn := on), pend); OwnFlag(s, c.(ifOn := on), a);
      case CallAcquire(l) => Enters(s, Acquire(l, Entry, ByProgram), AcquireCall(l), pend, a);
      case CallRelease(l) => Enters(s, Release(l, CheckHolder, ByProgram), ReleaseCall(l), pend, a);
      case CallGet(q) => Enters(s, GetTop(q), GetCall(q), pend, a);
      case CallPut(q, b) => Enters(s, PutTop(q, b), PutCall(q, b), pend, a);
    }
  }

  lemma Enters(s: State, pc: Pc, call: Call, pend: Pending, a: Action)
    requires PendOk(s, pend) && Within(pc, call) && !a.SetIf?
    ensures Explained(s, Goto(s, pc), []) && PendOk(Goto(s, pc), pend[s.cur := call]) && FlagsKept(s, Goto(s, pc), a)
  {
    hide Explained, PendOk, FlagsKept;
    OwnFlag(s, CtxOf(s, s.cur).(pc := pc), a);
    OwnCtxExplained(s, CtxOf(s, s.cur).(pc := pc));
    PendEnter(s, CtxOf(s, s.cur).(pc := pc), call, pend);
  }

  // ---------- runs ----------

  lemma ExplainedThen(s: State, s1: State, s': State, h: seq<Event>, k: seq<Event>)
    requires Explained(s, s1, h) && Explained(s1, s', k)
    ensures Explained(s, s', h + k)
  {
    hide Given, Taken, Nested;
    forall q ensures Given(h + k, q) == Given(h, q) + Given(k, q) && Taken(h + k, q) == Taken(h, q) + Taken(k, q) {
      HistoryAppend(h, k, q, 0, KernelLock(0));
    }
    forall t, l ensures Nested(h + k, t, l) == Nested(h, t, l) + Nested(k, t, l) { HistoryAppend(h, k, 0, t, l); }
  }

  /** The interrupt flag thread t set last, if it set one along the run. */
  function LastSet(s: State, run: seq<Action>, t: Tid, before: bool): bool
    decreases |run|
  {
    if run == [] then before
    else LastSet(Next(s, run[0]), run[1..], t, if run[0].SetIf? && s.cur == t then run[0].on else before)
  }

  /** Theorem: after every run the bytes put into and taken from each queue and every nesting depth are what
      the calls that returned, and the keys, make them; and each thread is outside the modelled functions or
      at a point of the call it has begun, with the queue and the byte it gave, and with interrupts as it set
      them itself. */
  lemma {:induction false} CallsExplainRuns(s: State, run: seq<Action>, idle: Tid, pend: Pending)
    requires Inv(s) && !s.halted && IdleInv(s, idle) && LegalRun(s, run, idle) && PendOk(s, pend)
    ensures Explained(s, Exec(s, run), History(s, run, pend)) && PendOk(Exec(s, run), PendAfter(s, run, pend))
    ensures forall t :: CtxOf(Exec(s, run), t).ifOn == LastSet(s, run, t, CtxOf(s, t).ifOn)
    decreases |run|
  {
    hide Inv, IdleInv, Next, Enabled, Disciplined, Explained, PendOk, EventOf, Pend, CtxOf;
    if run == [] {
      ExplainedByNothing(s, s);
    } else {
      var a := run[0];
      var s1 := Next(s, a);
      StepKeeps(s, a, idle);
      StepExplained(s, a, idle, pend);
      CallsExplainRuns(s1, run[1..], idle, Pend(s, a, pend));
      ExplainedThen(s, s1, Exec(s, run), EventOf(s, a, pend), History(s1, run[1..], Pend(s, a, pend)));
    }
  }

  /** Theorem: from boot, what ioq_getchar handed out on a queue is, in order, the first bytes that callers
      of ioq_putchar and the keyboard gave to it, as many as calls of ioq_getchar returned, and the buffer
      holds the rest; and the nesting depth of a lock is the acquisitions of it that returned, less the
      releases. */
  lemma CallsFromBoot(s0: State, main: Tid, run: seq<Action>, q: QueueId, t: Tid, l: LockId)
    requires InitState(s0, main) && LegalRun(s0, run, main) && l.KernelLock?
    ensures var s, h := Exec(s0, run), History(s0, run, map[]);
      && Taken(h, q) <= |Given(h, q)| && QueueAt(s, q).ring.got == Given(h, q)[..Taken(h, q)]
      && BytesIn(s, q) == Given(h, q)[Taken(h, q)..]
      && Depth(CtxOf(s, t), l) == Nested(h, t, l)
  {
    hide Inv;
    InitInv(s0, main);
    RunKeeps(s0, run, main);
    CallsExplainRuns(s0, run, main, map[]);
    hide Exec, History, LegalRun;
    var s, h := Exec(s0, run), History(s0, run, map[]);
    RingsOk(s, q);
    hide Contents;
    assert QueueAt(s, q).ring.put == [] + Given(h, q) == Given(h, q);
    assert Depth(CtxOf(s0, t), l) == 0;
  }
}
