/**
 The scheduler, semaphore, recursive lock and bounded queue as one transition system.

 There is a single CPU.  A section that runs with interrupts off is one atomic step; where
 interrupts are on, every load and store of shared data is a step of its own, and a timer or
 keyboard interrupt may come between any two.  Each thread carries a program counter that
 says where it stands inside the modelled functions.  A failing ASSERT spins for ever and is
 modelled by the flag `halted`.
 */
module KernelState {
  import opened Words

  type Tid = nat
  type QueueId = nat

  const BUF_SIZE: nat := 1024

  datatype Status = Running | Ready | Blocked | Waiting | Hanging | Died

  /** The lock inside a queue is used by the queue's own functions only. */
  datatype LockId = KernelLock(n: nat) | QueueLock(q: QueueId)

  datatype Sema = Sema(value: nat, waiters: seq<Tid>)
  datatype Lock = Lock(holder: Option<Tid>, repeat: nat, sema: Sema)

  /** The circular buffer, with the history of what was put into it and taken from it. */
  datatype Ring = Ring(buf: seq<char>, head: nat, tail: nat, put: seq<char>, got: seq<char>)
  datatype Queue = Queue(ring: Ring, producer: Option<Tid>, consumer: Option<Tid>)

  /** The scheduler's part of a task_struct. */
  datatype Pcb = Pcb(status: Status, ticks: nat, priority: nat, elapsed: nat)

  // Program points of lock_acquire.  Down is the call of sema_down with interrupts still as
  // the caller left them, InLoop is the point after thread_block inside its loop.
  datatype AcqPoint = Entry | Down | InLoop | SetHolder | CheckZero | SetOne | IncLoad | IncStore(tmp: nat)

  // Program points of lock_release.
  datatype RelPoint = CheckHolder | Test | DecLoad | DecStore(tmp: nat) | CheckOne | ClearHolder | ClearRepeat | Up

  datatype Caller = ByProgram | ByGet | ByPut(byte: char)

  datatype Pc =
    | Program
    | Acquire(l: LockId, acq: AcqPoint, who: Caller)
    | Release(l: LockId, rel: RelPoint, who: Caller)
    | GetTop(q: QueueId) | GetWait(q: QueueId) | GetSlot(q: QueueId)
    | PutTop(q: QueueId, byte: char) | PutWait(q: QueueId, byte: char) | PutSlot(q: QueueId, byte: char)

  /** A thread's own context: where it is, the interrupt flag its own code left behind, and
      how many acquisitions of each lock it has completed and not yet released. */
  datatype Ctx = Ctx(pc: Pc, ifOn: bool, depth: map<LockId, nat>)

  datatype State = State(cur: Tid, ready: seq<Tid>, all: seq<Tid>, pcbs: map<Tid, Pcb>, ctx: map<Tid, Ctx>,
                         locks: map<LockId, Lock>, queues: map<QueueId, Queue>, ticks: nat, halted: bool)

  datatype Action =
    | SetIf(on: bool)
    | CallAcquire(l: LockId)
    | CallRelease(l: LockId)
    | CallGet(q: QueueId)
    | CallPut(q: QueueId, byte: char)
    | Spawn(t: Tid, prio: int)
    | Continue
    | Timer
    | Key(q: QueueId, byte: char)

  // ---------- reading the state ----------

  function SemaInit(value: nat): Sema { Sema(value, []) }

  function LockInit(): Lock { Lock(None, 0, SemaInit(1)) }

  function QueueInit(): Queue { Queue(Ring(seq(BUF_SIZE, _ => '\0'), 0, 0, [], []), None, None) }

  function PcbOf(s: State, t: Tid): Pcb {
    if t in s.pcbs then s.pcbs[t] else Pcb(Died, 0, 0, 0)
  }

  function CtxOf(s: State, t: Tid): Ctx {
    if t in s.ctx then s.ctx[t] else Ctx(Program, false, map[])
  }

  function LockAt(s: State, l: LockId): Lock {
    if l in s.locks then s.locks[l] else LockInit()
  }

  function QueueAt(s: State, q: QueueId): Queue {
    if q in s.queues then s.queues[q] else QueueInit()
  }

  function Depth(c: Ctx, l: LockId): nat {
    if l in c.depth then c.depth[l] else 0
  }

  predicate IsBlocked(s: State, t: Tid) {
    t in s.pcbs && s.pcbs[t].status == Blocked
  }

  /** Interrupts are really on: the thread's own flag is set and it is not inside sema_down's loop. */
  predicate InterruptsOn(c: Ctx) {
    c.ifOn && !(c.pc.Acquire? && c.pc.acq.InLoop?)
  }

  // ---------- updating the state ----------

  function Halt(s: State): State { s.(halted := true) }

  function WithPcb(s: State, t: Tid, p: Pcb): State { s.(pcbs := s.pcbs[t := p]) }

  function WithLock(s: State, l: LockId, k: Lock): State { s.(locks := s.locks[l := k]) }

  function WithQueue(s: State, q: QueueId, k: Queue): State { s.(queues := s.queues[q := k]) }

  function WithCtx(s: State, c: Ctx): State { s.(ctx := s.ctx[s.cur := c]) }

  function Goto(s: State, pc: Pc): State { WithCtx(s, CtxOf(s, s.cur).(pc := pc)) }

  /** Record the thread's new nesting depth and move on. */
  function GotoDepth(s: State, pc: Pc, l: LockId, d: nat): State {
    var c := CtxOf(s, s.cur);
    WithCtx(s, c.(pc := pc, depth := c.depth[l := d]))
  }

  // ---------- thread.c ----------

  function Requeue(s: State): State {
    var p := PcbOf(s, s.cur);
    if p.status == Running
    then WithPcb(s.(ready := s.ready + [s.cur]), s.cur, p.(ticks := p.priority, status := Ready))
    else s
  }

  function Dispatch(s: State): State {
    if s.ready == [] then Halt(s)
    else
      var next := s.ready[0];
      WithPcb(s.(ready := s.ready[1..], cur := next), next, PcbOf(s, next).(status := Running))
  }

  function Schedule(s: State): State {
    if PcbOf(s, s.cur).status == Running && s.cur in s.ready then Halt(s) else Dispatch(Requeue(s))
  }

  function ThreadBlock(s: State, stat: Status): State {
    if stat !in {Waiting, Blocked, Hanging} then Halt(s)
    else Schedule(WithPcb(s, s.cur, PcbOf(s, s.cur).(status := stat)))
  }

  function ThreadUnblock(s: State, t: Tid): State {
    if PcbOf(s, t).status !in {Blocked, Hanging, Waiting} || t in s.ready then Halt(s)
    else WithPcb(s.(ready := [t] + s.ready), t, PcbOf(s, t).(status := Ready))
  }

  function ThreadStart(s: State, t: Tid, prio: int): State {
    if t in s.ready || t in s.all then Halt(s)
    else
      s.(ready := s.ready + [t], all := s.all + [t],
         pcbs := s.pcbs[t := Pcb(Ready, prio % U8, prio % U8, 0)],
         ctx := s.ctx[t := Ctx(Program, false, map[])])
  }

  // ---------- timer.c ----------

  function CountTick(s: State): State {
    var p := PcbOf(s, s.cur);
    WithPcb(s, s.cur, p.(elapsed := (p.elapsed + 1) % U32)).(ticks := (s.ticks + 1) % U32)
  }

  function TimerHandler(s: State): State {
    var s1 := CountTick(s);
    var p := PcbOf(s1, s1.cur);
    if p.ticks == 0 then Schedule(s1) else WithPcb(s1, s1.cur, p.(ticks := p.ticks - 1))
  }

  // ---------- sync.c ----------

  function WithSema(k: Lock, value: nat, waiters: seq<Tid>): Lock { k.(sema := Sema(value, waiters)) }

  /** One pass of sema_down: the test of the value, and what follows from it. */
  function SemaDown(s: State, l: LockId, who: Caller): State {
    var k := LockAt(s, l);
    if k.sema.value == 0 then
      if s.cur in k.sema.waiters then Halt(s)
      else
        var s1 := WithLock(s, l, WithSema(k, 0, k.sema.waiters + [s.cur]));
        ThreadBlock(Goto(s1, Acquire(l, InLoop, who)), Blocked)
    else if k.sema.value - 1 != 0 then Halt(s)
    else Goto(WithLock(s, l, WithSema(k, k.sema.value - 1, k.sema.waiters)), Acquire(l, SetHolder, who))
  }

  /** The waking half of sema_up. */
  function SemaWake(s: State, l: LockId): State {
    var k := LockAt(s, l);
    if k.sema.waiters == [] then s
    else ThreadUnblock(WithLock(s, l, WithSema(k, k.sema.value, k.sema.waiters[1..])), k.sema.waiters[0])
  }

  function SemaUp(s: State, l: LockId, who: Caller): State {
    if LockAt(s, l).sema.value != 0 then Halt(s)
    else
      var s1 := SemaWake(s, l);
      if s1.halted then s1
      else
        var k := LockAt(s1, l);
        var value := (k.sema.value + 1) % U8;
        if value != 1 then Halt(s1)
        else
          var d := Depth(CtxOf(s1, s1.cur), l);
          GotoDepth(WithLock(s1, l, WithSema(k, value, k.sema.waiters)), AfterRelease(l, who), l, if d == 0 then 0 else d - 1)
  }

  function AfterAcquire(l: LockId, who: Caller): Pc {
    match who
    case ByProgram => Program
    case ByGet => if l.QueueLock? then GetWait(l.q) else Program
    case ByPut(b) => if l.QueueLock? then PutWait(l.q, b) else Program
  }

  function AfterRelease(l: LockId, who: Caller): Pc {
    match who
    case ByProgram => Program
    case ByGet => if l.QueueLock? then GetTop(l.q) else Program
    case ByPut(b) => if l.QueueLock? then PutTop(l.q, b) else Program
  }

  function LockAcquire(s: State, l: LockId, at: AcqPoint, who: Caller): State {
    var k := LockAt(s, l);
    var d := Depth(CtxOf(s, s.cur), l);
    match at
    case Entry => Goto(s, Acquire(l, if k.holder != Some(s.cur) then Down else IncLoad, who))
    case Down => SemaDown(s, l, who)
    case InLoop => SemaDown(s, l, who)
    case SetHolder => Goto(WithLock(s, l, k.(holder := Some(s.cur))), Acquire(l, CheckZero, who))
    case CheckZero => if k.repeat != 0 then Halt(s) else Goto(s, Acquire(l, SetOne, who))
    case SetOne => GotoDepth(WithLock(s, l, k.(repeat := 1)), AfterAcquire(l, who), l, d + 1)
    case IncLoad => Goto(s, Acquire(l, IncStore(k.repeat), who))
    case IncStore(tmp) => GotoDepth(WithLock(s, l, k.(repeat := (tmp + 1) % U32)), AfterAcquire(l, who), l, d + 1)
  }

  function LockRelease(s: State, l: LockId, at: RelPoint, who: Caller): State {
    var k := LockAt(s, l);
    var d := Depth(CtxOf(s, s.cur), l);
    match at
    case CheckHolder => if k.holder != Some(s.cur) then Halt(s) else Goto(s, Release(l, Test, who))
    case Test => Goto(s, Release(l, if k.repeat > 1 then DecLoad else CheckOne, who))
    case DecLoad => Goto(s, Release(l, DecStore(k.repeat), who))
    case DecStore(tmp) =>
      GotoDepth(WithLock(s, l, k.(repeat := (tmp + U32 - 1) % U32)), AfterRelease(l, who), l, if d == 0 then 0 else d - 1)
    case CheckOne => if k.repeat != 1 then Halt(s) else Goto(s, Release(l, ClearHolder, who))
    case ClearHolder => Goto(WithLock(s, l, k.(holder := None)), Release(l, ClearRepeat, who))
    case ClearRepeat => Goto(WithLock(s, l, k.(repeat := 0)), Release(l, Up, who))
    case Up => SemaUp(s, l, who)
  }

  // ---------- ioqueue.c ----------

  function NextPos(pos: nat): nat { (pos + 1) % BUF_SIZE }

  predicate IsEmpty(r: Ring) { r.head == r.tail }

  predicate IsFull(r: Ring) { NextPos(r.head) == r.tail }

  function RingPut(r: Ring, b: char): Ring {
    r.(buf := if r.head < |r.buf| then r.buf[r.head := b] else r.buf, head := NextPos(r.head), put := r.put + [b])
  }

  function RingFront(r: Ring): char {
    if r.tail < |r.buf| then r.buf[r.tail] else '\0'
  }

  function RingGet(r: Ring): Ring {
    r.(tail := NextPos(r.tail), got := r.got + [RingFront(r)])
  }

  /** Store a byte and wake the waiting consumer, if there is one. */
  function PutByte(s: State, q: QueueId, b: char): State {
    var k := QueueAt(s, q);
    var s1 := WithQueue(s, q, k.(ring := RingPut(k.ring, b)));
    match k.consumer
    case None => s1
    case Some(t) =>
      var s2 := ThreadUnblock(s1, t);
      if s2.halted then s2 else WithQueue(s2, q, QueueAt(s2, q).(consumer := None))
  }

  /** Take a byte and wake the waiting producer, if there is one. */
  function GetByte(s: State, q: QueueId): State {
    var k := QueueAt(s, q);
    var s1 := WithQueue(s, q, k.(ring := RingGet(k.ring)));
    match k.producer
    case None => s1
    case Some(t) =>
      var s2 := ThreadUnblock(s1, t);
      if s2.halted then s2 else WithQueue(s2, q, QueueAt(s2, q).(producer := None))
  }

  function WaitConsumer(s: State, q: QueueId): State {
    var k := QueueAt(s, q);
    if k.consumer != None then Halt(s)
    else ThreadBlock(Goto(WithQueue(s, q, k.(consumer := Some(s.cur))), GetSlot(q)), Blocked)
  }

  function WaitProducer(s: State, q: QueueId, b: char): State {
    var k := QueueAt(s, q);
    if k.producer != None then Halt(s)
    else ThreadBlock(Goto(WithQueue(s, q, k.(producer := Some(s.cur))), PutSlot(q, b)), Blocked)
  }

  function GetLoop(s: State, q: QueueId): State {
    if IsEmpty(QueueAt(s, q).ring) then Goto(s, Acquire(QueueLock(q), Entry, ByGet))
    else
      var s1 := GetByte(s, q);
      if s1.halted then s1 else Goto(s1, Program)
  }

  function PutLoop(s: State, q: QueueId, b: char): State {
    if IsFull(QueueAt(s, q).ring) then Goto(s, Acquire(QueueLock(q), Entry, ByPut(b)))
    else
      var s1 := PutByte(s, q, b);
      if s1.halted then s1 else Goto(s1, Program)
  }

  // ---------- the transition system ----------

  /** The running thread executes up to its next step boundary. */
  function Advance(s: State): State {
    match CtxOf(s, s.cur).pc
    case Program => s
    case Acquire(l, at, who) => LockAcquire(s, l, at, who)
    case Release(l, at, who) => LockRelease(s, l, at, who)
    case GetTop(q) => GetLoop(s, q)
    case GetWait(q) => WaitConsumer(s, q)
    case GetSlot(q) => Goto(s, Release(QueueLock(q), CheckHolder, ByGet))
    case PutTop(q, b) => PutLoop(s, q, b)
    case PutWait(q, b) => WaitProducer(s, q, b)
    case PutSlot(q, b) => Goto(s, Release(QueueLock(q), CheckHolder, ByPut(b)))
  }

  function Next(s: State, a: Action): State {
    match a
    case SetIf(on) => WithCtx(s, CtxOf(s, s.cur).(ifOn := on))
    case CallAcquire(l) => Goto(s, Acquire(l, Entry, ByProgram))
    case CallRelease(l) => Goto(s, Release(l, CheckHolder, ByProgram))
    case CallGet(q) => if CtxOf(s, s.cur).ifOn then Halt(s) else Goto(s, GetTop(q))
    case CallPut(q, b) => if CtxOf(s, s.cur).ifOn then Halt(s) else Goto(s, PutTop(q, b))
    case Spawn(t, prio) => ThreadStart(s, t, prio)
    case Continue => Advance(s)
    case Timer => TimerHandler(s)
    case Key(q, b) => if IsFull(QueueAt(s, q).ring) then s else PutByte(s, q, b)
  }

  /** An action the hardware and the program text allow in this state. */
  predicate Enabled(s: State, a: Action) {
    var c := CtxOf(s, s.cur);
    && !s.halted
    && match a
       case Timer => InterruptsOn(c)
       case Key(_, _) => InterruptsOn(c)
       case Continue => !c.pc.Program?
       case CallAcquire(l) => c.pc.Program? && l.KernelLock?
       case CallRelease(l) => c.pc.Program? && l.KernelLock?
       case Spawn(t, _) => c.pc.Program? && t !in s.pcbs
       case _ => c.pc.Program?
  }

  /** The step would take the running thread off the CPU to wait for an event. */
  predicate Blocks(s: State, a: Action) {
    var pc := CtxOf(s, s.cur).pc;
    && a.Continue?
    && (|| (pc.Acquire? && (pc.acq.Down? || pc.acq.InLoop?) && LockAt(s, pc.l).sema.value == 0)
        || pc.GetWait? || pc.PutWait?)
  }

  /** Well-bracketed callers: a thread releases only what it holds, calls the queue with
      interrupts off, does not nest a lock 2^32 deep, and the idle thread does not wait. */
  predicate Disciplined(s: State, a: Action, idle: Tid) {
    var c := CtxOf(s, s.cur);
    && (a.CallRelease? ==> Depth(c, a.l) >= 1)
    && (a.CallAcquire? ==> Depth(c, a.l) + 1 < U32)
    && (a.CallGet? || a.CallPut? ==> !c.ifOn)
    && (s.cur == idle ==> !Blocks(s, a))
  }

  function Exec(s: State, run: seq<Action>): State
    decreases |run|
  {
    if run == [] then s else Exec(Next(s, run[0]), run[1..])
  }

  predicate LegalRun(s: State, run: seq<Action>, idle: Tid)
    decreases |run|
  {
    run == [] || (Enabled(s, run[0]) && Disciplined(s, run[0], idle) && LegalRun(Next(s, run[0]), run[1..], idle))
  }

  /** After thread_init: the first thread runs alone, every lock and queue is freshly initialised. */
  predicate InitState(s: State, main: Tid) {
    && s.cur == main && s.ready == [] && s.all == [main]
    && s.pcbs == map[main := Pcb(Running, 31, 31, 0)]
    && s.ctx == map[main := Ctx(Program, false, map[])]
    && s.locks == map[] && s.queues == map[] && s.ticks == 0 && !s.halted
  }
}
