/**
 The inductive invariant of the transition system, in parts that look at disjoint pieces of
 the state wherever that is possible.
 */
module KernelInv {
  import opened Words
  import opened KernelState

  ghost predicate NoDup<T>(xs: seq<T>) {
    forall i, j | 0 <= i < j < |xs| :: xs[i] != xs[j]
  }

  // ---------- the scheduler's own lists ----------

  predicate StatusOk(s: State, t: Tid)
    requires t in s.pcbs
  {
    var st := s.pcbs[t].status;
    && (st == Running || st == Ready || st == Blocked)
    && (st == Running <==> t == s.cur)
    && (st == Ready <==> t in s.ready)
  }

  ghost predicate SchedInv(s: State) {
    && s.cur in s.pcbs
    && NoDup(s.ready)
    && (forall t | t in s.ready :: t in s.pcbs)
    && (forall t | t in s.pcbs :: StatusOk(s, t))
    && s.ctx.Keys <= s.pcbs.Keys
    && NoDup(s.all) && (forall t :: t in s.all <==> t in s.pcbs)
  }

  // ---------- where a blocked thread waits ----------

  predicate AtLoop(pc: Pc, l: LockId) { pc.Acquire? && pc.acq.InLoop? && pc.l == l }

  predicate AtPutSlot(pc: Pc, q: QueueId) { pc.PutSlot? && pc.q == q }

  predicate CanBlock(pc: Pc) { (pc.Acquire? && pc.acq.InLoop?) || pc.GetSlot? || pc.PutSlot? }

  ghost predicate WaitersInv(s: State, l: LockId) {
    var w := LockAt(s, l).sema.waiters;
    && NoDup(w)
    && (forall t :: t in w <==> IsBlocked(s, t) && AtLoop(CtxOf(s, t).pc, l))
  }

  ghost predicate SlotsInv(s: State, q: QueueId) {
    var k := QueueAt(s, q);
    && (forall t: Tid :: k.consumer == Some(t) <==> IsBlocked(s, t) && CtxOf(s, t).pc == GetSlot(q))
    && (forall t: Tid :: k.producer == Some(t) <==> IsBlocked(s, t) && AtPutSlot(CtxOf(s, t).pc, q))
  }

  ghost predicate PlaceInv(s: State) {
    && (forall l :: WaitersInv(s, l))
    && (forall q :: SlotsInv(s, q))
    && (forall t :: IsBlocked(s, t) ==> CanBlock(CtxOf(s, t).pc))
  }

  // ---------- a thread's own context ----------

  predicate HoldsQueue(pc: Pc, q: QueueId) {
    match pc
    case GetWait(p) => p == q
    case GetSlot(p) => p == q
    case PutWait(p, _) => p == q
    case PutSlot(p, _) => p == q
    case Release(l, _, _) => l == QueueLock(q)
    case _ => false
  }

  /** What the program point inside lock_acquire says about the nesting depth. */
  predicate AcqDepthOk(at: AcqPoint, d: nat) {
    && (at.IncLoad? || at.IncStore? ==> d >= 1)
    && (at.IncStore? ==> at.tmp == d)
    && (!at.Entry? && !at.IncLoad? && !at.IncStore? ==> d == 0)
  }

  /** What the program point inside lock_release says about the nesting depth. */
  predicate RelDepthOk(at: RelPoint, d: nat) {
    && d >= 1
    && (at.DecLoad? || at.DecStore? ==> d > 1)
    && (at.DecStore? ==> at.tmp == d)
    && (at.CheckOne? || at.ClearHolder? || at.ClearRepeat? || at.Up? ==> d == 1)
  }

  /** Only the queue's functions use a queue's lock, and they run with interrupts off. */
  predicate CallerOk(l: LockId, who: Caller, ifOn: bool) {
    && (who == ByProgram <==> l.KernelLock?)
    && (who != ByProgram ==> !ifOn)
  }

  predicate PointOk(c: Ctx) {
    match c.pc
    case Acquire(l, at, who) => CallerOk(l, who, c.ifOn) && Depth(c, l) + 1 < U32 && AcqDepthOk(at, Depth(c, l))
    case Release(l, at, who) => CallerOk(l, who, c.ifOn) && RelDepthOk(at, Depth(c, l))
    case Program => true
    case _ => !c.ifOn
  }

  ghost predicate CtxOk(c: Ctx) {
    && PointOk(c)
    && (forall l :: Depth(c, l) < U32)
    && (forall q :: Depth(c, QueueLock(q)) == if HoldsQueue(c.pc, q) then 1 else 0)
  }

  ghost predicate CtxInv(s: State) {
    forall t :: CtxOk(CtxOf(s, t))
  }

  // ---------- one lock ----------

  /** The thread stands between sema_down's decrement and sema_up's increment. */
  predicate Owns(c: Ctx, l: LockId) {
    || Depth(c, l) > 0
    || (c.pc.Acquire? && c.pc.l == l && (c.pc.acq.SetHolder? || c.pc.acq.CheckZero? || c.pc.acq.SetOne?))
  }

  /** What the owner finds in the lock's fields at its program point. */
  predicate OwnerView(k: Lock, t: Tid, c: Ctx, l: LockId) {
    var self := k.holder == Some(t);
    if c.pc.Acquire? && c.pc.l == l && c.pc.acq.SetHolder? then k.holder == None && k.repeat == 0
    else if c.pc.Release? && c.pc.l == l && c.pc.rel.ClearRepeat? then k.holder == None && k.repeat == 1
    else if c.pc.Release? && c.pc.l == l && c.pc.rel.Up? then k.holder == None && k.repeat == 0
    else self && k.repeat == Depth(c, l)
  }

  ghost predicate NoOwner(s: State, l: LockId) {
    forall t :: !Owns(CtxOf(s, t), l)
  }

  ghost predicate SoleOwner(s: State, t: Tid, l: LockId) {
    && t in s.pcbs
    && Owns(CtxOf(s, t), l)
    && OwnerView(LockAt(s, l), t, CtxOf(s, t), l)
    && (forall u | u != t :: !Owns(CtxOf(s, u), l))
  }

  ghost predicate LockInv(s: State, l: LockId) {
    var k := LockAt(s, l);
    && k.sema.value <= 1
    && (k.sema.value == 1 ==> k.holder == None && k.repeat == 0 && NoOwner(s, l))
    && (k.sema.value == 0 ==> exists t :: SoleOwner(s, t, l))
  }

  ghost predicate LocksInv(s: State) {
    forall l :: LockInv(s, l)
  }

  // ---------- wake-ups ----------

  ghost predicate Woken(s: State, t: Tid, l: LockId) {
    t in s.pcbs && !IsBlocked(s, t) && AtLoop(CtxOf(s, t).pc, l)
  }

  ghost predicate WakeInv(s: State) {
    forall l :: LockAt(s, l).sema.value == 1 && LockAt(s, l).sema.waiters != [] ==> exists t :: Woken(s, t, l)
  }

  // ---------- the ring ----------

  function Contents(r: Ring): seq<char>
    requires |r.buf| == BUF_SIZE && r.head < BUF_SIZE && r.tail < BUF_SIZE
  {
    if r.tail <= r.head then r.buf[r.tail..r.head] else r.buf[r.tail..] + r.buf[..r.head]
  }

  predicate RingOk(r: Ring) {
    && |r.buf| == BUF_SIZE && r.head < BUF_SIZE && r.tail < BUF_SIZE
    && r.put == r.got + Contents(r)
  }

  ghost predicate RingsInv(s: State) {
    forall q :: RingOk(QueueAt(s, q).ring)
  }

  // ---------- all of it ----------

  ghost predicate Inv(s: State) {
    SchedInv(s) && PlaceInv(s) && CtxInv(s) && LocksInv(s) && WakeInv(s) && RingsInv(s)
  }

  ghost predicate IdleInv(s: State, idle: Tid) {
    idle in s.pcbs && !IsBlocked(s, idle)
  }
}
