/**
 A thread on its way through a queue's functions: into a slot, out of it, through the release of the
 queue's lock, and back with a byte taken or stored.
 */
module KernelSlots {
  import opened Words
  import opened KernelState
  import opened KernelInv
  import opened KernelSteps
  import opened KernelSwitches
  import opened KernelTheorems
  import opened KernelPaths

  // ---------- the wait itself ----------

  function SlotPoint(q: QueueId, who: Caller): Pc {
    match who
    case ByGet => GetSlot(q)
    case ByPut(ch) => PutSlot(q, ch)
    case ByProgram => Program
  }

  /** The slot of a queue that such a caller waits in. */
  function SlotOf(k: Queue, who: Caller): Option<Tid> {
    if who == ByGet then k.consumer else k.producer
  }

  function Occupied(k: Queue, who: Caller, t: Tid): Queue {
    if who == ByGet then k.(consumer := Some(t)) else k.(producer := Some(t))
  }

  lemma EntersSlot(s: State, q: QueueId, who: Caller)
    requires Inv(s) && !s.halted && who != ByProgram && CtxOf(s, s.cur).pc == AfterAcquire(QueueLock(q), who) && s.ready != []
    ensures var s' := Advance(s);
      && !s'.halted && s'.cur == s.ready[0] && s'.ready == s.ready[1..] && s'.locks == s.locks
      && CtxOf(s', s.cur).pc == SlotPoint(q, who) && (forall t | t != s.cur :: CtxOf(s', t) == CtxOf(s, t))
      && QueueAt(s', q) == Occupied(QueueAt(s, q), who, s.cur) && (forall p | p != q :: QueueAt(s', p) == QueueAt(s, p))
  {
    hide Inv, SchedInv, LockInv, CtxOk;
    InvFacts(s, KernelLock(0));
    SlotsFree(s, q);
  }

  // ---------- bytes ----------

  ghost function Bytes(s: State, q: QueueId): seq<char> {
    if RingOk(QueueAt(s, q).ring) then Contents(QueueAt(s, q).ring) else []
  }

  lemma BytesFacts(s: State, q: QueueId)
    requires Inv(s)
    ensures RingOk(QueueAt(s, q).ring) && (IsEmpty(QueueAt(s, q).ring) <==> Bytes(s, q) == [])
    ensures |Bytes(s, q)| < 1023 ==> !IsFull(QueueAt(s, q).ring)
  {
    hide Inv, RingOk, Contents, SchedInv, SlotsInv;
    QueueFacts(s, q);
    RingFacts(QueueAt(s, q).ring);
  }

  lemma SameBytes(s: State, s': State, q: QueueId)
    requires QueueAt(s', q).ring == QueueAt(s, q).ring
    ensures Bytes(s', q) == Bytes(s, q)
  {
  }

  lemma MoreBytes(s: State, s': State, q: QueueId, ch: char)
    requires Inv(s) && !IsFull(QueueAt(s, q).ring) && QueueAt(s', q).ring == RingPut(QueueAt(s, q).ring, ch)
    ensures |Bytes(s', q)| == |Bytes(s, q)| + 1
  {
    hide Inv, Contents, RingPut;
    QueueFacts(s, q);
    RingPutKeeps(QueueAt(s, q).ring, ch);
  }

  lemma FewerBytes(s: State, s': State, q: QueueId)
    requires Inv(s) && !IsEmpty(QueueAt(s, q).ring) && QueueAt(s', q).ring == RingGet(QueueAt(s, q).ring)
    ensures |Bytes(s', q)| == |Bytes(s, q)| - 1
  {
    hide Inv, Contents, RingGet;
    QueueFacts(s, q);
    RingGetKeeps(QueueAt(s, q).ring);
  }

  // ---------- the line for the lock ----------

  function Line(s: State, q: QueueId): seq<Tid> { LockAt(s, QueueLock(q)).sema.waiters }

  function Front(xs: seq<Tid>): seq<Tid> { if xs == [] then [] else [xs[0]] }

  function Rest(xs: seq<Tid>): seq<Tid> { if xs == [] then [] else xs[1..] }

  lemma SameLine(s: State, s': State, q: QueueId)
    requires s'.locks == s.locks
    ensures Line(s', q) == Line(s, q) && LockAt(s', QueueLock(q)) == LockAt(s, QueueLock(q))
  {
  }

  lemma WaiterFacts(s: State, q: QueueId, t: Tid)
    requires Inv(s) && t in Line(s, q)
    ensures IsBlocked(s, t) && t !in s.ready && t != s.cur && CtxOf(s, t).pc.Acquire?
    ensures var pc := CtxOf(s, t).pc; pc == Acquire(QueueLock(q), InLoop, pc.who) && pc.who != ByProgram
  {
    assert WaitersInv(s, QueueLock(q));
    assert StatusOk(s, t) && CtxOk(CtxOf(s, t));
  }

  lemma SlotFacts(s: State, q: QueueId, o: Tid, idle: Tid)
    requires Good(s, idle) && (QueueAt(s, q).consumer == Some(o) || QueueAt(s, q).producer == Some(o))
    ensures o != idle && o != s.cur && o !in s.ready && IsBlocked(s, o)
    ensures QueueAt(s, q).consumer == Some(o) ==> CtxOf(s, o).pc == GetSlot(q) && QueueAt(s, q).producer == None
    ensures QueueAt(s, q).producer == Some(o) ==>
      CtxOf(s, o).pc.PutSlot? && CtxOf(s, o).pc == PutSlot(q, CtxOf(s, o).pc.byte) && QueueAt(s, q).consumer == None
  {
    hide Inv;
    InvFacts(s, QueueLock(q));
    QueueFacts(s, q);
    SlotOwns(s, q, o);
    assert StatusOk(s, o);
    OwnerIsSole(s, o, QueueLock(q));
    var k := QueueAt(s, q);
    if k.consumer.Some? { SlotOwns(s, q, k.consumer.value); }
    if k.producer.Some? { SlotOwns(s, q, k.producer.value); }
  }

  lemma FreeSlots(s: State, q: QueueId)
    requires Inv(s) && LockAt(s, QueueLock(q)).sema.value == 1
    ensures QueueAt(s, q).consumer == None && QueueAt(s, q).producer == None
  {
    hide Inv;
    InvFacts(s, QueueLock(q));
    var k := QueueAt(s, q);
    if k.consumer.Some? { SlotOwns(s, q, k.consumer.value); assert false; }
    if k.producer.Some? { SlotOwns(s, q, k.producer.value); assert false; }
  }

  // ---------- the keyboard ----------

  /** A step that changes nothing but the ring of q. */
  ghost predicate RingOnly(s: State, s': State, q: QueueId) {
    && s'.cur == s.cur && s'.ctx == s.ctx && s'.locks == s.locks
    && QueueAt(s', q).producer == QueueAt(s, q).producer
  }

  lemma KeyWakes(s: State, q: QueueId, ch: char, o: Tid)
    requires Inv(s) && !s.halted && QueueAt(s, q).consumer == Some(o) && !IsFull(QueueAt(s, q).ring)
    ensures var s' := Next(s, Key(q, ch));
      && RingOnly(s, s', q) && s'.ready == [o] + s.ready
      && QueueAt(s', q).consumer == None && QueueAt(s', q).ring == RingPut(QueueAt(s, q).ring, ch)
  {
    hide Inv, RingPut, RingOk;
    QueueFacts(s, q);
    assert IsBlocked(s, o) && StatusOk(s, o);
  }

  lemma KeyQuiet(s: State, q: QueueId, ch: char)
    requires QueueAt(s, q).consumer == None && !IsFull(QueueAt(s, q).ring)
    ensures var s' := Next(s, Key(q, ch));
      && RingOnly(s, s', q) && s'.ready == s.ready
      && QueueAt(s', q).consumer == None && QueueAt(s', q).ring == RingPut(QueueAt(s, q).ring, ch)
  {
  }

  /** With interrupts on and no reader in the slot, bytes arrive until there are two. */
  lemma {:induction false} FillsUp(s0: State, s: State, q: QueueId, idle: Tid, b: Tid) returns (s': State)
    requires Leads(s0, s, idle, b, q) && Good(s, idle) && InterruptsOn(CtxOf(s, s.cur))
    requires QueueAt(s, q).consumer == None && |Bytes(s, q)| <= 3 && CtxOf(s, b).pc != GetSlot(q)
    ensures Leads(s0, s', idle, b, q) && Good(s', idle) && RingOnly(s, s', q) && s'.ready == s.ready
    ensures QueueAt(s', q).consumer == None && |Bytes(s', q)| == if |Bytes(s, q)| < 2 then 2 else |Bytes(s, q)|
    decreases 3 - |Bytes(s, q)|
  {
    hide Inv, IdleInv, Leads, Next, Bytes;
    s' := s;
    if |Bytes(s, q)| < 2 {
      BytesFacts(s, q);
      Act(s0, s, Key(q, 'a'), idle, b, q);
      KeyQuiet(s, q, 'a');
      MoreBytes(s, Next(s, Key(q, 'a')), q, 'a');
      s' := FillsUp(s0, Next(s, Key(q, 'a')), q, idle, b);
    }
  }

  // ---------- leaving a slot ----------

  function NextRel(at: RelPoint): RelPoint {
    match at
    case CheckHolder => Test
    case Test => CheckOne
    case CheckOne => ClearHolder
    case ClearHolder => ClearRepeat
    case _ => Up
  }

  function RelLeft(at: RelPoint): nat {
    match at
    case CheckHolder => 5
    case Test => 4
    case CheckOne => 3
    case ClearHolder => 2
    case ClearRepeat => 1
    case _ => 0
  }

  lemma HolderView(s: State, q: QueueId, at: RelPoint, who: Caller)
    requires Inv(s) && CtxOf(s, s.cur).pc == Release(QueueLock(q), at, who)
    ensures var k := LockAt(s, QueueLock(q));
      && k.sema.value == 0 && !at.DecLoad? && !at.DecStore?
      && (at in {CheckHolder, Test, CheckOne} ==> k.holder == Some(s.cur) && k.repeat == 1)
  {
    hide Inv;
    InvFacts(s, QueueLock(q));
    assert HoldsQueue(CtxOf(s, s.cur).pc, q);
    OwnerIsSole(s, s.cur, QueueLock(q));
    hide SchedInv, LockInv;
  }

  lemma RelMoves(s: State, q: QueueId, at: RelPoint, who: Caller)
    requires Inv(s) && !s.halted && CtxOf(s, s.cur).pc == Release(QueueLock(q), at, who) && at != Up
    ensures var s' := Advance(s);
      && Quiet(s, s') && CtxOf(s', s.cur).pc == Release(QueueLock(q), NextRel(at), who)
  {
    hide Inv, SemaUp;
    HolderView(s, q, at, who);
  }

  lemma {:induction false} ReleasesOn(s0: State, s: State, p: QueueId, at: RelPoint, who: Caller, idle: Tid, b: Tid, q: QueueId) returns (s': State)
    requires Leads(s0, s, idle, b, q) && Good(s, idle) && CtxOf(s, s.cur).pc == Release(QueueLock(p), at, who)
    requires CtxOf(s, b).pc != GetSlot(q) && s.cur != b
    ensures Leads(s0, s', idle, b, q) && Good(s', idle) && Quiet(s, s') && CtxOf(s', s.cur).pc == Release(QueueLock(p), Up, who)
    decreases RelLeft(at)
  {
    hide Inv, IdleInv, Leads, Advance;
    HolderView(s, p, at, who);
    s' := s;
    if at != Up {
      RelMoves(s, p, at, who);
      Act(s0, s, Continue, idle, b, q);
      s' := ReleasesOn(s0, Advance(s), p, NextRel(at), who, idle, b, q);
    }
  }

  lemma UpWakesFirst(s: State, p: QueueId, who: Caller)
    requires Inv(s) && !s.halted && CtxOf(s, s.cur).pc == Release(QueueLock(p), Up, who)
    ensures var s' := Advance(s);
      && s'.cur == s.cur && s'.ready == Front(Line(s, p)) + s.ready && Line(s', p) == Rest(Line(s, p)) && s'.queues == s.queues
      && (forall r | r != p :: Line(s', r) == Line(s, r))
      && LockAt(s', QueueLock(p)).sema.value == 1 && CtxOf(s', s.cur).pc == AfterRelease(QueueLock(p), who)
      && (forall t | t != s.cur :: CtxOf(s', t) == CtxOf(s, t))
  {
    hide Inv, SchedInv, LockInv, CtxOk, AfterRelease, SemaWake;
    InvFacts(s, QueueLock(p));
    HolderView(s, p, Up, who);
    WakeEffect(s, QueueLock(p));
    FrontWoken(s, p);
  }

  lemma FrontWoken(s: State, p: QueueId)
    requires Inv(s)
    ensures SemaWake(s, QueueLock(p)).ready == Front(Line(s, p)) + s.ready
  {
    hide Inv, SchedInv;
    if Line(s, p) != [] { WaiterFacts(s, p, Line(s, p)[0]); } else { assert [] + s.ready == s.ready; }
  }

  /** From the slot of queue p through lock_release and sema_up, which lets the first thread off the line,
      back to the test of the buffer. */
  lemma LeavesSlot(s0: State, s: State, p: QueueId, who: Caller, idle: Tid, b: Tid, q: QueueId) returns (s': State)
    requires Leads(s0, s, idle, b, q) && Good(s, idle) && who != ByProgram && CtxOf(s, s.cur).pc == SlotPoint(p, who)
    requires s.cur != b && CtxOf(s, b).pc != GetSlot(q)
    ensures Leads(s0, s', idle, b, q) && Good(s', idle)
    ensures s'.cur == s.cur && s'.ready == Front(Line(s, p)) + s.ready && Line(s', p) == Rest(Line(s, p)) && s'.queues == s.queues
    ensures forall r | r != p :: Line(s', r) == Line(s, r)
    ensures LockAt(s', QueueLock(p)).sema.value == 1 && CtxOf(s', s.cur).pc == AfterRelease(QueueLock(p), who)
    ensures forall t | t != s.cur :: CtxOf(s', t) == CtxOf(s, t)
  {
    hide Inv, IdleInv, Leads, LockRelease, AfterRelease;
    Act(s0, s, Continue, idle, b, q);
    var s1 := Next(s, Continue);
    assert CtxOf(s1, s.cur).pc == Release(QueueLock(p), CheckHolder, who) && Quiet(s, s1);
    hide Advance;
    var s2 := ReleasesOn(s0, s1, p, CheckHolder, who, idle, b, q);
    UpWakesFirst(s2, p, who);
    Act(s0, s2, Continue, idle, b, q);
    s' := Advance(s2);
  }

  // ---------- taking and putting a byte ----------

  /** The running thread returned from the queue and only the queue changed. */
  ghost predicate Returned(s: State, s': State, q: QueueId) {
    && s'.cur == s.cur && s'.locks == s.locks && CtxOf(s', s.cur).pc == Program && (forall p | p != q :: QueueAt(s', p) == QueueAt(s, p))
    && (forall t | t != s.cur :: CtxOf(s', t) == CtxOf(s, t))
  }

  /** Taking a byte wakes the producer in the slot, if there is one. */
  lemma TakesByte(s: State, q: QueueId)
    requires Inv(s) && !s.halted && CtxOf(s, s.cur).pc == GetTop(q) && Bytes(s, q) != [] && QueueAt(s, q).consumer == None
    ensures var s' := Advance(s); var p := QueueAt(s, q).producer;
      && Returned(s, s', q) && s'.ready == (if p.Some? then [p.value] else []) + s.ready
      && QueueAt(s', q).consumer == None && |Bytes(s', q)| == |Bytes(s, q)| - 1
  {
    hide Inv, RingOk, RingGet, Bytes, GetByte;
    BytesFacts(s, q);
    var p := QueueAt(s, q).producer;
    if p.Some? { ProducerBlocked(s, q, p.value); }
    FetchEffect(s, q);
    var s1, s' := GetByte(s, q), Advance(s);
    assert s' == Goto(s1, Program);
    FewerBytes(s, s', q);
  }

  lemma ProducerBlocked(s: State, q: QueueId, p: Tid)
    requires Inv(s) && QueueAt(s, q).producer == Some(p)
    ensures PcbOf(s, p).status == Blocked && p !in s.ready
  {
    assert SlotsInv(s, q);
    assert IsBlocked(s, p) && StatusOk(s, p);
  }

  lemma FetchEffect(s: State, q: QueueId)
    requires QueueAt(s, q).producer.Some? ==> PcbOf(s, QueueAt(s, q).producer.value).status == Blocked && QueueAt(s, q).producer.value !in s.ready
    ensures var s' := GetByte(s, q); var p := QueueAt(s, q).producer;
      && s'.halted == s.halted && s'.cur == s.cur && s'.ctx == s.ctx && s'.locks == s.locks
      && s'.ready == (if p.Some? then [p.value] else []) + s.ready
      && QueueAt(s', q).consumer == QueueAt(s, q).consumer && QueueAt(s', q).ring == RingGet(QueueAt(s, q).ring)
      && (forall p | p != q :: QueueAt(s', p) == QueueAt(s, p))
  {
    hide RingGet;
    assert [] + s.ready == s.ready;
  }

  lemma PutsByte(s: State, q: QueueId, ch: char)
    requires Inv(s) && !s.halted && CtxOf(s, s.cur).pc == PutTop(q, ch) && !IsFull(QueueAt(s, q).ring) && QueueAt(s, q).consumer == None
    ensures var s' := Advance(s);
      && Returned(s, s', q) && s'.ready == s.ready && QueueAt(s', q).consumer == None && |Bytes(s', q)| == |Bytes(s, q)| + 1
  {
    hide Inv, RingOk, RingPut, Bytes;
    BytesFacts(s, q);
    MoreBytes(s, Advance(s), q, ch) by { assert QueueAt(Advance(s), q).ring == RingPut(QueueAt(s, q).ring, ch); }
  }
}
