/**
 When a reader can be left waiting beside unread bytes.  A thread that finds the buffer empty and
 the queue's lock free is in the slot before anything else can happen.  A thread that finds the
 lock taken waits for it, and then enters the slot without looking at the buffer again.
 */
module KernelStrand {
  import opened Words
  import opened KernelState
  import opened KernelInv
  import opened KernelSteps
  import opened KernelSwitches
  import opened KernelRuns
  import opened KernelTheorems
  import opened KernelParked
  import opened KernelPaths
  import opened KernelSlots
  import opened KernelRotate

  ghost predicate Stranded(s: State, q: QueueId, b: Tid) {
    QueueAt(s, q).consumer == Some(b) && !IsEmpty(QueueAt(s, q).ring)
  }

  /** A legal run that ends at the latest when thread b, once in the consumer slot of q, has left it:
      the run spans b's next wait there and no later one. */
  ghost predicate WaitRun(s: State, run: seq<Action>, idle: Tid, b: Tid, q: QueueId)
    decreases |run|
  {
    run == [] || (&& Enabled(s, run[0]) && Disciplined(s, run[0], idle) && (CtxOf(s, b).pc == GetSlot(q) ==> QueueAt(s, q).consumer == Some(b))
                  && WaitRun(Next(s, run[0]), run[1..], idle, b, q))
  }

  /** At some moment of its next wait the running thread can be in the slot beside unread bytes. */
  ghost predicate Strandable(s: State, q: QueueId, idle: Tid) {
    exists run :: WaitRun(s, run, idle, s.cur, q) && Stranded(Exec(s, run), q, s.cur)
  }

  lemma {:induction false} PathWaits(s: State, run: seq<Action>, idle: Tid, b: Tid, q: QueueId)
    requires Path(s, run, idle, b, q)
    ensures WaitRun(s, run, idle, b, q)
    decreases |run|
  {
    hide Enabled, Disciplined, Next;
    if run != [] { PathWaits(Next(s, run[0]), run[1..], idle, b, q); }
  }

  // ---------- a reader in the slot ----------

  lemma SwitchLeaves(s: State, t: Tid)
    ensures ThreadBlock(s, Blocked).queues == s.queues && ThreadUnblock(s, t).queues == s.queues
  {
    hide PcbOf;
  }

  lemma AcquireLeaves(s: State, l: LockId, at: AcqPoint, who: Caller)
    ensures LockAcquire(s, l, at, who).queues == s.queues
  {
    hide ThreadBlock, CtxOf, AfterAcquire, Depth;
    var k := LockAt(s, l);
    SwitchLeaves(Goto(WithLock(s, l, WithSema(k, 0, k.sema.waiters + [s.cur])), Acquire(l, InLoop, who)), 0);
  }

  lemma ReleaseLeaves(s: State, l: LockId, at: RelPoint, who: Caller)
    ensures LockRelease(s, l, at, who).queues == s.queues
  {
    hide ThreadUnblock, CtxOf, AfterRelease, Depth;
    var k := LockAt(s, l);
    if k.sema.waiters != [] { SwitchLeaves(WithLock(s, l, WithSema(k, k.sema.value, k.sema.waiters[1..])), k.sema.waiters[0]); }
  }

  /** Storing a byte empties the consumer slot, and leaves the other queues alone. */
  lemma PutLeaves(s: State, p: QueueId, ch: char, q: QueueId)
    requires Inv(s) && !s.halted && !IsFull(QueueAt(s, p).ring)
    ensures p != q ==> QueueAt(PutByte(s, p, ch), q) == QueueAt(s, q)
    ensures QueueAt(PutByte(s, p, ch), p).consumer == None
  {
    hide Inv, RingPut;
    PutByteKeeps(s, p, ch);
  }

  lemma GetLeaves(s: State, p: QueueId, q: QueueId)
    requires p != q
    ensures QueueAt(GetByte(s, p), q) == QueueAt(s, q)
  {
    hide RingGet;
  }

  lemma WaitLeaves(s: State, p: QueueId, ch: char, q: QueueId)
    requires p != q
    ensures QueueAt(WaitConsumer(s, p), q) == QueueAt(s, q) && QueueAt(WaitProducer(s, p, ch), q) == QueueAt(s, q)
  {
    hide ThreadBlock, CtxOf;
    var k := QueueAt(s, p);
    SwitchLeaves(Goto(WithQueue(s, p, k.(consumer := Some(s.cur))), GetSlot(p)), 0);
    SwitchLeaves(Goto(WithQueue(s, p, k.(producer := Some(s.cur))), PutSlot(p, ch)), 0);
  }

  /** While a reader is in the slot beside an empty buffer, the buffer stays empty: a byte that comes in takes
      the reader out of the slot. */
  lemma SlotStep(s: State, a: Action, q: QueueId, b: Tid)
    requires Inv(s) && Enabled(s, a) && QueueAt(s, q).consumer == Some(b) && IsEmpty(QueueAt(s, q).ring)
    ensures var s' := Next(s, a); QueueAt(s', q).consumer == Some(b) ==> IsEmpty(QueueAt(s', q).ring)
  {
    hide Inv, LockAcquire, LockRelease, GetByte, PutByte, WaitConsumer, WaitProducer, ThreadStart, TimerHandler;
    match a {
      case Continue => SlotContinues(s, q, b);
      case Timer => InvFacts(s, KernelLock(0)); TimerEffect(s);
      case Key(p, ch) => if !IsFull(QueueAt(s, p).ring) { PutLeaves(s, p, ch, q); }
      case Spawn(t, prio) => StartLeaves(s, t, prio);
      case _ =>
    }
  }

  lemma StartLeaves(s: State, t: Tid, prio: int)
    ensures ThreadStart(s, t, prio).queues == s.queues
  {
  }

  lemma SlotContinues(s: State, q: QueueId, b: Tid)
    requires Inv(s) && !s.halted && QueueAt(s, q).consumer == Some(b) && IsEmpty(QueueAt(s, q).ring)
    ensures var s' := Advance(s); QueueAt(s', q).consumer == Some(b) ==> IsEmpty(QueueAt(s', q).ring)
  {
    hide Inv, LockAcquire, LockRelease, GetByte, PutByte, WaitConsumer, WaitProducer;
    match CtxOf(s, s.cur).pc {
      case Acquire(l, at, who) => AcquireLeaves(s, l, at, who);
      case Release(l, at, who) => ReleaseLeaves(s, l, at, who);
      case GetTop(p) => if p != q { GetLeaves(s, p, q); }
      case PutTop(p, ch) => if !IsFull(QueueAt(s, p).ring) { PutLeaves(s, p, ch, q); }
      case GetWait(p) => if p == q { SlotsFree(s, q); } else { WaitLeaves(s, p, 'a', q); }
      case PutWait(p, ch) => if p == q { SlotsFree(s, q); } else { WaitLeaves(s, p, ch, q); }
      case _ =>
    }
  }

  /** So a reader that entered the slot beside an empty buffer is not stranded in that wait. */
  lemma {:induction false} StaysEmpty(s: State, run: seq<Action>, q: QueueId, idle: Tid, b: Tid)
    requires Good(s, idle) && QueueAt(s, q).consumer == Some(b) && IsEmpty(QueueAt(s, q).ring) && WaitRun(s, run, idle, b, q)
    ensures !Stranded(Exec(s, run), q, b)
    decreases |run|
  {
    hide Inv, IdleInv, Next, Disciplined, Enabled;
    if run != [] {
      var s' := Next(s, run[0]);
      SlotFacts(s, q, b, idle);
      SlotStep(s, run[0], q, b);
      OwnAction(s, run[0]);
      StepKeeps(s, run[0], idle);
      if QueueAt(s', q).consumer == Some(b) {
        StaysEmpty(s', run[1..], q, idle, b);
      } else {
        assert CtxOf(s', b).pc == GetSlot(q) && run[1..] == [];
      }
    }
  }

  // ---------- the lock is free ----------

  lemma {:induction false} NoStrand(s: State, run: seq<Action>, q: QueueId, idle: Tid)
    requires Good(s, idle) && Heading(s, QueueLock(q), ByGet) && IsEmpty(QueueAt(s, q).ring) && WaitRun(s, run, idle, s.cur, q)
    ensures !Stranded(Exec(s, run), q, s.cur)
    decreases |run|
  {
    hide Inv, IdleInv, Advance, Heading, Disciplined, Enabled;
    if run == [] {
      NotYetInSlot(s, q, idle);
    } else {
      OnlyContinue(s, q, ByGet, run[0]);
      var s' := Advance(s);
      StepKeeps(s, Continue, idle);
      if CtxOf(s, s.cur).pc == GetWait(q) {
        WaitBlocks(s, q);
        SomeoneIsReady(s, Continue, idle);
        EntersSlot(s, q, ByGet);
        StaysEmpty(s', run[1..], q, idle, s.cur);
      } else {
        HeadingMoves(s, QueueLock(q), ByGet);
        NoStrand(s', run[1..], q, idle);
      }
    }
  }

  lemma NotYetInSlot(s: State, q: QueueId, idle: Tid)
    requires Good(s, idle)
    ensures QueueAt(s, q).consumer != Some(s.cur)
  {
    hide Inv;
    if QueueAt(s, q).consumer == Some(s.cur) { SlotFacts(s, q, s.cur, idle); assert false; }
  }

  lemma WaitBlocks(s: State, q: QueueId)
    requires CtxOf(s, s.cur).pc == GetWait(q)
    ensures Blocks(s, Continue)
  {
  }

  /** Theorem: whoever else reads and writes, a thread that finds the buffer empty and the lock free is
      in the slot, beside the empty buffer, before anything else happens, and unread bytes do not gather
      beside it while it waits there. */
  lemma NeverStrandedWhenFree(s: State, q: QueueId, idle: Tid)
    requires Good(s, idle) && CtxOf(s, s.cur).pc == GetTop(q) && IsEmpty(QueueAt(s, q).ring)
    requires LockAt(s, QueueLock(q)).sema.value == 1
    ensures !Strandable(s, q, idle)
  {
    hide Inv, IdleInv, WaitRun, Stranded;
    forall run | WaitRun(s, run, idle, s.cur, q) ensures !Stranded(Exec(s, run), q, s.cur) {
      NoStrand(s, run, q, idle);
    }
  }

  // ---------- one round ----------

  /** Thread o stands in a slot of q beside at most two bytes, and idle is outside the modelled functions. */
  ghost predicate InLine(s: State, q: QueueId, idle: Tid, o: Tid, who: Caller) {
    && Good(s, idle) && who != ByProgram && SlotOf(QueueAt(s, q), who) == Some(o) && CtxOf(s, o).pc == SlotPoint(q, who)
    && |Bytes(s, q)| <= 2 && CtxOf(s, idle).pc == Program
  }

  /** The same with idle running. */
  ghost predicate Lined(s: State, q: QueueId, idle: Tid, o: Tid, who: Caller) { InLine(s, q, idle, o, who) && s.cur == idle }

  /** The occupant o of the slot is woken and its waker has given up the CPU to it. */
  ghost predicate Roused(s: State, s': State, q: QueueId, o: Tid) {
    && s'.cur == o && s'.ready == s.ready + [s.cur] && Line(s', q) == Line(s, q) && QueueAt(s', q).consumer == None
    && (forall t :: CtxOf(s', t).pc == CtxOf(s, t).pc)
  }

  /** A reader in the slot is woken by a byte from the keyboard. */
  lemma RouseReader(s0: State, s: State, q: QueueId, idle: Tid, b: Tid, o: Tid) returns (s': State)
    requires Leads(s0, s, idle, b, q) && Lined(s, q, idle, o, ByGet) && CtxOf(s, b).pc != GetSlot(q)
    ensures Leads(s0, s', idle, b, q) && Good(s', idle) && Roused(s, s', q, o) && 2 <= |Bytes(s', q)| <= 3
  {
    hide Inv, IdleInv, Leads, Bytes, LockAt, PutByte;
    SlotFacts(s, q, o, idle);
    Act(s0, s, SetIf(true), idle, b, q);
    var s1 := Next(s, SetIf(true));
    SameBytes(s, s1, q);
    SameLine(s, s1, q);
    BytesFacts(s1, q);
    KeyWakes(s1, q, 'a', o);
    Act(s0, s1, Key(q, 'a'), idle, b, q);
    var s2 := Next(s1, Key(q, 'a'));
    MoreBytes(s1, s2, q, 'a');
    SameLine(s1, s2, q);
    hide Next;
    var s3 := FillsUp(s0, s2, q, idle, b);
    SameLine(s2, s3, q);
    s' := Preempted(s0, s3, idle, b, q);
    SameLine(s3, s', q);
    SameBytes(s3, s', q);
    assert ([o] + s.ready)[1..] == s.ready;
  }

  /** The running thread sees to it that there are two bytes and calls ioq_getchar. */
  lemma CallsGet(s0: State, s: State, q: QueueId, idle: Tid, b: Tid) returns (s': State)
    requires Leads(s0, s, idle, b, q) && Good(s, idle) && CtxOf(s, s.cur).pc == Program && CtxOf(s, b).pc != GetSlot(q)
    requires QueueAt(s, q).consumer == None && |Bytes(s, q)| <= 2
    ensures Leads(s0, s', idle, b, q) && Good(s', idle) && s'.cur == s.cur && s'.ready == s.ready && s'.locks == s.locks
    ensures CtxOf(s', s.cur).pc == GetTop(q) && (forall t | t != s.cur :: CtxOf(s', t) == CtxOf(s, t))
    ensures QueueAt(s', q).consumer == None && QueueAt(s', q).producer == QueueAt(s, q).producer && |Bytes(s', q)| == 2
  {
    hide Inv, IdleInv, Leads, Bytes;
    Act(s0, s, SetIf(true), idle, b, q);
    var s1 := Next(s, SetIf(true));
    SameBytes(s, s1, q);
    var s2 := FillsUp(s0, s1, q, idle, b);
    Act(s0, s2, SetIf(false), idle, b, q);
    var s3 := Next(s2, SetIf(false));
    Act(s0, s3, CallGet(q), idle, b, q);
    s' := Next(s3, CallGet(q));
    SameBytes(s2, s', q);
  }

  /** A producer in the slot is woken by the running thread, which takes a byte. */
  lemma RouseProducer(s0: State, s: State, q: QueueId, idle: Tid, b: Tid, o: Tid, ch: char) returns (s': State)
    requires Leads(s0, s, idle, b, q) && Lined(s, q, idle, o, ByPut(ch)) && CtxOf(s, b).pc != GetSlot(q) && b != s.cur
    ensures Leads(s0, s', idle, b, q) && Good(s', idle) && Roused(s, s', q, o) && |Bytes(s', q)| == 1
  {
    hide Inv, IdleInv, Leads, Bytes, LockAt, Advance;
    SlotFacts(s, q, o, idle);
    var s1 := CallsGet(s0, s, q, idle, b);
    SameLine(s, s1, q);
    TakesByte(s1, q);
    Act(s0, s1, Continue, idle, b, q);
    var s2 := Advance(s1);
    SameLine(s1, s2, q);
    s' := Yields(s0, s2, idle, b, q);
    SameLine(s2, s', q);
    SameBytes(s2, s', q);
    assert ([o] + s.ready)[1..] == s.ready;
  }

  /** The woken occupant comes out, lets the next one off the line, finishes its call and gives up the CPU
      to it.  At least one byte is left. */
  lemma PassesOn(s0: State, s: State, q: QueueId, idle: Tid, b: Tid, o: Tid, who: Caller) returns (s': State)
    requires Leads(s0, s, idle, b, q) && Lined(s, q, idle, o, who) && b in Line(s, q)
    ensures Leads(s0, s', idle, b, q) && Good(s', idle) && s'.cur == Line(s, q)[0] && s'.ready == s.ready + [idle, o]
    ensures LockAt(s', QueueLock(q)).sema.value == 1 && Line(s', q) == Line(s, q)[1..] && 1 <= |Bytes(s', q)| <= 2
    ensures forall t | t != o :: CtxOf(s', t).pc == CtxOf(s, t).pc
  {
    hide Inv, IdleInv, Leads, Advance, Bytes, LockAt;
    SlotFacts(s, q, o, idle);
    WaiterFacts(s, q, b);
    var s1;
    if who == ByGet { s1 := RouseReader(s0, s, q, idle, b, o); } else { s1 := RouseProducer(s0, s, q, idle, b, o, who.byte); }
    var s2 := LeavesSlot(s0, s1, q, who, idle, b, q);
    SameBytes(s1, s2, q);
    FreeSlots(s2, q);
    BytesFacts(s2, q);
    if who == ByGet { TakesByte(s2, q); } else { PutsByte(s2, q, who.byte); }
    assert [] + s2.ready == s2.ready;
    Act(s0, s2, Continue, idle, b, q);
    var s3 := Advance(s2);
    SameLine(s2, s3, q);
    s' := Yields(s0, s3, idle, b, q);
    SameLine(s3, s', q);
    SameBytes(s3, s', q);
    Shifted(Line(s, q)[0], s.ready, idle, o);
  }

  lemma Shifted(c: Tid, xs: seq<Tid>, y: Tid, o: Tid)
    ensures ([c] + (xs + [y]))[1..] + [o] == xs + [y, o]
  {
  }

  lemma IdleNotInLine(s: State, q: QueueId, idle: Tid, c: Tid)
    requires Good(s, idle) && c in Line(s, q)
    ensures c != idle && c !in s.ready && c != s.cur
  {
    hide Inv;
    WaiterFacts(s, q, c);
  }

  lemma HeadsFromLoop(s: State, q: QueueId, who: Caller)
    requires who != ByProgram && CtxOf(s, s.cur).pc == Acquire(QueueLock(q), InLoop, who) && LockAt(s, QueueLock(q)).sema.value == 1
    ensures Heading(s, QueueLock(q), who)
  {
  }

  lemma HeadsFromTop(s: State, q: QueueId)
    requires CtxOf(s, s.cur).pc == GetTop(q) && IsEmpty(QueueAt(s, q).ring) && LockAt(s, QueueLock(q)).sema.value == 1
    ensures Heading(s, QueueLock(q), ByGet)
  {
  }

  /** A thread off the line finds the lock free, takes it and enters its slot. */
  lemma TakesPlace(s0: State, s: State, q: QueueId, idle: Tid, b: Tid, who: Caller) returns (s': State)
    requires Leads(s0, s, idle, b, q) && Good(s, idle) && s.cur != idle && s.ready != [] && who != ByProgram
    requires CtxOf(s, s.cur).pc == Acquire(QueueLock(q), InLoop, who) && LockAt(s, QueueLock(q)).sema.value == 1
    requires (s.cur != b ==> CtxOf(s, b).pc != GetSlot(q)) && ParkedInv(s)
    ensures Leads(s0, s', idle, b, q) && Good(s', idle) && Parked(CtxOf(s', s'.cur))
    ensures Lineup(s') == s.ready && Line(s', q) == Line(s, q) && Bytes(s', q) == Bytes(s, q)
    ensures SlotOf(QueueAt(s', q), who) == Some(s.cur) && CtxOf(s', s.cur).pc == SlotPoint(q, who)
    ensures forall t | t != s.cur :: CtxOf(s', t) == CtxOf(s, t)
  {
    hide Inv, IdleInv, Leads, Advance, Bytes, LockAt, Heading;
    HeadsFromLoop(s, q, who);
    LineupFacts(s, idle);
    var s1 := HeadsOn(s0, s, QueueLock(q), who, idle, b, q);
    SameBytes(s, s1, q);
    EntersSlot(s1, q, who);
    Act(s0, s1, Continue, idle, b, q);
    s' := Advance(s1);
    SameLine(s1, s', q);
    SameBytes(s1, s', q);
    assert [s.ready[0]] + s.ready[1..] == s.ready;
  }

  /** One round: the first thread in line, reader or producer, takes the place in the slot. */
  lemma Round(s0: State, s: State, q: QueueId, idle: Tid, b: Tid, o: Tid, who: Caller) returns (s': State, next: Caller)
    requires Good(s0, idle) && ParkedInv(s0) && Leads(s0, s, idle, b, q) && Lined(s, q, idle, o, who) && b in Line(s, q)
    ensures Parked(CtxOf(s', s'.cur))
    ensures Leads(s0, s', idle, b, q) && InLine(s', q, idle, Line(s, q)[0], next) && Line(s', q) == Line(s, q)[1..]
    ensures |Bytes(s', q)| >= 1 && CtxOf(s, Line(s, q)[0]).pc == Acquire(QueueLock(q), InLoop, next)
    ensures b != Line(s, q)[0] ==> CtxOf(s', b).pc == CtxOf(s, b).pc
  {
    hide Inv, IdleInv, Leads, Bytes, LockAt, ParkedInv, Parked;
    var c := Line(s, q)[0];
    assert c in Line(s, q);
    WaiterFacts(s, q, c);
    WaiterFacts(s, q, b);
    IdleNotInLine(s, q, idle, c);
    SlotFacts(s, q, o, idle);
    next := CtxOf(s, c).pc.who;
    var s1 := PassesOn(s0, s, q, idle, b, o, who);
    LeadsParks(s0, s1, idle, b, q);
    s' := TakesPlace(s0, s1, q, idle, b, next);
  }

  lemma PlaceOf(ts: seq<Tid>, t: Tid) returns (i: nat)
    requires t in ts
    ensures i < |ts| && ts[i] == t
  {
    i :| 0 <= i < |ts| && ts[i] == t;
  }

  /** Idle comes to the CPU while o stays in its slot. */
  lemma IdleRuns(s0: State, s: State, q: QueueId, idle: Tid, b: Tid, o: Tid, who: Caller) returns (s': State)
    requires Good(s0, idle) && ParkedInv(s0) && Leads(s0, s, idle, b, q) && InLine(s, q, idle, o, who) && b in Line(s, q)
    requires Parked(CtxOf(s, s.cur))
    ensures Leads(s0, s', idle, b, q) && Lined(s', q, idle, o, who) && Line(s, q) <= Line(s', q) && CtxOf(s', b) == CtxOf(s, b)
  {
    hide Inv, IdleInv, Leads, ParkedInv, Bytes, LockAt, Parked;
    LineupFacts(s, idle);
    LeadsParks(s0, s, idle, b, q);
    var i := PlaceOf(Lineup(s), idle);
    s' := RunUntil(s0, s, q, idle, b, o, idle, i);
    SameBytes(s, s', q);
  }

  /** Round after round the line moves up, until b stands in the slot. */
  lemma {:induction false} StrandsInTurn(s0: State, s: State, q: QueueId, idle: Tid, b: Tid, o: Tid, who: Caller, k: nat) returns (s': State)
    requires Good(s0, idle) && ParkedInv(s0) && Leads(s0, s, idle, b, q) && InLine(s, q, idle, o, who) && Parked(CtxOf(s, s.cur))
    requires k < |Line(s, q)| && Line(s, q)[k] == b && CtxOf(s, b).pc == Acquire(QueueLock(q), InLoop, ByGet)
    ensures Leads(s0, s', idle, b, q) && Stranded(s', q, b)
    decreases k
  {
    hide Inv, IdleInv, Leads, ParkedInv, Bytes, LockAt, Parked;
    var s1 := IdleRuns(s0, s, q, idle, b, o, who);
    assert Line(s1, q)[k] == b;
    var next: Caller;
    s', next := Round(s0, s1, q, idle, b, o, who);
    BytesFacts(s', q);
    if k > 0 {
      LineApart(s1, q, k);
      s' := StrandsInTurn(s0, s', q, idle, b, Line(s1, q)[0], next, k - 1);
    }
  }

  lemma LineApart(s: State, q: QueueId, k: nat)
    requires Inv(s) && 0 < k < |Line(s, q)|
    ensures Line(s, q)[k] != Line(s, q)[0]
  {
    assert WaitersInv(s, QueueLock(q));
  }

  // ---------- the lock is taken ----------

  lemma GoesForLock(s: State, q: QueueId)
    requires CtxOf(s, s.cur).pc == GetTop(q) && IsEmpty(QueueAt(s, q).ring)
    requires LockAt(s, QueueLock(q)).holder != Some(s.cur)
    ensures var s1 := Advance(s); var s2 := Advance(s1);
      && Quiet(s, s1) && CtxOf(s1, s.cur).pc == Acquire(QueueLock(q), Entry, ByGet) && s1.locks == s.locks
      && Quiet(s, s2) && CtxOf(s2, s.cur).pc == Acquire(QueueLock(q), Down, ByGet) && s2.locks == s.locks
  {
    hide GetByte, SemaDown;
  }

  lemma NotHolder(s: State, q: QueueId)
    requires Inv(s) && CtxOf(s, s.cur).pc == GetTop(q)
    ensures LockAt(s, QueueLock(q)).holder != Some(s.cur) && !Owns(CtxOf(s, s.cur), QueueLock(q))
  {
    hide Inv;
    InvFacts(s, QueueLock(q));
    if LockAt(s, QueueLock(q)).holder == Some(s.cur) {
      HolderOwns(s, s.cur, QueueLock(q));
      assert false;
    }
  }

  /** A thread that finds the buffer empty and the lock taken joins the end of the line. */
  lemma WaitsInLine(s: State, q: QueueId, idle: Tid) returns (s': State)
    requires Good(s, idle) && s.cur != idle && CtxOf(s, s.cur).pc == GetTop(q) && IsEmpty(QueueAt(s, q).ring) && s.ready != []
    requires LockAt(s, QueueLock(q)).sema.value == 0
    ensures Leads(s, s', idle, s.cur, q) && Good(s', idle)
    ensures s'.cur == s.ready[0] && s'.ready == s.ready[1..] && s'.queues == s.queues && Line(s', q) == Line(s, q) + [s.cur]
    ensures CtxOf(s', s.cur).pc == Acquire(QueueLock(q), InLoop, ByGet) && (forall t | t != s.cur :: CtxOf(s', t) == CtxOf(s, t))
  {
    hide Inv, IdleInv, Leads, Advance;
    var b := s.cur;
    NotHolder(s, q);
    GoesForLock(s, q);
    LeadsNowhere(s, idle, b, q);
    Act(s, s, Continue, idle, b, q);
    var s1 := Advance(s);
    Act(s, s1, Continue, idle, b, q);
    var s2 := Advance(s1);
    JoinsLine(s2, QueueLock(q), Down, ByGet);
    Act(s, s2, Continue, idle, b, q);
    s' := Advance(s2);
  }

  lemma IdleIsReady(s: State, idle: Tid)
    requires Inv(s) && IdleInv(s, idle) && idle != s.cur
    ensures s.ready != []
  {
    assert StatusOk(s, idle);
  }

  /** Where the reader b has got to: in line for the lock, or stranded already. */
  ghost predicate OnTheWay(s: State, q: QueueId, idle: Tid, b: Tid, o: Tid, who: Caller) {
    || Stranded(s, q, b)
    || (InLine(s, q, idle, o, who) && Parked(CtxOf(s, s.cur)) && b in Line(s, q) && CtxOf(s, b).pc == Acquire(QueueLock(q), InLoop, ByGet))
  }

  /** A woken reader that owns the lock and finds the buffer empty goes back into the slot; the thread it let
      off the line finds the lock taken and joins the end. */
  lemma ReaderGoesBack(s0: State, s: State, q: QueueId, idle: Tid, b: Tid) returns (s': State)
    requires Good(s0, idle) && ParkedInv(s0) && Leads(s0, s, idle, b, q) && Queued(s, q, idle, b, s.cur) && CtxOf(s, s.cur).pc == GetSlot(q)
    requires Bytes(s, q) == [] && CtxOf(s, b).pc == Acquire(QueueLock(q), InLoop, ByGet)
    ensures Leads(s0, s', idle, b, q) && OnTheWay(s', q, idle, b, s.cur, ByGet)
  {
    hide Inv, IdleInv, Leads, ParkedInv, Bytes, Advance, LockAt;
    var o, c := s.cur, Line(s, q)[0];
    WaiterFacts(s, q, c);
    BytesFacts(s, q);
    IdleIsReady(s, idle);
    var s1 := LeavesSlot(s0, s, q, ByGet, idle, b, q);
    var s2 := SlotAgain(s0, s1, q, idle, b);
    SameBytes(s, s2, q);
    assert s2.ready == s.ready && s2.cur == c;
    s' := GoesToEnd(s0, s2, q, idle, b, o, CtxOf(s, c).pc.who);
    SameBytes(s2, s', q);
    assert Line(s, q) == [c] + Line(s, q)[1..];
  }

  /** From the test of the empty buffer, with the lock free, into the slot. */
  lemma SlotAgain(s0: State, s: State, q: QueueId, idle: Tid, b: Tid) returns (s': State)
    requires Leads(s0, s, idle, b, q) && Good(s, idle) && s.cur != idle && s.cur != b && CtxOf(s, b).pc != GetSlot(q) && s.ready != []
    requires CtxOf(s, s.cur).pc == GetTop(q) && IsEmpty(QueueAt(s, q).ring) && LockAt(s, QueueLock(q)).sema.value == 1
    ensures Leads(s0, s', idle, b, q) && Good(s', idle) && s'.cur == s.ready[0] && s'.ready == s.ready[1..] && Line(s', q) == Line(s, q)
    ensures QueueAt(s', q) == Occupied(QueueAt(s, q), ByGet, s.cur) && CtxOf(s', s.cur).pc == GetSlot(q)
    ensures forall t | t != s.cur :: CtxOf(s', t) == CtxOf(s, t)
  {
    hide Inv, IdleInv, Leads, Advance, LockAt, Heading;
    HeadsFromTop(s, q);
    var s1 := HeadsOn(s0, s, QueueLock(q), ByGet, idle, b, q);
    EntersSlot(s1, q, ByGet);
    Act(s0, s1, Continue, idle, b, q);
    s' := Advance(s1);
    SameLine(s1, s', q);
  }

  /** The thread just let off the line finds the lock taken again. */
  lemma GoesToEnd(s0: State, s: State, q: QueueId, idle: Tid, b: Tid, o: Tid, who: Caller) returns (s': State)
    requires Good(s0, idle) && ParkedInv(s0) && Leads(s0, s, idle, b, q) && Good(s, idle) && CtxOf(s, idle).pc == Program
    requires CtxOf(s, s.cur).pc == Acquire(QueueLock(q), InLoop, who) && QueueAt(s, q).consumer == Some(o) && CtxOf(s, b).pc != GetSlot(q)
    ensures Leads(s0, s', idle, b, q) && Good(s', idle) && Parked(CtxOf(s', s'.cur)) && s'.queues == s.queues
    ensures Line(s', q) == Line(s, q) + [s.cur] && forall t :: CtxOf(s', t).pc == CtxOf(s, t).pc
  {
    hide Inv, IdleInv, Leads, Advance;
    SlotFacts(s, q, o, idle);
    SlotIsOwner(s, q, o);
    IdleIsReady(s, idle);
    LineupFacts(s, idle);
    LeadsParks(s0, s, idle, b, q);
    JoinsLine(s, QueueLock(q), InLoop, who);
    Act(s0, s, Continue, idle, b, q);
    s' := Advance(s);
  }

  /** A woken producer that owns the lock stores its byte; the first in line then enters the slot beside it. */
  lemma ProducerReturns(s0: State, s: State, q: QueueId, idle: Tid, b: Tid, ch: char) returns (s': State, next: Caller)
    requires Good(s0, idle) && ParkedInv(s0) && Leads(s0, s, idle, b, q) && Queued(s, q, idle, b, s.cur) && CtxOf(s, s.cur).pc == PutSlot(q, ch)
    requires Bytes(s, q) == [] && CtxOf(s, b).pc == Acquire(QueueLock(q), InLoop, ByGet)
    ensures Leads(s0, s', idle, b, q) && OnTheWay(s', q, idle, b, Line(s, q)[0], next)
  {
    hide Inv, IdleInv, Leads, ParkedInv, Parked, Bytes, Advance, LockAt;
    var c := Line(s, q)[0];
    WaiterFacts(s, q, c);
    IdleIsReady(s, idle);
    next := CtxOf(s, c).pc.who;
    var s1 := LeavesSlot(s0, s, q, ByPut(ch), idle, b, q);
    FreeSlots(s1, q);
    SameBytes(s, s1, q);
    BytesFacts(s1, q);
    PutsByte(s1, q, ch);
    Act(s0, s1, Continue, idle, b, q);
    var s2 := Advance(s1);
    SameLine(s1, s2, q);
    var s3 := Yields(s0, s2, idle, b, q);
    SameLine(s2, s3, q);
    SameBytes(s2, s3, q);
    LeadsParks(s0, s3, idle, b, q);
    s' := TakesPlace(s0, s3, q, idle, b, next);
    BytesFacts(s', q);
    assert Line(s, q) == [c] + Line(s, q)[1..];
  }

  /** The owner of the lock runs first if it has been woken. */
  lemma OwnerFirst(s: State, s1: State, q: QueueId, idle: Tid, b: Tid, o: Tid) returns (s': State, o': Tid, who: Caller)
    requires Good(s, idle) && ParkedInv(s) && Leads(s, s1, idle, b, q) && Queued(s1, q, idle, b, o) && Parked(CtxOf(s1, s1.cur))
    requires o in Lineup(s1) && Bytes(s1, q) == [] && CtxOf(s1, b).pc == Acquire(QueueLock(q), InLoop, ByGet)
    ensures Leads(s, s', idle, b, q) && OnTheWay(s', q, idle, b, o', who)
  {
    hide Inv, IdleInv, Leads, ParkedInv, Parked, Bytes, LockAt, OnTheWay;
    var i := PlaceOf(Lineup(s1), o);
    LeadsParks(s, s1, idle, b, q);
    var s2 := RunUntil(s, s1, q, idle, b, o, o, i);
    SameBytes(s1, s2, q);
    var pc := CtxOf(s2, o).pc;
    if pc == GetSlot(q) {
      s' := ReaderGoesBack(s, s2, q, idle, b);
      o', who := o, ByGet;
    } else {
      s', who := ProducerReturns(s, s2, q, idle, b, pc.byte);
      o' := Line(s2, q)[0];
    }
  }

  /** Theorem: with the lock taken, however many readers and producers are in line for it and whatever the
      other threads are doing, some legal run strands the thread that called, provided the idle thread is
      outside the modelled functions. */
  lemma StrandableWhenTaken(s: State, q: QueueId, idle: Tid)
    requires Good(s, idle) && ParkedInv(s) && s.cur != idle && CtxOf(s, s.cur).pc == GetTop(q) && IsEmpty(QueueAt(s, q).ring)
    requires LockAt(s, QueueLock(q)).sema.value == 0 && CtxOf(s, idle).pc == Program
    ensures Strandable(s, q, idle)
  {
    hide Inv, IdleInv, Leads, ParkedInv, Stranded, Strandable;
    var s' := StrandsTaken(s, q, idle);
    LeadsStrands(s, s', q, idle);
  }

  /** The run that strands it. */
  lemma StrandsTaken(s: State, q: QueueId, idle: Tid) returns (s': State)
    requires Good(s, idle) && ParkedInv(s) && s.cur != idle && CtxOf(s, s.cur).pc == GetTop(q) && IsEmpty(QueueAt(s, q).ring)
    requires LockAt(s, QueueLock(q)).sema.value == 0 && CtxOf(s, idle).pc == Program
    ensures Leads(s, s', idle, s.cur, q) && Stranded(s', q, s.cur)
  {
    hide Inv, IdleInv, Leads, Bytes, ParkedInv, SoleOwner, Stranded;
    var b := s.cur;
    NotHolder(s, q);
    IdleIsReady(s, idle);
    var o := OwnerInSlot(s, q);
    var s1 := WaitsInLine(s, q, idle);
    BytesFacts(s, q);
    SameBytes(s, s1, q);
    NextParked(s, s1);
    var s2, o', who := s1, o, if CtxOf(s, o).pc == GetSlot(q) then ByGet else ByPut(CtxOf(s, o).pc.byte);
    if o in s.ready {
      assert Lineup(s1) == s.ready;
      s2, o', who := OwnerFirst(s, s1, q, idle, b, o);
    }
    assert OnTheWay(s2, q, idle, b, o', who);
    if !Stranded(s2, q, b) {
      var k := PlaceOf(Line(s2, q), b);
      s2 := StrandsInTurn(s, s2, q, idle, b, o', who, k);
    }
    s' := s2;
  }

  lemma LeadsStrands(s: State, s': State, q: QueueId, idle: Tid)
    requires Leads(s, s', idle, s.cur, q) && Stranded(s', q, s.cur)
    ensures Strandable(s, q, idle)
  {
    var run :| Path(s, run, idle, s.cur, q) && Exec(s, run) == s';
    PathWaits(s, run, idle, s.cur, q);
  }

  lemma NextParked(s: State, s': State)
    requires Inv(s) && ParkedInv(s) && s'.cur in s.ready && forall t | t != s.cur :: CtxOf(s', t) == CtxOf(s, t)
    ensures Parked(CtxOf(s', s'.cur)) && s'.cur != s.cur
  {
    assert StatusOk(s, s'.cur);
    hide Inv;
  }

  /** Theorem: in every reachable state, a reader that finds the buffer empty can be stranded in the wait it
      is about to begin exactly when it finds the queue's lock taken.  That it can be needs one thread that
      goes on outside the modelled functions, as the first thread's endless loop does; that it otherwise
      cannot needs nothing. */
  lemma StrandableIff(s: State, q: QueueId, idle: Tid)
    requires Reachable(s) && IdleInv(s, idle) && s.cur != idle && CtxOf(s, s.cur).pc == GetTop(q) && IsEmpty(QueueAt(s, q).ring)
    ensures LockAt(s, QueueLock(q)).sema.value == 1 ==> !Strandable(s, q, idle)
    ensures CtxOf(s, idle).pc == Program ==> (Strandable(s, q, idle) <==> LockAt(s, QueueLock(q)).sema.value == 0)
  {
    hide Inv, IdleInv, ParkedInv, Strandable;
    ReachableInv(s);
    ReachableParks(s);
    InvFacts(s, QueueLock(q));
    if LockAt(s, QueueLock(q)).sema.value == 1 {
      NeverStrandedWhenFree(s, q, idle);
    } else if CtxOf(s, idle).pc == Program {
      StrandableWhenTaken(s, q, idle);
    }
  }

  // ---------- from boot ----------

  lemma Spawned(s: State, t: Tid)
    requires Inv(s) && t !in s.pcbs
    ensures var s' := Next(s, Spawn(t, 0));
      && s'.cur == s.cur && s'.ready == s.ready + [t] && s'.pcbs.Keys == s.pcbs.Keys + {t} && s'.locks == s.locks && s'.queues == s.queues
      && CtxOf(s', t) == Ctx(Program, false, map[]) && (forall u | u != t :: CtxOf(s', u) == CtxOf(s, u))
  {
    hide Inv, SchedInv, LockInv, CtxOk;
    InvFacts(s, KernelLock(0));
    CtxDomain(s);
    SpawnSched(s, t, 0);
  }

  /** After boot: main created two threads and gave up the CPU to the first. */
  lemma TwoThreads(s0: State, main: Tid, q: QueueId) returns (s: State)
    requires InitState(s0, main)
    ensures Leads(s0, s, main, main + 2, q) && Good(s, main) && s.cur == main + 1 && s.ready == [main + 2, main]
    ensures LockAt(s, QueueLock(q)) == LockInit() && QueueAt(s, q) == QueueInit()
    ensures forall t :: CtxOf(s, t).pc == Program && (t != main ==> !CtxOf(s, t).ifOn)
  {
    hide Inv, IdleInv, Leads;
    var a, b := main + 1, main + 2;
    InitInv(s0, main);
    forall t ensures CtxOf(s0, t) == Ctx(Program, false, map[]) {}
    LeadsNowhere(s0, main, b, q);
    Act(s0, s0, Spawn(a, 0), main, b, q);
    Spawned(s0, a);
    var s1 := Next(s0, Spawn(a, 0));
    Act(s0, s1, Spawn(b, 0), main, b, q);
    Spawned(s1, b);
    var s2 := Next(s1, Spawn(b, 0));
    assert s2.ready == [a, b];
    s := Yields(s0, s2, main, b, q);
  }

  /** The first of them waits in the slot for a first byte, and the second has just called ioq_getchar. */
  lemma SecondReaderCalls(s0: State, main: Tid, q: QueueId) returns (s: State)
    requires InitState(s0, main)
    ensures Leads(s0, s, main, s.cur, q) && Good(s, main) && s.cur == main + 2
    ensures CtxOf(s, s.cur).pc == GetTop(q) && IsEmpty(QueueAt(s, q).ring) && s.ready == [main] && CtxOf(s, main).pc == Program
    ensures QueueAt(s, q).consumer == Some(main + 1)
  {
    hide Inv, IdleInv, Leads, Advance;
    var b := main + 2;
    var s1 := TwoThreads(s0, main, q);
    assert CtxOf(s1, main).pc == Program && CtxOf(s1, b).pc == Program && !CtxOf(s1, b).ifOn;
    Act(s0, s1, CallGet(q), main, b, q);
    var s2 := Next(s1, CallGet(q));
    assert Heading(s2, QueueLock(q), ByGet) && CtxOf(s2, main) == CtxOf(s1, main);
    hide LockAt;
    var s3 := HeadsOn(s0, s2, QueueLock(q), ByGet, main, b, q);
    EntersSlot(s3, q, ByGet);
    Act(s0, s3, Continue, main, b, q);
    var s4 := Advance(s3);
    assert CtxOf(s4, main) == CtxOf(s3, main) == CtxOf(s2, main);
    assert s4.cur == b && s4.ready == [main] && IsEmpty(QueueAt(s4, q).ring);
    Act(s0, s4, CallGet(q), main, b, q);
    s := Next(s4, CallGet(q));
  }

  /** Theorem: with two readers a stranded one is reachable from boot. */
  lemma SecondReaderStranded(s0: State, main: Tid, q: QueueId) returns (s: State)
    requires InitState(s0, main)
    ensures Reachable(s) && Stranded(s, q, main + 2)
  {
    hide Inv, IdleInv, Leads;
    var s1 := SecondReaderCalls(s0, main, q);
    var b := main + 2;
    LeadsFromBoot(s0, main, s1, b, q);
    ReachableParks(s1);
    TakenBySlot(s1, q);
    s := StrandsTaken(s1, q, main);
    LeadsOn(s0, s1, s, main, b, q);
    LeadsFromBoot(s0, main, s, b, q);
  }

  lemma TakenBySlot(s: State, q: QueueId)
    requires Inv(s) && QueueAt(s, q).consumer.Some?
    ensures LockAt(s, QueueLock(q)).sema.value == 0
  {
    hide Inv;
    InvFacts(s, QueueLock(q));
    if LockAt(s, QueueLock(q)).sema.value == 1 { FreeSlots(s, q); assert false; }
  }
}
