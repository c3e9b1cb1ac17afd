/**
 Bringing a chosen ready thread to the CPU.  The threads in front of it are run until they wait again
 or can be preempted; what they do may wake others, but only finitely many.
 */
module KernelRotate {
  import opened Words
  import opened KernelState
  import opened KernelInv
  import opened KernelSteps
  import opened KernelSwitches
  import opened KernelParked
  import opened KernelPaths
  import opened KernelSlots

  // ---------- who can run, and how much work is in front ----------

  /** The threads that can run, in the order in which they will. */
  function Lineup(s: State): seq<Tid> { [s.cur] + s.ready }

  /** A bound on the turns a thread takes or causes until it waits or can be preempted. */
  function Weight(pc: Pc): nat {
    match pc
    case Acquire(_, at, _) => if at.InLoop? then 2 else 1
    case GetSlot(_) => 4
    case PutSlot(_, _) => 4
    case _ => 1
  }

  function Load(s: State, ts: seq<Tid>): nat {
    if ts == [] then 0 else Weight(CtxOf(s, ts[0]).pc) + Load(s, ts[1..])
  }

  lemma {:induction false} LoadSame(s: State, s': State, ts: seq<Tid>)
    requires forall t | t in ts :: CtxOf(s', t).pc == CtxOf(s, t).pc
    ensures Load(s', ts) == Load(s, ts)
  {
    if ts != [] { LoadSame(s, s', ts[1..]); }
  }

  lemma LoadCons(s: State, t: Tid, ts: seq<Tid>)
    ensures Load(s, [t] + ts) == Weight(CtxOf(s, t).pc) + Load(s, ts)
  {
    assert ([t] + ts)[1..] == ts;
  }

  /** The work in front of a thread, the one that runs first. */
  lemma LoadAhead(s: State, s': State, x: Tid, ahead: seq<Tid>)
    requires x !in ahead && forall t | t != x :: CtxOf(s', t) == CtxOf(s, t)
    ensures Load(s', ahead) == Load(s, ahead)
  {
    LoadSame(s, s', ahead);
  }

  lemma LoadWoken(s: State, woken: seq<Tid>, ahead: seq<Tid>)
    requires |woken| <= 1 && forall t | t in woken :: Weight(CtxOf(s, t).pc) == 2
    ensures Load(s, woken + ahead) == 2 * |woken| + Load(s, ahead)
  {
    if woken == [] {
      assert woken + ahead == ahead;
    } else {
      assert woken == [woken[0]] && woken[0] in woken;
      LoadCons(s, woken[0], ahead);
    }
  }

  /** The lineup with x running and `woken` just behind it. */
  lemma Behind(x: Tid, woken: seq<Tid>, ready: seq<Tid>, i: nat)
    requires 0 < i <= |ready|
    ensures var l := [x] + (woken + ready); l[..i + |woken|] == [x] + (woken + ready[..i - 1]) && l[i + |woken|] == ready[i - 1]
  {
  }

  /** The lineup with the first of `ahead` running. */
  lemma InFront(xs: seq<Tid>, tail: seq<Tid>, i: nat)
    requires i < |xs|
    ensures var l := [xs[0]] + (xs[1..] + tail); l[..i] == xs[..i] && l[i] == xs[i]
  {
    assert [xs[0]] + (xs[1..] + tail) == xs + tail;
  }

  lemma NotAhead(x: Tid, woken: seq<Tid>, ready: seq<Tid>, i: nat)
    requires 0 < i <= |ready| && x !in ready && x !in woken
    ensures x !in ready[..i - 1] && x !in woken + ready[..i - 1]
  {
  }

  // ---------- what a turn leaves as it is ----------

  predicate AtSlot(pc: Pc, q: QueueId) { pc == GetSlot(q) || AtPutSlot(pc, q) }

  predicate InSlot(s: State, q: QueueId, o: Tid) { QueueAt(s, q).consumer == Some(o) || QueueAt(s, q).producer == Some(o) }

  /** Thread b waits for the lock of q, which o owns at the point behind the wait in a slot, and idle is
      outside the modelled functions. */
  ghost predicate Queued(s: State, q: QueueId, idle: Tid, b: Tid, o: Tid) {
    Good(s, idle) && b in Line(s, q) && AtSlot(CtxOf(s, o).pc, q) && CtxOf(s, idle).pc == Program
  }

  ghost predicate Stays(s: State, s': State, q: QueueId, idle: Tid, b: Tid, o: Tid) {
    && Line(s, q) <= Line(s', q) && QueueAt(s', q) == QueueAt(s, q)
    && CtxOf(s', o) == CtxOf(s, o) && CtxOf(s', b) == CtxOf(s, b) && CtxOf(s', idle).pc == CtxOf(s, idle).pc
  }

  lemma StaysOn(s: State, s1: State, s2: State, q: QueueId, idle: Tid, b: Tid, o: Tid)
    requires Stays(s, s1, q, idle, b, o) && Stays(s1, s2, q, idle, b, o)
    ensures Stays(s, s2, q, idle, b, o)
  {
  }

  lemma StillQueued(s: State, s': State, q: QueueId, idle: Tid, b: Tid, o: Tid)
    requires Queued(s, q, idle, b, o) && Stays(s, s', q, idle, b, o) && Good(s', idle)
    ensures Queued(s', q, idle, b, o)
  {
  }

  /** Along a legal path threads off the CPU stay parked. */
  lemma LeadsParks(s0: State, s: State, idle: Tid, b: Tid, q: QueueId)
    requires Good(s0, idle) && ParkedInv(s0) && Leads(s0, s, idle, b, q)
    ensures ParkedInv(s)
  {
    hide Inv, IdleInv, Path, ParkedInv;
    var run :| Path(s0, run, idle, b, q) && Exec(s0, run) == s;
    PathIsLegal(s0, run, idle, b, q);
    RunParks(s0, run, idle);
  }

  lemma LineupFacts(s: State, idle: Tid)
    requires Good(s, idle)
    ensures NoDup(Lineup(s)) && idle in Lineup(s) && s.cur !in s.ready
    ensures forall t :: t in Lineup(s) <==> t in s.pcbs && !IsBlocked(s, t)
  {
    assert StatusOk(s, s.cur) && StatusOk(s, idle);
    forall t ensures t in Lineup(s) <==> t in s.pcbs && !IsBlocked(s, t) {
      if t in s.pcbs { assert StatusOk(s, t); }
    }
  }

  /** The owner of a queue's lock is the only thread at its slots, and the lock is taken. */
  lemma SlotIsOwner(s: State, q: QueueId, o: Tid)
    requires Inv(s) && AtSlot(CtxOf(s, o).pc, q)
    ensures LockAt(s, QueueLock(q)).sema.value == 0 && o in s.pcbs && forall t | AtSlot(CtxOf(s, t).pc, q) :: t == o
  {
    forall t | AtSlot(CtxOf(s, t).pc, q) ensures Owns(CtxOf(s, t), QueueLock(q)) {
      assert CtxOk(CtxOf(s, t)) && HoldsQueue(CtxOf(s, t).pc, q);
    }
    assert LockInv(s, QueueLock(q));
    hide Inv;
    OwnerIsSole(s, o, QueueLock(q));
  }

  // ---------- one turn ----------

  /** Where a turn begins: thread target comes i places behind the running one. */
  ghost predicate Turning(s0: State, s: State, q: QueueId, idle: Tid, b: Tid, o: Tid, target: Tid, i: nat) {
    && Leads(s0, s, idle, b, q) && Queued(s, q, idle, b, o) && ParkedInv(s) && Parked(CtxOf(s, s.cur))
    && i <= |s.ready| && Lineup(s)[i] == target && (target == idle || target == o) && (o == target || InSlot(s, q, o))
  }

  /** What a turn achieves. */
  ghost predicate Turned(s0: State, s: State, s': State, q: QueueId, idle: Tid, b: Tid, o: Tid, target: Tid, i: nat, j: nat) {
    && Leads(s0, s', idle, b, q) && Good(s', idle) && Stays(s, s', q, idle, b, o) && Parked(CtxOf(s', s'.cur))
    && j <= |s'.ready| && Lineup(s')[j] == target && i <= |s.ready| && Load(s', Lineup(s')[..j]) < Load(s, Lineup(s)[..i])
  }

  /** The running thread is neither the owner of the lock nor the thread that waits for it. */
  lemma TurnFacts(s0: State, s: State, q: QueueId, idle: Tid, b: Tid, o: Tid, target: Tid, i: nat)
    requires Turning(s0, s, q, idle, b, o, target, i) && i > 0
    ensures s.cur != o && s.cur != b && s.cur != target && s.ready != [] && s.cur !in s.ready && target == s.ready[i - 1]
    ensures LockAt(s, QueueLock(q)).sema.value == 0 && !AtSlot(CtxOf(s, s.cur).pc, q) && b != o
    ensures CtxOf(s, b).pc != GetSlot(q) && CtxOf(s, b).pc.Acquire? && CtxOf(s, b).pc.l == QueueLock(q)
    ensures Leads(s0, s, idle, b, q) && Good(s, idle) && ParkedInv(s) && i <= |s.ready| && (CtxOf(s, s.cur).pc != Program ==> s.cur != idle)
    ensures Load(s, Lineup(s)[..i]) == Weight(CtxOf(s, s.cur).pc) + Load(s, s.ready[..i - 1])
  {
    hide Inv, IdleInv, Leads, ParkedInv, LockAt;
    LineupFacts(s, idle);
    WaiterFacts(s, q, b);
    SlotIsOwner(s, q, o);
    if o != target { SlotFacts(s, q, o, idle); }
    assert Lineup(s)[..i] == [s.cur] + s.ready[..i - 1];
    LoadCons(s, s.cur, s.ready[..i - 1]);
  }

  /** The turn ends with the CPU at the next thread in the lineup. */
  lemma HandsOver(s0: State, s: State, s': State, q: QueueId, idle: Tid, b: Tid, o: Tid, target: Tid, i: nat)
    requires Turning(s0, s, q, idle, b, o, target, i) && i > 0
    requires Leads(s0, s', idle, b, q) && Good(s', idle) && Stays(s, s', q, idle, b, o)
    requires s'.cur == s.ready[0] && (s'.ready == s.ready[1..] || s'.ready == s.ready[1..] + [s.cur])
    requires forall t | t != s.cur :: CtxOf(s', t) == CtxOf(s, t)
    ensures Turned(s0, s, s', q, idle, b, o, target, i, i - 1)
  {
    hide Turning, Inv, IdleInv, Leads, LockAt, Stays, Load;
    TurnFacts(s0, s, q, idle, b, o, target, i);
    var ahead := s.ready[..i - 1];
    assert s.ready[0] in s.ready && Parked(CtxOf(s, s.ready[0]));
    hide ParkedInv, Parked;
    InFront(s.ready, if s'.ready == s.ready[1..] then [] else [s.cur], i - 1);
    assert s.ready[1..] + [] == s.ready[1..];
    NotAhead(s.cur, [], s.ready, i);
    LoadAhead(s, s', s.cur, ahead);
  }

  /** The turn ends with the same thread running, at a point where it can be preempted; `woken` came in
      behind it. */
  lemma StaysOnCpu(s0: State, s: State, s': State, q: QueueId, idle: Tid, b: Tid, o: Tid, target: Tid, i: nat, woken: seq<Tid>)
    requires Turning(s0, s, q, idle, b, o, target, i) && i > 0
    requires Leads(s0, s', idle, b, q) && Good(s', idle) && Stays(s, s', q, idle, b, o)
    requires s'.cur == s.cur && s'.ready == woken + s.ready && |woken| <= 1 && s.cur !in woken
    requires CtxOf(s', s.cur).pc == Program && (forall t | t != s.cur :: CtxOf(s', t) == CtxOf(s, t))
    requires Weight(CtxOf(s, s.cur).pc) > 1 + 2 * |woken| && forall t | t in woken :: Weight(CtxOf(s, t).pc) == 2
    ensures Turned(s0, s, s', q, idle, b, o, target, i, i + |woken|)
  {
    hide Turning, Inv, IdleInv, Leads, LockAt, Stays, Load, ParkedInv;
    TurnFacts(s0, s, q, idle, b, o, target, i);
    var ahead := s.ready[..i - 1];
    Behind(s.cur, woken, s.ready, i);
    NotAhead(s.cur, woken, s.ready, i);
    LoadCons(s', s.cur, woken + ahead);
    LoadAhead(s, s', s.cur, woken + ahead);
    LoadWoken(s, woken, ahead);
  }

  /** The turn ends with the running thread blocked, and `woken` next in its place. */
  lemma WakesAndSleeps(s0: State, s: State, s': State, q: QueueId, idle: Tid, b: Tid, o: Tid, target: Tid, i: nat, woken: seq<Tid>)
    requires Turning(s0, s, q, idle, b, o, target, i) && i > 0
    requires Leads(s0, s', idle, b, q) && Good(s', idle) && Stays(s, s', q, idle, b, o)
    requires |woken| == 1 && s.cur !in woken && s'.cur == woken[0] && s'.ready == s.ready
    requires forall t | t != s.cur :: CtxOf(s', t) == CtxOf(s, t)
    requires Weight(CtxOf(s, s.cur).pc) > 2 && Weight(CtxOf(s, woken[0]).pc) == 2
    ensures Turned(s0, s, s', q, idle, b, o, target, i, i)
  {
    hide Turning, Inv, IdleInv, Leads, LockAt, Stays, Load;
    TurnFacts(s0, s, q, idle, b, o, target, i);
    var ahead := s.ready[..i - 1];
    assert woken == [woken[0]] && woken[0] in woken && Parked(CtxOf(s, woken[0]));
    hide ParkedInv, Parked;
    assert Lineup(s')[..i] == woken + ahead && Lineup(s')[i] == s.ready[i - 1];
    NotAhead(s.cur, woken, s.ready, i);
    LoadAhead(s, s', s.cur, woken + ahead);
    LoadWoken(s, woken, ahead);
  }

  lemma TurnOpen(s0: State, s: State, q: QueueId, idle: Tid, b: Tid, o: Tid, target: Tid, i: nat) returns (s': State)
    requires Turning(s0, s, q, idle, b, o, target, i) && i > 0 && Open(CtxOf(s, s.cur))
    ensures Turned(s0, s, s', q, idle, b, o, target, i, i - 1)
  {
    hide Inv, IdleInv, Leads, ParkedInv;
    TurnFacts(s0, s, q, idle, b, o, target, i);
    s' := Yields(s0, s, idle, b, q);
    SameLine(s, s', q);
    HandsOver(s0, s, s', q, idle, b, o, target, i);
  }

  /** A thread that finds the lock taken joins the end of its line. */
  lemma JoinsLine(s: State, l: LockId, at: AcqPoint, who: Caller)
    requires Inv(s) && !s.halted && CtxOf(s, s.cur).pc == Acquire(l, at, who) && (at.Down? || at.InLoop?)
    requires LockAt(s, l).sema.value == 0 && s.ready != []
    ensures var s' := Advance(s);
      && s'.cur == s.ready[0] && s'.ready == s.ready[1..] && s'.queues == s.queues
      && LockAt(s', l).sema.waiters == LockAt(s, l).sema.waiters + [s.cur] && (forall m | m != l :: LockAt(s', m) == LockAt(s, m))
      && CtxOf(s', s.cur).pc == Acquire(l, InLoop, who) && (forall t | t != s.cur :: CtxOf(s', t) == CtxOf(s, t))
  {
    hide Inv, SchedInv, LockInv, CtxOk;
    InvFacts(s, l);
    NotWaiting(s, l);
  }

  lemma TurnSleep(s0: State, s: State, q: QueueId, idle: Tid, b: Tid, o: Tid, target: Tid, i: nat, l: LockId, who: Caller) returns (s': State)
    requires Turning(s0, s, q, idle, b, o, target, i) && i > 0
    requires CtxOf(s, s.cur).pc == Acquire(l, InLoop, who) && LockAt(s, l).sema.value == 0
    ensures Turned(s0, s, s', q, idle, b, o, target, i, i - 1)
  {
    hide Inv, IdleInv, Leads, ParkedInv, LockAcquire;
    TurnFacts(s0, s, q, idle, b, o, target, i);
    JoinsLine(s, l, InLoop, who);
    Act(s0, s, Continue, idle, b, q);
    s' := Advance(s);
    HandsOver(s0, s, s', q, idle, b, o, target, i);
  }

  lemma CallerOfLock(s: State, l: LockId, at: AcqPoint, who: Caller)
    requires Inv(s) && CtxOf(s, s.cur).pc == Acquire(l, at, who)
    ensures who == ByProgram <==> l.KernelLock?
  {
    assert CtxOk(CtxOf(s, s.cur));
  }

  /** A thread that finds the lock free takes it, and then returns or waits in a slot. */
  lemma TurnTake(s0: State, s: State, q: QueueId, idle: Tid, b: Tid, o: Tid, target: Tid, i: nat, l: LockId, who: Caller) returns (s': State, j: nat)
    requires Turning(s0, s, q, idle, b, o, target, i) && i > 0
    requires CtxOf(s, s.cur).pc == Acquire(l, InLoop, who) && LockAt(s, l).sema.value == 1
    ensures Turned(s0, s, s', q, idle, b, o, target, i, j)
  {
    hide Inv, IdleInv, Leads, ParkedInv, LockAt, Advance;
    TurnFacts(s0, s, q, idle, b, o, target, i);
    CallerOfLock(s, l, InLoop, who);
    s' := HeadsOn(s0, s, l, who, idle, b, q);
    QuietStays(s, s', q, idle, b, o);
    if l.KernelLock? {
      j := i;
      assert s'.ready == [] + s.ready;
      StaysOnCpu(s0, s, s', q, idle, b, o, target, i, []);
    } else {
      s' := GoesIntoSlot(s0, s, s', l.q, q, idle, b, o, who);
      j := i - 1;
      HandsOver(s0, s, s', q, idle, b, o, target, i);
    }
  }

  lemma QuietStays(s: State, s': State, q: QueueId, idle: Tid, b: Tid, o: Tid)
    requires Quiet(s, s') && s.cur !in {b, o, idle}
    ensures Stays(s, s', q, idle, b, o)
  {
  }

  /** From the end of lock_acquire into the slot of another queue. */
  lemma GoesIntoSlot(s0: State, s: State, s1: State, p: QueueId, q: QueueId, idle: Tid, b: Tid, o: Tid, who: Caller) returns (s': State)
    requires Leads(s0, s1, idle, b, q) && Good(s1, idle) && Stays(s, s1, q, idle, b, o) && who != ByProgram && p != q
    requires s1.cur !in {b, o, idle} && s1.ready != [] && CtxOf(s1, b).pc != GetSlot(q) && CtxOf(s1, s1.cur).pc == AfterAcquire(QueueLock(p), who)
    ensures Leads(s0, s', idle, b, q) && Good(s', idle) && Stays(s, s', q, idle, b, o)
    ensures s'.cur == s1.ready[0] && s'.ready == s1.ready[1..] && forall t | t != s1.cur :: CtxOf(s', t) == CtxOf(s1, t)
  {
    hide Inv, IdleInv, Leads, Advance, LockAt;
    EntersSlot(s1, p, who);
    Act(s0, s1, Continue, idle, b, q);
    s' := Advance(s1);
    SameLine(s1, s', q);
  }

  /** A thread woken in the slot of another queue lets the first in line off, and returns with its byte taken
      or stored, or waits again. */
  lemma TurnSlot(s0: State, s: State, q: QueueId, idle: Tid, b: Tid, o: Tid, target: Tid, i: nat, p: QueueId, who: Caller) returns (s': State, j: nat)
    requires Turning(s0, s, q, idle, b, o, target, i) && i > 0 && who != ByProgram && CtxOf(s, s.cur).pc == SlotPoint(p, who)
    ensures Turned(s0, s, s', q, idle, b, o, target, i, j)
  {
    hide Inv, IdleInv, Leads, LockAt, Advance, Bytes, Turning, Turned;
    TurnFacts(s0, s, q, idle, b, o, target, i);
    if Line(s, p) != [] { WaiterFacts(s, p, Line(s, p)[0]); }
    var s1 := LeavesSlot(s0, s, p, who, idle, b, q);
    FreeSlots(s1, p);
    assert Stays(s, s1, q, idle, b, o);
    hide Stays;
    if if who == ByGet then IsEmpty(QueueAt(s1, p).ring) else IsFull(QueueAt(s1, p).ring) {
      s', j := WaitsAgain(s0, s, s1, q, idle, b, o, target, i, p, who);
    } else {
      s' := Returns(s0, s, s1, p, q, idle, b, o, who);
      j := i + |Front(Line(s, p))|;
      StaysOnCpu(s0, s, s', q, idle, b, o, target, i, Front(Line(s, p)));
    }
  }

  lemma WaitsAgain(s0: State, s: State, s1: State, q: QueueId, idle: Tid, b: Tid, o: Tid, target: Tid, i: nat, p: QueueId, who: Caller) returns (s': State, j: nat)
    requires Turning(s0, s, q, idle, b, o, target, i) && i > 0 && who != ByProgram && CtxOf(s, s.cur).pc == SlotPoint(p, who)
    requires Leads(s0, s1, idle, b, q) && Good(s1, idle) && Stays(s, s1, q, idle, b, o) && s1.cur == s.cur && s1.ready == Front(Line(s, p)) + s.ready
    requires CtxOf(s1, s.cur).pc == AfterRelease(QueueLock(p), who) && LockAt(s1, QueueLock(p)).sema.value == 1
    requires forall t | t != s.cur :: CtxOf(s1, t) == CtxOf(s, t)
    requires if who == ByGet then IsEmpty(QueueAt(s1, p).ring) else IsFull(QueueAt(s1, p).ring)
    requires Line(s, p) != [] ==> Line(s, p)[0] != s.cur && Weight(CtxOf(s, Line(s, p)[0]).pc) == 2
    ensures Turned(s0, s, s', q, idle, b, o, target, i, j)
  {
    hide Inv, IdleInv, Leads, Turning, Turned;
    TurnFacts(s0, s, q, idle, b, o, target, i);
    assert Heading(s1, QueueLock(p), who);
    hide LockAt, Heading;
    var s2 := HeadsOn(s0, s1, QueueLock(p), who, idle, b, q);
    QuietStays(s1, s2, q, idle, b, o);
    StaysOn(s, s1, s2, q, idle, b, o);
    hide Stays;
    assert CtxOf(s2, b) == CtxOf(s, b);
    s' := GoesIntoSlot(s0, s, s2, p, q, idle, b, o, who);
    if Line(s, p) == [] {
      assert s2.ready == s.ready;
      j := i - 1;
      HandsOver(s0, s, s', q, idle, b, o, target, i);
    } else {
      assert s2.ready[1..] == s.ready;
      j := i;
      WakesAndSleeps(s0, s, s', q, idle, b, o, target, i, Front(Line(s, p)));
    }
  }

  lemma Returns(s0: State, s: State, s1: State, p: QueueId, q: QueueId, idle: Tid, b: Tid, o: Tid, who: Caller) returns (s': State)
    requires Leads(s0, s1, idle, b, q) && Good(s1, idle) && Stays(s, s1, q, idle, b, o) && who != ByProgram && p != q
    requires s1.cur !in {b, o, idle} && CtxOf(s1, b).pc != GetSlot(q) && CtxOf(s1, s1.cur).pc == AfterRelease(QueueLock(p), who)
    requires QueueAt(s1, p).consumer == None && QueueAt(s1, p).producer == None
    requires if who == ByGet then !IsEmpty(QueueAt(s1, p).ring) else !IsFull(QueueAt(s1, p).ring)
    ensures Leads(s0, s', idle, b, q) && Good(s', idle) && Stays(s, s', q, idle, b, o)
    ensures s'.cur == s1.cur && s'.ready == s1.ready && CtxOf(s', s1.cur).pc == Program && forall t | t != s1.cur :: CtxOf(s', t) == CtxOf(s1, t)
  {
    hide Inv, IdleInv, Leads, Advance, LockAt, Bytes;
    BytesFacts(s1, p);
    if who == ByGet { TakesByte(s1, p); } else { PutsByte(s1, p, who.byte); }
    assert [] + s1.ready == s1.ready;
    Act(s0, s1, Continue, idle, b, q);
    s' := Advance(s1);
    SameLine(s1, s', q);
  }

  /** One turn: the running thread is not the one wanted, and less work is in front of that one afterwards. */
  lemma Turn(s0: State, s: State, q: QueueId, idle: Tid, b: Tid, o: Tid, target: Tid, i: nat) returns (s': State, j: nat)
    requires Turning(s0, s, q, idle, b, o, target, i) && i > 0
    ensures Turned(s0, s, s', q, idle, b, o, target, i, j)
  {
    hide Turned, Inv, IdleInv, Leads, ParkedInv, LockInv;
    var pc := CtxOf(s, s.cur).pc;
    if Open(CtxOf(s, s.cur)) {
      s' := TurnOpen(s0, s, q, idle, b, o, target, i);
      j := i - 1;
    } else if pc.Acquire? {
      InvFacts(s, pc.l);
      LockIsBinary(s, pc.l);
      if LockAt(s, pc.l).sema.value == 0 {
        s' := TurnSleep(s0, s, q, idle, b, o, target, i, pc.l, pc.who);
        j := i - 1;
      } else {
        s', j := TurnTake(s0, s, q, idle, b, o, target, i, pc.l, pc.who);
      }
    } else if pc.GetSlot? {
      s', j := TurnSlot(s0, s, q, idle, b, o, target, i, pc.q, ByGet);
    } else {
      s', j := TurnSlot(s0, s, q, idle, b, o, target, i, pc.q, ByPut(pc.byte));
    }
  }

  lemma LockIsBinary(s: State, l: LockId)
    requires LockInv(s, l)
    ensures LockAt(s, l).sema.value <= 1
  {
  }

  /** A ready thread that idle is, or that owns the lock of q, comes to the CPU by a legal run in which b
      stays in line and nobody touches q but to join that line. */
  lemma {:induction false} RunUntil(s0: State, s: State, q: QueueId, idle: Tid, b: Tid, o: Tid, target: Tid, i: nat) returns (s': State)
    requires Good(s0, idle) && ParkedInv(s0) && Turning(s0, s, q, idle, b, o, target, i)
    ensures Leads(s0, s', idle, b, q) && Queued(s', q, idle, b, o) && Stays(s, s', q, idle, b, o) && s'.cur == target
    decreases Load(s, Lineup(s)[..i])
  {
    hide Inv, IdleInv, Leads, ParkedInv, Load, LockAt;
    s' := s;
    if i > 0 {
      var s1, j := Turn(s0, s, q, idle, b, o, target, i);
      StillQueued(s, s1, q, idle, b, o);
      LeadsParks(s0, s1, idle, b, q);
      s' := RunUntil(s0, s1, q, idle, b, o, target, j);
      StaysOn(s, s1, s', q, idle, b, o);
    }
  }
}
