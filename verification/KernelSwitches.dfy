/**
 The steps that block or wake threads, and the ring buffer they guard, keep the invariant.
 */
module KernelSwitches {
  import opened Words
  import opened KernelState
  import opened KernelInv
  import opened KernelSteps

  // ---------- sema_down ----------

  lemma TakeKeeps(s: State, l: LockId, at: AcqPoint, who: Caller)
    requires Inv(s) && CtxOf(s, s.cur).pc == Acquire(l, at, who) && (at.Down? || at.InLoop?)
    requires LockAt(s, l).sema.value != 0
    ensures Inv(SemaDown(s, l, who)) && SemaDown(s, l, who).halted == s.halted
    ensures SemaDown(s, l, who).pcbs == s.pcbs
  {
    hide Inv, SchedInv, IsBlocked;
    InvFacts(s, l);
    MovedCtxOk(CtxOf(s, s.cur), Acquire(l, SetHolder, who));
    hide CtxOk;
    TakeFrom(s, SemaDown(s, l, who), l, Acquire(l, SetHolder, who));
  }

  lemma TakeFrom(s: State, s': State, l: LockId, pc: Pc)
    requires Inv(s) && LockAt(s, l).sema.value == 1
    requires s' == s.(ctx := s.ctx[s.cur := CtxOf(s, s.cur).(pc := pc)],
                      locks := s.locks[l := WithSema(LockAt(s, l), 0, LockAt(s, l).sema.waiters)])
    requires pc.Acquire? && pc.l == l && pc.acq.SetHolder? && CtxOk(CtxOf(s, s.cur).(pc := pc))
    requires forall m | m != l :: Elsewhere(CtxOf(s, s.cur).pc, m)
    ensures Inv(s')
  {
    hide PlaceInv, CtxInv, WakeInv, RingsInv, SchedInv, LocksInv, CtxOk;
    InvFacts(s, l);
    CtxKeys(s);
    forall m | m != l ensures !AtLoop(CtxOf(s, s.cur).pc, m) { assert Elsewhere(CtxOf(s, s.cur).pc, m); }
    TakeLocks(s, s', l);
    PlacesKeep(s, s');
    WakesKeep(s, s');
    SchedKeeps(s, s');
    RingsKeep(s, s');
    CtxsKeep(s, s', s.cur);
  }

  lemma CtxKeys(s: State)
    requires SchedInv(s)
    ensures s.ctx.Keys <= s.pcbs.Keys && s.cur in s.pcbs
  {
  }

  /** The thread that takes the last unit of the semaphore becomes the lock's only owner. */
  lemma TakeLocks(s: State, s': State, l: LockId)
    requires LocksInv(s) && TouchesOnly(s, s', s.cur, l) && s.cur in s.pcbs
    requires LockAt(s, l).sema.value == 1 && LockAt(s', l).sema.value == 0
    requires LockAt(s', l).(sema := LockAt(s, l).sema) == LockAt(s, l)
    requires CtxOf(s', s.cur).pc.Acquire? && CtxOf(s', s.cur).pc.l == l && CtxOf(s', s.cur).pc.acq.SetHolder?
    ensures LocksInv(s')
  {
    OtherLocks(s, s', s.cur, l);
    assert LockInv(s, l);
    assert SoleOwner(s', s.cur, l);
    LocksFrom(s', l);
  }

  lemma LocksFrom(s: State, l: LockId)
    requires LockInv(s, l) && (forall m | m != l :: LockInv(s, m))
    ensures LocksInv(s)
  {
  }

  /** Blocking the running thread, once its context says where it waits. */
  lemma BlockOnLock(s: State, s1: State, l: LockId, w: seq<Tid>)
    requires PlaceInv(s) && !IsBlocked(s, s.cur) && w == LockAt(s, l).sema.waiters
    requires forall t :: IsBlocked(s1, t) <==> IsBlocked(s, t) || t == s.cur
    requires forall t | t != s.cur :: CtxOf(s1, t) == CtxOf(s, t)
    requires AtLoop(CtxOf(s1, s.cur).pc, l)
    requires forall m | m != l :: LockAt(s1, m) == LockAt(s, m)
    requires LockAt(s1, l).sema.waiters == w + [s.cur]
    requires s1.queues == s.queues
    ensures PlaceInv(s1)
  {
    assert WaitersInv(s, l);
    forall m ensures WaitersInv(s1, m) {
      assert WaitersInv(s, m);
    }
    forall q ensures SlotsInv(s1, q) {
      assert SlotsInv(s, q);
      assert QueueAt(s1, q) == QueueAt(s, q);
    }
  }

  /** Threads that stood woken at a lock other than the one the running thread stops at stay so. */
  lemma WakesKeepOnBlock(s: State, s': State, l: LockId)
    requires WakeInv(s) && s'.pcbs.Keys == s.pcbs.Keys
    requires forall t :: IsBlocked(s', t) <==> IsBlocked(s, t) || t == s.cur
    requires forall t | t != s.cur :: CtxOf(s', t) == CtxOf(s, t)
    requires forall m | m != l :: LockAt(s', m).sema == LockAt(s, m).sema
    requires forall m | m != l :: !AtLoop(CtxOf(s, s.cur).pc, m)
    requires LockAt(s', l).sema.value == 0
    ensures WakeInv(s')
  {
    forall m | LockAt(s', m).sema.value == 1 && LockAt(s', m).sema.waiters != []
      ensures exists t :: Woken(s', t, m)
    {
      var t :| Woken(s, t, m);
      assert Woken(s', t, m);
    }
  }

  /** The running thread moved to pc and went to sleep; s1 is the state just before the switch. */
  ghost predicate Slept(s: State, s': State, pc: Pc) {
    && SchedInv(s')
    && s'.ctx == s.ctx[s.cur := CtxOf(s, s.cur).(pc := pc)]
    && s'.ctx.Keys <= s'.pcbs.Keys
    && s'.pcbs.Keys == s.pcbs.Keys && s'.halted == s.halted && s'.all == s.all
    && (forall t :: IsBlocked(s', t) <==> IsBlocked(s, t) || t == s.cur)
  }

  lemma Sleeps(s: State, s1: State, pc: Pc)
    requires SchedInv(s) && s.ready != []
    requires s1 == Goto(s, pc).(locks := s1.locks, queues := s1.queues)
    ensures var s' := ThreadBlock(s1, Blocked); Slept(s, s', pc) && s'.locks == s1.locks && s'.queues == s1.queues
  {
    SchedKeeps(s, s1);
    hide SchedInv;
    CtxKeys(s);
    BlockEffect(s1);
  }

  lemma SleepKeeps(s: State, l: LockId, at: AcqPoint, who: Caller)
    requires Inv(s) && CtxOf(s, s.cur).pc == Acquire(l, at, who) && (at.Down? || at.InLoop?)
    requires LockAt(s, l).sema.value == 0 && s.ready != []
    ensures Inv(SemaDown(s, l, who)) && Slept(s, SemaDown(s, l, who), Acquire(l, InLoop, who))
  {
    hide Inv, SchedInv, Slept, ThreadBlock, LockInv;
    InvFacts(s, l);
    var c, k := CtxOf(s, s.cur), LockAt(s, l);
    var w := k.sema.waiters;
    NotWaiting(s, l);
    var s1 := Goto(WithLock(s, l, WithSema(k, 0, w + [s.cur])), Acquire(l, InLoop, who));
    var s' := SemaDown(s, l, who);
    assert s' == ThreadBlock(s1, Blocked);
    Sleeps(s, s1, Acquire(l, InLoop, who));
    MovedCtxOk(c, Acquire(l, InLoop, who));
    assert !Owns(c, l);
    SleptOnLock(s, s', l, who, w);
  }

  lemma NotWaiting(s: State, l: LockId)
    requires Inv(s)
    ensures s.cur !in LockAt(s, l).sema.waiters
  {
    InvFacts(s, l);
    assert WaitersInv(s, l);
  }

  lemma SleptOnLock(s: State, s': State, l: LockId, who: Caller, w: seq<Tid>)
    requires Inv(s) && Slept(s, s', Acquire(l, InLoop, who)) && s'.queues == s.queues
    requires s'.locks == s.locks[l := WithSema(LockAt(s, l), 0, w + [s.cur])]
    requires w == LockAt(s, l).sema.waiters && LockAt(s, l).sema.value == 0
    requires CtxOk(CtxOf(s, s.cur).(pc := Acquire(l, InLoop, who))) && !Owns(CtxOf(s, s.cur), l)
    requires forall m | m != l :: Elsewhere(CtxOf(s, s.cur).pc, m)
    ensures Inv(s')
  {
    hide PlaceInv, CtxInv, WakeInv, RingsInv, LocksInv, SchedInv, CtxOk;
    InvFacts(s, l);
    StrangerKeeps(s, s', s.cur, l);
    BlockOnLock(s, s', l, w);
    forall m | m != l ensures !AtLoop(CtxOf(s, s.cur).pc, m) { assert Elsewhere(CtxOf(s, s.cur).pc, m); }
    WakesKeepOnBlock(s, s', l);
    RingsKeep(s, s');
    CtxsKeep(s, s', s.cur);
  }

  // ---------- sema_up ----------

  lemma WakeEffect(s: State, l: LockId)
    requires Inv(s)
    ensures var s' := SemaWake(s, l);
      && SchedInv(s') && s'.cur == s.cur && s'.halted == s.halted && s'.ctx == s.ctx && s'.queues == s.queues
      && s'.pcbs.Keys == s.pcbs.Keys && s'.all == s.all
      && (forall m | m != l :: LockAt(s', m) == LockAt(s, m))
    ensures var w := LockAt(s, l).sema.waiters;
      && LockAt(SemaWake(s, l), l) == LockAt(s, l).(sema := Sema(LockAt(s, l).sema.value, if w == [] then [] else w[1..]))
      && (forall t :: IsBlocked(SemaWake(s, l), t) <==> IsBlocked(s, t) && !(w != [] && t == w[0]))
      && (w != [] ==> IsBlocked(s, w[0]) && AtLoop(CtxOf(s, w[0]).pc, l))
  {
    var k := LockAt(s, l);
    var w := k.sema.waiters;
    if w != [] {
      assert WaitersInv(s, l) && w[0] in w;
      hide PlaceInv, CtxInv, WakeInv, RingsInv, LocksInv;
      var s1 := WithLock(s, l, WithSema(k, k.sema.value, w[1..]));
      SchedKeeps(s, s1);
      UnblockEffect(s1, w[0]);
    }
  }

  lemma UpPlaces(s: State, s': State, l: LockId)
    requires PlaceInv(s) && !IsBlocked(s, s.cur)
    requires forall t | t != s.cur :: CtxOf(s', t) == CtxOf(s, t)
    requires forall m | m != l :: LockAt(s', m).sema == LockAt(s, m).sema
    requires s'.queues == s.queues
    requires var w := LockAt(s, l).sema.waiters;
      && LockAt(s', l).sema.waiters == (if w == [] then [] else w[1..])
      && (forall t :: IsBlocked(s', t) <==> IsBlocked(s, t) && !(w != [] && t == w[0]))
    ensures PlaceInv(s')
  {
    var w := LockAt(s, l).sema.waiters;
    assert WaitersInv(s, l);
    if w != [] {
      NoDupTail(w);
      assert w[0] in w && AtLoop(CtxOf(s, w[0]).pc, l);
    }
    forall m ensures WaitersInv(s', m) { assert WaitersInv(s, m); }
    forall q ensures SlotsInv(s', q) {
      assert SlotsInv(s, q);
      assert QueueAt(s', q) == QueueAt(s, q);
    }
  }

  lemma UpWakes(s: State, s': State, l: LockId)
    requires WakeInv(s) && s'.pcbs.Keys == s.pcbs.Keys && !IsBlocked(s, s.cur)
    requires forall t | t != s.cur :: CtxOf(s', t) == CtxOf(s, t)
    requires forall m | m != l :: LockAt(s', m).sema == LockAt(s, m).sema
    requires forall m :: !AtLoop(CtxOf(s, s.cur).pc, m)
    requires var w := LockAt(s, l).sema.waiters;
      && LockAt(s', l).sema.waiters == (if w == [] then [] else w[1..])
      && (forall t :: IsBlocked(s', t) <==> IsBlocked(s, t) && !(w != [] && t == w[0]))
      && (w != [] ==> IsBlocked(s, w[0]) && AtLoop(CtxOf(s, w[0]).pc, l))
    ensures WakeInv(s')
  {
    forall m | LockAt(s', m).sema.value == 1 && LockAt(s', m).sema.waiters != []
      ensures exists t :: Woken(s', t, m)
    {
      if m == l {
        assert Woken(s', LockAt(s, l).sema.waiters[0], l);
      } else {
        var t :| Woken(s, t, m);
        assert Woken(s', t, m);
      }
    }
  }

  lemma UpKeeps(s: State, l: LockId, who: Caller)
    requires Inv(s) && !s.halted && CtxOf(s, s.cur).pc == Release(l, Up, who)
    ensures Inv(SemaUp(s, l, who)) && !SemaUp(s, l, who).halted && SemaUp(s, l, who).pcbs.Keys == s.pcbs.Keys
    ensures forall t :: IsBlocked(SemaUp(s, l, who), t) ==> IsBlocked(s, t)
  {
    hide Inv, SemaWake, SchedInv;
    InvFacts(s, l);
    OwnerIsSole(s, s.cur, l);
    WakeEffect(s, l);
    CtxKeys(s);
    var c := CtxOf(s, s.cur);
    var s1, s' := SemaWake(s, l), SemaUp(s, l, who);
    var k := LockAt(s1, l);
    assert s' == GotoDepth(WithLock(s1, l, WithSema(k, 1, k.sema.waiters)), AfterRelease(l, who), l, 0);
    QueueDepth(c);
    NewCtxOk(c, AfterRelease(l, who), l, 0);
    hide CtxOk;
    assert s'.ctx == s.ctx[s.cur := Ctx(AfterRelease(l, who), c.ifOn, c.depth[l := 0])];
    SchedKeeps(s1, s');
    hide SemaUp;
    UpFrom(s, s', l);
  }

  /** The owner that gives the unit back leaves the lock without an owner. */
  lemma UpLocks(s: State, s': State, l: LockId)
    requires LocksInv(s) && TouchesOnly(s, s', s.cur, l)
    requires var c' := CtxOf(s', s.cur); Depth(c', l) == 0 && !c'.pc.Acquire?
    requires Owns(CtxOf(s, s.cur), l) && CtxOf(s, s.cur).pc.Release? && CtxOf(s, s.cur).pc.l == l && CtxOf(s, s.cur).pc.rel.Up?
    requires LockAt(s', l).(sema := LockAt(s, l).sema) == LockAt(s, l) && LockAt(s', l).sema.value == 1
    ensures LocksInv(s')
  {
    OwnerIsSole(s, s.cur, l);
    assert NoOwner(s', l);
    OtherLocks(s, s', s.cur, l);
    LocksFrom(s', l);
  }

  lemma UpFrom(s: State, s': State, l: LockId)
    requires Inv(s) && SchedInv(s') && s'.pcbs.Keys == s.pcbs.Keys && s'.ctx.Keys <= s'.pcbs.Keys && s'.queues == s.queues
    requires CtxOf(s, s.cur).pc.Release? && CtxOf(s, s.cur).pc.l == l && CtxOf(s, s.cur).pc.rel.Up?
    requires forall t | t != s.cur :: CtxOf(s', t) == CtxOf(s, t)
    requires var c, c' := CtxOf(s, s.cur), CtxOf(s', s.cur);
      CtxOk(c') && c'.depth == c.depth[l := 0] && !c'.pc.Acquire? && !c'.pc.Release? && Owns(c, l)
    requires forall m | m != l :: LockAt(s', m) == LockAt(s, m)
    requires var w := LockAt(s, l).sema.waiters;
      && LockAt(s', l) == LockAt(s, l).(sema := Sema(1, if w == [] then [] else w[1..]))
      && (forall t :: IsBlocked(s', t) <==> IsBlocked(s, t) && !(w != [] && t == w[0]))
      && (w != [] ==> IsBlocked(s, w[0]) && AtLoop(CtxOf(s, w[0]).pc, l))
    ensures Inv(s')
  {
    hide PlaceInv, CtxInv, WakeInv, RingsInv, SchedInv, LocksInv, CtxOk;
    InvFacts(s, l);
    UpLocks(s, s', l);
    UpPlaces(s, s', l);
    UpWakes(s, s', l);
    RingsKeep(s, s');
    CtxsKeep(s, s', s.cur);
  }

  // ---------- the ring buffer ----------

  lemma RingPutKeeps(r: Ring, b: char)
    requires RingOk(r) && !IsFull(r)
    ensures RingOk(RingPut(r, b)) && Contents(RingPut(r, b)) == Contents(r) + [b]
  {
    var r' := RingPut(r, b);
    if r.tail <= r.head {
      if r.head + 1 < BUF_SIZE {
        assert r'.buf[r.tail..r.head] == r.buf[r.tail..r.head];
        assert Contents(r') == Contents(r) + [b];
      } else {
        assert r'.buf[r.tail..] == r.buf[r.tail..r.head] + [b];
      }
    } else {
      assert r'.buf[r.tail..] == r.buf[r.tail..];
      assert r'.buf[..r.head + 1] == r.buf[..r.head] + [b];
    }
  }

  lemma RingGetKeeps(r: Ring)
    requires RingOk(r) && !IsEmpty(r)
    ensures RingOk(RingGet(r)) && Contents(r) == [RingFront(r)] + Contents(RingGet(r))
  {
    var r', x := RingGet(r), RingFront(r);
    assert Contents(r) == [x] + Contents(r') by {
      if r.tail <= r.head {
        assert r.buf[r.tail..r.head] == [r.buf[r.tail]] + r.buf[r.tail + 1..r.head];
      } else if r.tail + 1 < BUF_SIZE {
        assert r.buf[r.tail..] == [r.buf[r.tail]] + r.buf[r.tail + 1..];
        assert r.buf[r.tail..] + r.buf[..r.head] == [r.buf[r.tail]] + (r.buf[r.tail + 1..] + r.buf[..r.head]);
      } else {
        assert r.buf[r.tail..] == [r.buf[r.tail]] && r.buf[0..r.head] == r.buf[..r.head];
      }
    }
    hide Contents;
    assert r.got + ([x] + Contents(r')) == (r.got + [x]) + Contents(r');
  }

  // ---------- putting and taking a byte ----------

  /** One of the two slots was emptied; `woken` was in it. */
  predicate SlotCleared(k: Queue, k': Queue, woken: Option<Tid>) {
    || (k'.consumer == None && woken == k.consumer && k'.producer == k.producer)
    || (k'.producer == None && woken == k.producer && k'.consumer == k.consumer)
  }

  /** The ring of q changes and one thread leaves one of its slots. */
  lemma SlotPlaces(s: State, s': State, q: QueueId, woken: Option<Tid>)
    requires PlaceInv(s) && s'.locks == s.locks && s'.ctx == s.ctx
    requires forall p | p != q :: QueueAt(s', p) == QueueAt(s, p)
    requires forall t: Tid :: IsBlocked(s', t) <==> IsBlocked(s, t) && woken != Some(t)
    requires SlotCleared(QueueAt(s, q), QueueAt(s', q), woken)
    ensures PlaceInv(s')
  {
    assert SlotsInv(s, q);
    forall l ensures WaitersInv(s', l) {
      assert WaitersInv(s, l);
      assert LockAt(s', l) == LockAt(s, l);
    }
    forall p ensures SlotsInv(s', p) { assert SlotsInv(s, p); }
  }

  lemma SameLocks(s: State, s': State)
    requires LocksInv(s) && s'.locks == s.locks && s'.ctx == s.ctx && s.pcbs.Keys <= s'.pcbs.Keys
    ensures LocksInv(s')
  {
    forall l ensures LockInv(s', l) {
      assert LockInv(s, l);
      forall t ensures CtxOf(s', t) == CtxOf(s, t) {}
      if LockAt(s, l).sema.value == 0 {
        var t :| SoleOwner(s, t, l);
        assert SoleOwner(s', t, l);
      }
    }
  }

  lemma SameWakes(s: State, s': State)
    requires WakeInv(s) && s'.locks == s.locks && s'.ctx == s.ctx && s.pcbs.Keys <= s'.pcbs.Keys
    requires forall t :: IsBlocked(s', t) ==> IsBlocked(s, t)
    ensures WakeInv(s')
  {
    forall l | LockAt(s', l).sema.value == 1 && LockAt(s', l).sema.waiters != []
      ensures exists t :: Woken(s', t, l)
    {
      assert LockAt(s', l) == LockAt(s, l);
      var t :| Woken(s, t, l);
      assert Woken(s', t, l);
    }
  }

  lemma OneRing(s: State, s': State, q: QueueId)
    requires RingsInv(s) && RingOk(QueueAt(s', q).ring) && (forall p | p != q :: QueueAt(s', p) == QueueAt(s, p))
    ensures RingsInv(s')
  {
    hide RingOk;
  }

  /** The common part of PutByte and GetByte. */
  lemma ByteKeeps(s: State, s': State, q: QueueId, woken: Option<Tid>)
    requires Inv(s) && s'.locks == s.locks && s'.ctx == s.ctx && s'.pcbs.Keys == s.pcbs.Keys && SchedInv(s')
    requires forall p | p != q :: QueueAt(s', p) == QueueAt(s, p)
    requires RingOk(QueueAt(s', q).ring)
    requires forall t: Tid :: IsBlocked(s', t) <==> IsBlocked(s, t) && woken != Some(t)
    requires SlotCleared(QueueAt(s, q), QueueAt(s', q), woken)
    ensures Inv(s')
  {
    hide SchedInv, PlaceInv, CtxInv, LocksInv, WakeInv, RingsInv, RingOk;
    SlotPlaces(s, s', q, woken);
    SameLocks(s, s');
    SameWakes(s, s');
    OneRing(s, s', q);
    SameCtxs(s, s');
  }

  lemma SameCtxs(s: State, s': State)
    requires CtxInv(s) && s'.ctx == s.ctx
    ensures CtxInv(s')
  {
    hide CtxOk;
    forall t ensures CtxOk(CtxOf(s', t)) { assert CtxOf(s', t) == CtxOf(s, t); }
  }

  lemma QueueFacts(s: State, q: QueueId)
    requires Inv(s)
    ensures SlotsInv(s, q) && RingOk(QueueAt(s, q).ring) && SchedInv(s)
  {
  }

  lemma PutByteKeeps(s: State, q: QueueId, b: char)
    requires Inv(s) && !s.halted && !IsFull(QueueAt(s, q).ring)
    ensures var s' := PutByte(s, q, b); Inv(s') && !s'.halted && s'.cur == s.cur && s'.ctx == s.ctx
    ensures QueueAt(PutByte(s, q, b), q).consumer == None
    ensures PutByte(s, q, b).pcbs.Keys == s.pcbs.Keys
    ensures forall t :: IsBlocked(PutByte(s, q, b), t) ==> IsBlocked(s, t)
  {
    hide Inv, RingOk, RingPut, SchedInv;
    var k := QueueAt(s, q);
    QueueFacts(s, q);
    RingPutKeeps(k.ring, b);
    var s1 := WithQueue(s, q, k.(ring := RingPut(k.ring, b)));
    SchedKeeps(s, s1);
    match k.consumer {
      case None =>
      case Some(t) =>
        assert IsBlocked(s, t);
        UnblockEffect(s1, t);
        SchedKeeps(ThreadUnblock(s1, t), PutByte(s, q, b));
    }
    ByteKeeps(s, PutByte(s, q, b), q, k.consumer);
  }

  lemma GetByteKeeps(s: State, q: QueueId)
    requires Inv(s) && !s.halted && !IsEmpty(QueueAt(s, q).ring)
    ensures var s' := GetByte(s, q); Inv(s') && !s'.halted && s'.cur == s.cur && s'.ctx == s.ctx
    ensures GetByte(s, q).pcbs.Keys == s.pcbs.Keys
    ensures forall t :: IsBlocked(GetByte(s, q), t) ==> IsBlocked(s, t)
  {
    hide Inv, RingOk, RingGet, SchedInv;
    var k := QueueAt(s, q);
    QueueFacts(s, q);
    RingGetKeeps(k.ring);
    var s1 := WithQueue(s, q, k.(ring := RingGet(k.ring)));
    SchedKeeps(s, s1);
    match k.producer {
      case None =>
      case Some(t) =>
        assert IsBlocked(s, t);
        UnblockEffect(s1, t);
        SchedKeeps(ThreadUnblock(s1, t), GetByte(s, q));
    }
    ByteKeeps(s, GetByte(s, q), q, k.producer);
  }

  // ---------- waiting on a queue ----------

  /** The running thread enters a slot of q and blocks there. */
  lemma BlockInSlot(s: State, s': State, q: QueueId, pc: Pc)
    requires PlaceInv(s) && !IsBlocked(s, s.cur) && s'.locks == s.locks
    requires forall t :: IsBlocked(s', t) <==> IsBlocked(s, t) || t == s.cur
    requires forall t | t != s.cur :: CtxOf(s', t) == CtxOf(s, t)
    requires CtxOf(s', s.cur).pc == pc
    requires forall p | p != q :: QueueAt(s', p) == QueueAt(s, p)
    requires var k, k' := QueueAt(s, q), QueueAt(s', q);
      || (pc == GetSlot(q) && k.consumer == None && k'.consumer == Some(s.cur) && k'.producer == k.producer)
      || (AtPutSlot(pc, q) && k.producer == None && k'.producer == Some(s.cur) && k'.consumer == k.consumer)
    ensures PlaceInv(s')
  {
    assert SlotsInv(s, q);
    forall l ensures WaitersInv(s', l) {
      assert WaitersInv(s, l);
      assert LockAt(s', l) == LockAt(s, l);
    }
    forall p ensures SlotsInv(s', p) { assert SlotsInv(s, p); }
  }

  /** A thread in a slot of q owns the queue's lock. */
  lemma SlotOwns(s: State, q: QueueId, t: Tid)
    requires Inv(s) && (QueueAt(s, q).consumer == Some(t) || QueueAt(s, q).producer == Some(t))
    ensures IsBlocked(s, t) && Owns(CtxOf(s, t), QueueLock(q))
  {
    assert SlotsInv(s, q);
    assert CtxOk(CtxOf(s, t));
    hide Inv;
    assert HoldsQueue(CtxOf(s, t).pc, q);
    assert Depth(CtxOf(s, t), QueueLock(q)) == 1;
  }

  /** While a thread holds a queue's lock at the point before ioq_wait, both slots are empty. */
  lemma SlotsFree(s: State, q: QueueId)
    requires Inv(s) && (CtxOf(s, s.cur).pc == GetWait(q) || (CtxOf(s, s.cur).pc.PutWait? && CtxOf(s, s.cur).pc.q == q))
    ensures QueueAt(s, q).consumer == None && QueueAt(s, q).producer == None
    ensures Owns(CtxOf(s, s.cur), QueueLock(q))
  {
    hide Inv;
    InvFacts(s, QueueLock(q));
    assert HoldsQueue(CtxOf(s, s.cur).pc, q);
    assert Depth(CtxOf(s, s.cur), QueueLock(q)) == 1;
    OwnerIsSole(s, s.cur, QueueLock(q));
    var k := QueueAt(s, q);
    if k.consumer.Some? { SlotOwns(s, q, k.consumer.value); assert false; }
    if k.producer.Some? { SlotOwns(s, q, k.producer.value); assert false; }
  }

  predicate SlotEntered(k: Queue, k': Queue, t: Tid, q: QueueId, pc: Pc) {
    || (pc == GetSlot(q) && k' == k.(consumer := Some(t)))
    || (AtPutSlot(pc, q) && k' == k.(producer := Some(t)))
  }

  lemma WaitKeeps(s: State, q: QueueId, k: Queue, pc: Pc)
    requires Inv(s) && s.ready != [] && SlotEntered(QueueAt(s, q), k, s.cur, q, pc)
    requires CtxOf(s, s.cur).pc == GetWait(q) || (CtxOf(s, s.cur).pc.PutWait? && CtxOf(s, s.cur).pc.q == q)
    ensures var s' := ThreadBlock(Goto(WithQueue(s, q, k), pc), Blocked); Inv(s') && Slept(s, s', pc)
  {
    hide Inv, SchedInv, ThreadBlock;
    InvFacts(s, QueueLock(q));
    SlotsFree(s, q);
    var s1 := Goto(WithQueue(s, q, k), pc);
    Sleeps(s, s1, pc);
    var s' := ThreadBlock(s1, Blocked);
    MovedCtxOk(CtxOf(s, s.cur), pc);
    SleptInSlot(s, s', q, k, pc);
  }

  lemma SleptInSlot(s: State, s': State, q: QueueId, k: Queue, pc: Pc)
    requires Inv(s) && Slept(s, s', pc) && s'.locks == s.locks && s'.queues == s.queues[q := k]
    requires SlotEntered(QueueAt(s, q), k, s.cur, q, pc) && QueueAt(s, q).consumer == None && QueueAt(s, q).producer == None
    requires CtxOk(CtxOf(s, s.cur).(pc := pc)) && Owns(CtxOf(s, s.cur), QueueLock(q))
    requires !CtxOf(s, s.cur).pc.Acquire? && !CtxOf(s, s.cur).pc.Release?
    ensures Inv(s')
  {
    hide PlaceInv, CtxInv, LocksInv, WakeInv, RingsInv, SchedInv, CtxOk;
    var l := QueueLock(q);
    InvFacts(s, l);
    OwnerIsSole(s, s.cur, l);
    forall m ensures LockAt(s', m) == LockAt(s, m) {}
    OwnerKeeps(s, s', s.cur, l);
    BlockInSlot(s, s', q, pc);
    WakesKeepOnBlock(s, s', l);
    CtxsKeep(s, s', s.cur);
    RingsKeep(s, s');
  }
}
