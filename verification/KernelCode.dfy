/**
 The kernel's functions as code that works in place: on intrusive lists of general_tag nodes, on
 circular arrays, and on the fields of PCBs, locks and queues.  Every method is one interrupt-off
 section, or one step between two points where an interrupt may come, and is proved to make the
 step of the transition system on sequences.  That the node a method links is in no other list
 follows from the invariant of the transition system, not from the checks in the code.
 */
module KernelCode {
  import opened Words
  import opened KernelState
  import opened KernelInv
  import opened KernelSwitches
  import opened KernelRuns
  import opened KernelMeaning
  import opened ThreadLists
  import opened Rings

  // ---------- how the fields make up the state ----------

  /** The fields of a lock but for its waiter list. */
  datatype Held = Held(holder: Option<Tid>, repeat: nat, value: nat)

  datatype Slots = Slots(producer: Option<Tid>, consumer: Option<Tid>)

  ghost function ListIn(c: map<Name, seq<Tid>>, a: Name): seq<Tid> { if a in c then c[a] else [] }

  ghost function LockView(h: Held, waiters: seq<Tid>): Lock { Lock(h.holder, h.repeat, Sema(h.value, waiters)) }

  ghost function LocksView(held: map<LockId, Held>, c: map<Name, seq<Tid>>): map<LockId, Lock> {
    map l | l in held :: LockView(held[l], ListIn(c, WaitersOf(l)))
  }

  ghost function QueuesView(slots: map<QueueId, Slots>, rings: map<QueueId, Ring>): map<QueueId, Queue> {
    map q | q in slots :: Queue(if q in rings then rings[q] else QueueInit().ring, slots[q].producer, slots[q].consumer)
  }

  lemma ReadyApart(held: map<LockId, Held>, c: map<Name, seq<Tid>>, w: seq<Tid>)
    ensures LocksView(held, c[ReadyList := w]) == LocksView(held, c)
  {
  }

  lemma WaitersUpdate(held: map<LockId, Held>, c: map<Name, seq<Tid>>, l: LockId, w: seq<Tid>)
    requires l in held
    ensures LocksView(held, c[WaitersOf(l) := w]) == LocksView(held, c)[l := LockView(held[l], w)]
  {
  }

  lemma HeldUpdate(held: map<LockId, Held>, c: map<Name, seq<Tid>>, l: LockId, h: Held)
    ensures LocksView(held[l := h], c) == LocksView(held, c)[l := LockView(h, ListIn(c, WaitersOf(l)))]
  {
  }

  lemma SlotsUpdate(slots: map<QueueId, Slots>, rings: map<QueueId, Ring>, q: QueueId, k: Slots)
    requires q in rings
    ensures QueuesView(slots[q := k], rings) == QueuesView(slots, rings)[q := Queue(rings[q], k.producer, k.consumer)]
  {
  }

  lemma RingUpdate(slots: map<QueueId, Slots>, rings: map<QueueId, Ring>, q: QueueId, r: Ring)
    requires q in slots
    ensures QueuesView(slots, rings[q := r]) == QueuesView(slots, rings)[q := Queue(r, slots[q].producer, slots[q].consumer)]
  {
  }

  lemma NoViews(c: map<Name, seq<Tid>>, rings: map<QueueId, Ring>)
    ensures LocksView(map[], c) == map[] && QueuesView(map[], rings) == map[]
  {
  }

  lemma NewLockView(held: map<LockId, Held>, c: map<Name, seq<Tid>>, l: LockId)
    requires l !in held
    ensures LocksView(held[l := Held(None, 0, 1)], c[WaitersOf(l) := []]) == LocksView(held, c)[l := LockInit()]
    ensures ListIn(c[WaitersOf(l) := []], ReadyList) == ListIn(c, ReadyList)
  {
  }

  lemma NewQueueView(slots: map<QueueId, Slots>, rings: map<QueueId, Ring>, q: QueueId)
    requires q !in slots
    ensures QueuesView(slots[q := Slots(None, None)], rings[q := QueueInit().ring]) == QueuesView(slots, rings)[q := QueueInit()]
  {
  }

  lemma HeldIs(held: map<LockId, Held>, c: map<Name, seq<Tid>>, l: LockId)
    requires l in held
    ensures l in LocksView(held, c) && LocksView(held, c)[l] == LockView(held[l], ListIn(c, WaitersOf(l)))
  {
  }

  lemma SlotsAre(slots: map<QueueId, Slots>, rings: map<QueueId, Ring>, q: QueueId)
    requires q in slots && q in rings
    ensures q in QueuesView(slots, rings) && QueuesView(slots, rings)[q] == Queue(rings[q], slots[q].producer, slots[q].consumer)
  {
  }

  /** The operation gave thread x out of list xs, or put t into it. */
  predicate Moved(op: ListOp, xs: seq<Tid>, t: Tid, x: Tid) {
    if op == PopOp then xs != [] && x == xs[0] else x == t
  }

  /** One operation on the ready list. */
  predicate ReadyDone(s: State, s': State, op: ListOp, t: Tid, x: Tid) {
    Moved(op, s.ready, t, x) && s' == s.(ready := Result(op, s.ready, t))
  }

  /** One operation on the waiters of l. */
  predicate WaitersDone(s: State, s': State, l: LockId, op: ListOp, t: Tid, x: Tid) {
    var k := LockAt(s, l);
    Moved(op, k.sema.waiters, t, x) && s' == WithLock(s, l, k.(sema := Sema(k.sema.value, Result(op, k.sema.waiters, t))))
  }

  /** The locks and queues that a program point speaks of have been initialised. */
  predicate PointKnown(pc: Pc, locks: set<LockId>, queues: set<QueueId>) {
    match pc
    case Program => true
    case Acquire(l, _, _) => l in locks
    case Release(l, _, _) => l in locks
    case GetTop(q) => q in queues
    case GetWait(q) => q in queues
    case GetSlot(q) => q in queues
    case PutTop(q, _) => q in queues
    case PutWait(q, _) => q in queues
    case PutSlot(q, _) => q in queues
  }

  /** Every thread has a tag, every lock a waiter list, every queue a lock, slots and a buffer, and no
      thread is at a point that speaks of another. */
  ghost predicate Fit(tags: set<Tid>, pcbs: set<Tid>, lists: set<Name>, locks: set<LockId>, queues: set<QueueId>, bufs: set<QueueId>, ctx: map<Tid, Ctx>) {
    && tags == pcbs && queues == bufs
    && ReadyList in lists && (forall l :: WaitersOf(l) in lists <==> l in locks) && (forall q :: QueueLock(q) in locks <==> q in queues)
    && (forall t | t in ctx :: PointKnown(ctx[t].pc, locks, queues))
  }

  lemma FitCtx(tags: set<Tid>, pcbs: set<Tid>, lists: set<Name>, locks: set<LockId>, queues: set<QueueId>, bufs: set<QueueId>, ctx: map<Tid, Ctx>, t: Tid, c: Ctx)
    requires Fit(tags, pcbs, lists, locks, queues, bufs, ctx) && PointKnown(c.pc, locks, queues)
    ensures Fit(tags, pcbs, lists, locks, queues, bufs, ctx[t := c])
  {
  }

  lemma FitThread(tags: set<Tid>, pcbs: set<Tid>, lists: set<Name>, locks: set<LockId>, queues: set<QueueId>, bufs: set<QueueId>, ctx: map<Tid, Ctx>, t: Tid)
    requires Fit(tags, pcbs, lists, locks, queues, bufs, ctx)
    ensures Fit(tags + {t}, pcbs + {t}, lists, locks, queues, bufs, ctx[t := Ctx(Program, false, map[])])
  {
  }

  lemma FitLock(tags: set<Tid>, pcbs: set<Tid>, lists: set<Name>, locks: set<LockId>, queues: set<QueueId>, bufs: set<QueueId>, ctx: map<Tid, Ctx>, l: LockId)
    requires Fit(tags, pcbs, lists, locks, queues, bufs, ctx)
    ensures l.KernelLock? ==> Fit(tags, pcbs, lists + {WaitersOf(l)}, locks + {l}, queues, bufs, ctx)
    ensures l.QueueLock? ==> Fit(tags, pcbs, lists + {WaitersOf(l)}, locks + {l}, queues + {l.q}, bufs + {l.q}, ctx)
  {
    hide PointKnown;
    forall t | t in ctx ensures PointKnown(ctx[t].pc, locks + {l}, queues) && (l.QueueLock? ==> PointKnown(ctx[t].pc, locks + {l}, queues + {l.q})) {
      KnownGrows(ctx[t].pc, locks, queues, l);
    }
  }

  lemma KnownGrows(pc: Pc, locks: set<LockId>, queues: set<QueueId>, l: LockId)
    requires PointKnown(pc, locks, queues)
    ensures PointKnown(pc, locks + {l}, queues) && (l.QueueLock? ==> PointKnown(pc, locks + {l}, queues + {l.q}))
  {
  }

  lemma FitFacts(tags: set<Tid>, pcbs: set<Tid>, lists: set<Name>, locks: set<LockId>, queues: set<QueueId>, bufs: set<QueueId>, ctx: map<Tid, Ctx>)
    requires Fit(tags, pcbs, lists, locks, queues, bufs, ctx)
    ensures tags == pcbs && queues == bufs && ReadyList in lists
    ensures (forall l :: WaitersOf(l) in lists <==> l in locks) && (forall q :: QueueLock(q) in locks <==> q in queues)
  {
  }

  // ---------- where the invariant says a thread is not ----------

  /** Thread t waits for no lock. */
  ghost predicate NoWaiter(s: State, t: Tid) {
    forall l :: t !in LockAt(s, l).sema.waiters
  }

  /** The first waiter of l is in no other list, and once in this one. */
  ghost predicate FirstAlone(s: State, l: LockId) {
    var w := LockAt(s, l).sema.waiters;
    w != [] ==> w[0] in s.pcbs && w[0] !in w[1..] && w[0] !in s.ready && forall m | m != l :: w[0] !in LockAt(s, m).sema.waiters
  }

  ghost predicate SlotAlone(s: State, t: Option<Tid>) {
    t.Some? ==> t.value in s.pcbs && NoWaiter(s, t.value)
  }

  lemma SameLocksAlone(s: State, s': State, t: Tid)
    requires s'.locks == s.locks && NoWaiter(s, t)
    ensures NoWaiter(s', t)
  {
    forall l ensures t !in LockAt(s', l).sema.waiters { assert LockAt(s', l) == LockAt(s, l) && t !in LockAt(s, l).sema.waiters; }
  }

  lemma PoppedAlone(s: State, l: LockId, k: Lock)
    requires FirstAlone(s, l) && LockAt(s, l).sema.waiters != [] && k.sema.waiters == LockAt(s, l).sema.waiters[1..]
    ensures NoWaiter(WithLock(s, l, k), LockAt(s, l).sema.waiters[0])
  {
    var w := LockAt(s, l).sema.waiters;
    forall m ensures w[0] !in LockAt(WithLock(s, l, k), m).sema.waiters {
      if m != l { assert LockAt(WithLock(s, l, k), m) == LockAt(s, m) && w[0] !in LockAt(s, m).sema.waiters; }
    }
  }

  lemma RunningAlone(s: State)
    requires Inv(s)
    ensures s.cur in s.pcbs && s.cur !in s.ready && NoWaiter(s, s.cur)
  {
    assert StatusOk(s, s.cur);
    forall l ensures s.cur !in LockAt(s, l).sema.waiters { NotWaiting(s, l); }
  }

  lemma WaiterAlone(s: State, l: LockId)
    requires Inv(s)
    ensures FirstAlone(s, l)
  {
    var w := LockAt(s, l).sema.waiters;
    if w != [] {
      assert WaitersInv(s, l) && w[0] in w;
      assert StatusOk(s, w[0]);
      forall m | m != l ensures w[0] !in LockAt(s, m).sema.waiters { assert WaitersInv(s, m); }
    }
  }

  lemma SlotsAlone(s: State, q: QueueId)
    requires Inv(s)
    ensures SlotAlone(s, QueueAt(s, q).consumer) && SlotAlone(s, QueueAt(s, q).producer)
  {
    var k := QueueAt(s, q);
    assert SlotsInv(s, q);
    if k.consumer.Some? { forall l ensures k.consumer.value !in LockAt(s, l).sema.waiters { assert WaitersInv(s, l); } }
    if k.producer.Some? { forall l ensures k.producer.value !in LockAt(s, l).sema.waiters { assert WaitersInv(s, l); } }
  }

  // ---------- the kernel ----------

  class Kernel {
    var cur: Tid
    var all: seq<Tid>
    var pcbs: map<Tid, Pcb>
    var ctx: map<Tid, Ctx>
    var held: map<LockId, Held>
    var slots: map<QueueId, Slots>
    var ticks: nat
    var halted: bool
    const threads: TagLists
    const rings: Store

    /** The objects a step may write to. */
    ghost function Foot(): set<object>
      reads this, threads, rings
    {
      {this} + threads.lists.Values + threads.nodes + rings.bufs.Values + rings.arrays
    }

    /** What no step changes: the objects, and which locks and queues there are. */
    ghost function Layout(): (set<object>, set<LockId>, set<QueueId>)
      reads this, threads, rings
    {
      (Foot(), held.Keys, slots.Keys)
    }

    predicate Declared(pc: Pc)
      reads this
    {
      PointKnown(pc, held.Keys, slots.Keys)
    }

    /** The lists are well linked and share no node, the arrays are apart, and the parts fit together. */
    ghost predicate Valid()
      reads this, threads, rings, Foot()
    {
      && threads.Valid() && rings.Valid()
      && Fit(threads.tags.Keys, pcbs.Keys, threads.lists.Keys, held.Keys, slots.Keys, rings.bufs.Keys, ctx)
    }

    ghost function Abs(): State
      requires Valid()
      reads this, threads, rings, Foot()
    {
      var c := threads.Contents();
      State(cur, ListIn(c, ReadyList), all, pcbs, ctx, LocksView(held, c), QueuesView(slots, rings.Contents()), ticks, halted)
    }

    /** Thread t exists and is in no list. */
    ghost predicate Unlinked(t: Tid)
      requires Valid()
      reads this, threads, rings, Foot()
    {
      threads.Free(t)
    }

    /** What a list operation needs: a thread to take out, or one that is in no list. */
    ghost predicate Applies(op: ListOp, t: Tid, xs: seq<Tid>)
      requires Valid()
      reads this, threads, rings, Foot()
    {
      if op == PopOp then xs != [] else Unlinked(t)
    }

    function CtxNow(t: Tid): Ctx
      reads this
    {
      if t in ctx then ctx[t] else Ctx(Program, false, map[])
    }

    /** The first thread runs alone. */
    constructor (main: Tid, ts: TagLists, rs: Store)
      requires ts.Valid() && ts.Contents() == map[ReadyList := []] && ts.tags.Keys == {main} && ts.lists.Keys == {ReadyList}
      requires rs.Valid() && rs.Contents() == map[] && rs.bufs == map[]
      ensures Valid() && threads == ts && rings == rs && held == map[] && slots == map[] && InitState(Abs(), main)
    {
      hide TagLists.Valid, TagLists.Laid, TagLists.Contents, Store.Valid, Store.Contents, LocksView, QueuesView;
      threads, rings := ts, rs;
      cur, all := main, [main];
      pcbs, ctx := map[main := Pcb(Running, 31, 31, 0)], map[main := Ctx(Program, false, map[])];
      held, slots, ticks, halted := map[], map[], 0, false;
      new;
      NoViews(threads.Contents(), rings.Contents());
    }

    static method ThreadInit(main: Tid) returns (k: Kernel)
      ensures k.Valid() && k.held == map[] && k.slots == map[] && InitState(k.Abs(), main) && Inv(k.Abs())
    {
      hide TagLists.Valid, TagLists.Laid, TagLists.Contents, Store.Valid, Store.Contents, LocksView, QueuesView, TagLists.Free, Kernel.Valid, Kernel.Abs, Inv, InitState;
      var ts := new TagLists();
      ts.AddThread(main);
      var rs := new Store();
      k := new Kernel(main, ts, rs);
      InitInv(k.Abs(), main);
    }

    // ---------- single updates ----------

    method SetPcb(t: Tid, p: Pcb)
      requires Valid() && t in pcbs
      modifies Foot()
      ensures Valid() && Layout() == old(Layout()) && Abs() == WithPcb(old(Abs()), t, p)
    {
      hide TagLists.Valid, TagLists.Laid, TagLists.Contents, Store.Valid, Store.Contents, LocksView, QueuesView, Fit, PointKnown;
      pcbs := pcbs[t := p];
      assert pcbs.Keys == old(pcbs.Keys);
    }

    /** An ASSERT. */
    method StopUnless(ok: bool)
      requires Valid()
      modifies Foot()
      ensures Valid() && Layout() == old(Layout()) && Abs() == if ok then old(Abs()) else Halt(old(Abs()))
    {
      hide TagLists.Valid, TagLists.Laid, TagLists.Contents, Store.Valid, Store.Contents, LocksView, QueuesView, Fit, PointKnown;
      halted := halted || !ok;
    }

    method SetCur(t: Tid)
      requires Valid()
      modifies Foot()
      ensures Valid() && Layout() == old(Layout()) && Abs() == old(Abs()).(cur := t)
    {
      hide TagLists.Valid, TagLists.Laid, TagLists.Contents, Store.Valid, Store.Contents, LocksView, QueuesView, Fit, PointKnown;
      cur := t;
    }

    method SetCtx(c: Ctx)
      requires Valid() && Declared(c.pc)
      modifies Foot()
      ensures Valid() && Layout() == old(Layout()) && Abs() == WithCtx(old(Abs()), c)
    {
      hide TagLists.Valid, TagLists.Laid, TagLists.Contents, Store.Valid, Store.Contents, LocksView, QueuesView, Fit, PointKnown;
      FitCtx(threads.tags.Keys, pcbs.Keys, threads.lists.Keys, held.Keys, slots.Keys, rings.bufs.Keys, ctx, cur, c);
      ctx := ctx[cur := c];
    }

    method SetHeld(l: LockId, h: Held)
      requires Valid() && l in held
      modifies Foot()
      ensures Valid() && Layout() == old(Layout())
      ensures Abs() == WithLock(old(Abs()), l, LockView(h, LockAt(old(Abs()), l).sema.waiters))
    {
      hide TagLists.Valid, TagLists.Laid, TagLists.Contents, Store.Valid, Store.Contents, LocksView, QueuesView, Fit, PointKnown;
      HeldUpdate(held, threads.Contents(), l, h);
      HeldIs(held, threads.Contents(), l);
      held := held[l := h];
      assert held.Keys == old(held.Keys);
    }

    method SetSlots(q: QueueId, k: Slots)
      requires Valid() && q in slots
      modifies Foot()
      ensures Valid() && Layout() == old(Layout())
      ensures Abs() == WithQueue(old(Abs()), q, Queue(QueueAt(old(Abs()), q).ring, k.producer, k.consumer))
    {
      hide TagLists.Valid, TagLists.Laid, TagLists.Contents, Store.Valid, Store.Contents, LocksView, QueuesView, Fit, PointKnown;
      FitFacts(threads.tags.Keys, pcbs.Keys, threads.lists.Keys, held.Keys, slots.Keys, rings.bufs.Keys, ctx);
      rings.ContentsKeys();
      SlotsUpdate(slots, rings.Contents(), q, k);
      SlotsAre(slots, rings.Contents(), q);
      slots := slots[q := k];
      assert slots.Keys == old(slots.Keys);
    }

    // ---------- the lists ----------

    method ReadyHas(t: Tid) returns (found: bool)
      requires Valid() && t in pcbs
      ensures Valid() && Layout() == old(Layout()) && Abs() == old(Abs())
      ensures found <==> t in Abs().ready
    {
      hide TagLists.Valid, TagLists.Laid, TagLists.Contents, Store.Valid, Store.Contents, LocksView, QueuesView, Fit, PointKnown;
      FitFacts(threads.tags.Keys, pcbs.Keys, threads.lists.Keys, held.Keys, slots.Keys, rings.bufs.Keys, ctx);
      threads.ContentsKeys();
      found := threads.Find(ReadyList, t);
    }

    method ReadyEmpty() returns (empty: bool)
      requires Valid()
      ensures Valid() && Layout() == old(Layout()) && Abs() == old(Abs())
      ensures empty <==> Abs().ready == []
    {
      hide TagLists.Valid, TagLists.Laid, TagLists.Contents, Store.Valid, Store.Contents, LocksView, QueuesView, Fit, PointKnown;
      FitFacts(threads.tags.Keys, pcbs.Keys, threads.lists.Keys, held.Keys, slots.Keys, rings.bufs.Keys, ctx);
      threads.ContentsKeys();
      empty := threads.IsEmpty(ReadyList);
    }

    /** list_append, list_push or list_pop on one of the lists. */
    method Relink(a: Name, op: ListOp, t: Tid) returns (x: Tid)
      requires Valid() && a in threads.lists && a in threads.Contents() && Applies(op, t, threads.Contents()[a])
      modifies threads.lists.Values, threads.nodes
      ensures Valid() && Layout() == old(Layout()) && x in pcbs && rings.Contents() == old(rings.Contents())
      ensures Moved(op, old(threads.Contents())[a], t, x) && threads.Contents() == old(threads.Contents())[a := Result(op, old(threads.Contents())[a], t)]
    {
      hide TagLists.Valid, TagLists.Laid, TagLists.Contents, Store.Valid, Store.Contents, LocksView, QueuesView, Fit, PointKnown, Result, TagLists.Free;
      FitFacts(threads.tags.Keys, pcbs.Keys, threads.lists.Keys, held.Keys, slots.Keys, rings.bufs.Keys, ctx);
      x := threads.Apply(a, op, t);
    }

    /** list_append or list_push on the ready list, or list_pop from it. */
    method OnReady(op: ListOp, t: Tid) returns (x: Tid)
      requires Valid() && Applies(op, t, Abs().ready)
      modifies Foot()
      ensures Valid() && Layout() == old(Layout()) && x in pcbs
      ensures ReadyDone(old(Abs()), Abs(), op, t, x)
    {
      hide TagLists.Valid, TagLists.Laid, TagLists.Contents, Store.Valid, Store.Contents, LocksView, QueuesView, Fit, PointKnown, Result, TagLists.Free;
      FitFacts(threads.tags.Keys, pcbs.Keys, threads.lists.Keys, held.Keys, slots.Keys, rings.bufs.Keys, ctx);
      threads.ContentsKeys();
      ghost var c := threads.Contents();
      x := Relink(ReadyList, op, t);
      ReadyApart(held, c, threads.Contents()[ReadyList]);
    }

    method WaitersHave(l: LockId, t: Tid) returns (found: bool)
      requires Valid() && l in held && t in pcbs
      ensures Valid() && Layout() == old(Layout()) && Abs() == old(Abs())
      ensures found <==> t in LockAt(Abs(), l).sema.waiters
    {
      hide TagLists.Valid, TagLists.Laid, TagLists.Contents, Store.Valid, Store.Contents, LocksView, QueuesView, Fit, PointKnown;
      FitFacts(threads.tags.Keys, pcbs.Keys, threads.lists.Keys, held.Keys, slots.Keys, rings.bufs.Keys, ctx);
      threads.ContentsKeys();
      HeldIs(held, threads.Contents(), l);
      found := threads.Find(WaitersOf(l), t);
    }

    method WaitersEmpty(l: LockId) returns (empty: bool)
      requires Valid() && l in held
      ensures Valid() && Layout() == old(Layout()) && Abs() == old(Abs())
      ensures empty <==> LockAt(Abs(), l).sema.waiters == []
    {
      hide TagLists.Valid, TagLists.Laid, TagLists.Contents, Store.Valid, Store.Contents, LocksView, QueuesView, Fit, PointKnown;
      FitFacts(threads.tags.Keys, pcbs.Keys, threads.lists.Keys, held.Keys, slots.Keys, rings.bufs.Keys, ctx);
      threads.ContentsKeys();
      HeldIs(held, threads.Contents(), l);
      empty := threads.IsEmpty(WaitersOf(l));
    }

    /** list_append on a waiter list, or list_pop from it. */
    method OnWaiters(l: LockId, op: ListOp, t: Tid) returns (x: Tid)
      requires Valid() && l in held && Applies(op, t, LockAt(Abs(), l).sema.waiters)
      modifies Foot()
      ensures Valid() && Layout() == old(Layout()) && x in pcbs
      ensures WaitersDone(old(Abs()), Abs(), l, op, t, x)
    {
      hide TagLists.Valid, TagLists.Laid, TagLists.Contents, Store.Valid, Store.Contents, LocksView, QueuesView, Fit, PointKnown, Result, TagLists.Free;
      FitFacts(threads.tags.Keys, pcbs.Keys, threads.lists.Keys, held.Keys, slots.Keys, rings.bufs.Keys, ctx);
      threads.ContentsKeys();
      ghost var c := threads.Contents();
      HeldIs(held, c, l);
      x := Relink(WaitersOf(l), op, t);
      WaitersUpdate(held, c, l, threads.Contents()[WaitersOf(l)]);
    }

    /** A thread that no list of the state has is linked nowhere. */
    lemma FreeNow(t: Tid)
      requires Valid() && t in pcbs && t !in Abs().ready && NoWaiter(Abs(), t)
      ensures Unlinked(t)
    {
      hide TagLists.Valid, TagLists.Laid, TagLists.Contents, Store.Valid, Store.Contents, LocksView, QueuesView, Fit, PointKnown;
      FitFacts(threads.tags.Keys, pcbs.Keys, threads.lists.Keys, held.Keys, slots.Keys, rings.bufs.Keys, ctx);
      threads.ContentsKeys();
      forall a | a in threads.lists ensures t !in threads.Contents()[a] {
        if a != ReadyList {
          HeldIs(held, threads.Contents(), a.l);
          assert t !in LockAt(Abs(), a.l).sema.waiters;
        }
      }
    }

    lemma PointDeclared(t: Tid)
      requires Valid()
      ensures Declared(CtxNow(t).pc)
    {
      hide TagLists.Valid, Store.Valid, TagLists.Contents, Store.Contents;
    }

    lemma HeldNow(l: LockId)
      requires Valid() && l in held
      ensures var k := LockAt(Abs(), l); k.holder == held[l].holder && k.repeat == held[l].repeat && k.sema.value == held[l].value
    {
      hide TagLists.Valid, TagLists.Laid, TagLists.Contents, Store.Valid, Store.Contents, LocksView, QueuesView, Fit, PointKnown;
      HeldIs(held, threads.Contents(), l);
    }

    // ---------- thread.c ----------

    /** A thread that still runs goes to the end of the ready list with a full slice. */
    method RequeueCur()
      requires Valid() && cur in pcbs && pcbs[cur].status == Running && cur !in Abs().ready && NoWaiter(Abs(), cur)
      modifies Foot()
      ensures Valid() && Layout() == old(Layout()) && Abs() == Requeue(old(Abs()))
    {
      hide Kernel.Valid, Kernel.Foot, Kernel.Unlinked, TagLists.Valid, TagLists.Contents, Store.Valid, Store.Contents, LocksView, QueuesView;
      FreeNow(cur);
      var _ := OnReady(AppendOp, cur);
      SetPcb(cur, pcbs[cur].(ticks := pcbs[cur].priority));
      SetPcb(cur, pcbs[cur].(status := Ready));
    }

    method Schedule()
      requires Valid() && cur in pcbs && (pcbs[cur].status == Running ==> NoWaiter(Abs(), cur))
      modifies Foot()
      ensures Valid() && Layout() == old(Layout()) && Abs() == KernelState.Schedule(old(Abs()))
      ensures ScheduleMeans(old(Abs()), Abs())
    {
      hide Kernel.Valid, Kernel.Foot, Kernel.Unlinked, TagLists.Valid, TagLists.Contents, Store.Valid, Store.Contents, LocksView, QueuesView, ScheduleMeans, NoWaiter;
      ScheduleIs(Abs());
      if pcbs[cur].status == Running {
        var found := ReadyHas(cur);
        if found {
          StopUnless(false);
          return;
        }
        RequeueCur();
      }
      assert Abs() == Requeue(old(Abs()));
      var empty := ReadyEmpty();
      if empty {
        StopUnless(false);
        return;
      }
      var next := OnReady(PopOp, 0);
      SetPcb(next, pcbs[next].(status := Running));
      SetCur(next);
    }

    method ThreadBlock(stat: Status)
      requires Valid() && cur in pcbs
      modifies Foot()
      ensures Valid() && Layout() == old(Layout()) && Abs() == KernelState.ThreadBlock(old(Abs()), stat)
      ensures BlockMeans(old(Abs()), Abs(), stat)
    {
      hide Kernel.Valid, Kernel.Foot, Kernel.Unlinked, TagLists.Valid, TagLists.Contents, Store.Valid, Store.Contents, LocksView, QueuesView, KernelState.Schedule, ScheduleMeans, BlockMeans;
      BlockIs(Abs(), stat);
      if stat !in {Waiting, Blocked, Hanging} {
        StopUnless(false);
        return;
      }
      SetPcb(cur, pcbs[cur].(status := stat));
      Schedule();
    }

    method ThreadUnblock(t: Tid)
      requires Valid() && t in pcbs && NoWaiter(Abs(), t)
      modifies Foot()
      ensures Valid() && Layout() == old(Layout()) && Abs() == KernelState.ThreadUnblock(old(Abs()), t)
      ensures UnblockMeans(old(Abs()), Abs(), t)
    {
      hide Kernel.Valid, Kernel.Foot, Kernel.Unlinked, TagLists.Valid, TagLists.Contents, Store.Valid, Store.Contents, LocksView, QueuesView, UnblockMeans;
      UnblockIs(Abs(), t);
      var found := ReadyHas(t);
      if pcbs[t].status !in {Blocked, Hanging, Waiting} || found {
        StopUnless(false);
        return;
      }
      FreeNow(t);
      var _ := OnReady(PushOp, t);
      SetPcb(t, pcbs[t].(status := Ready));
    }

    // ---------- timer.c ----------

    method SetTicks(n: nat)
      requires Valid()
      modifies Foot()
      ensures Valid() && Layout() == old(Layout()) && Abs() == old(Abs()).(ticks := n)
    {
      hide TagLists.Valid, TagLists.Laid, TagLists.Contents, Store.Valid, Store.Contents, LocksView, QueuesView, Fit, PointKnown;
      ticks := n;
    }

    method TimerHandler()
      requires Valid() && cur in pcbs && (pcbs[cur].status == Running ==> NoWaiter(Abs(), cur))
      modifies Foot()
      ensures Valid() && Layout() == old(Layout()) && Abs() == KernelState.TimerHandler(old(Abs()))
      ensures TimerMeans(old(Abs()), Abs())
    {
      hide Kernel.Valid, Kernel.Foot, Kernel.Unlinked, TagLists.Valid, TagLists.Contents, Store.Valid, Store.Contents, LocksView, QueuesView, KernelState.Schedule, ScheduleMeans, TimerMeans;
      TimerIs(Abs());
      SetPcb(cur, pcbs[cur].(elapsed := (pcbs[cur].elapsed + 1) % U32));
      SetTicks((ticks + 1) % U32);
      if old(NoWaiter(Abs(), cur)) { SameLocksAlone(old(Abs()), Abs(), cur); }
      if pcbs[cur].ticks == 0 {
        Schedule();
      } else {
        SetPcb(cur, pcbs[cur].(ticks := pcbs[cur].ticks - 1));
      }
    }

    // ---------- sync.c ----------

    method Move(pc: Pc)
      requires Valid() && Declared(pc)
      modifies Foot()
      ensures Valid() && Layout() == old(Layout()) && Abs() == Goto(old(Abs()), pc)
    {
      hide Kernel.Valid, Kernel.Foot, Kernel.Unlinked, TagLists.Valid, TagLists.Contents, Store.Valid, Store.Contents, LocksView, QueuesView;
      SetCtx(CtxNow(cur).(pc := pc));
    }

    method MoveDepth(pc: Pc, l: LockId, d: nat)
      requires Valid() && Declared(pc)
      modifies Foot()
      ensures Valid() && Layout() == old(Layout()) && Abs() == GotoDepth(old(Abs()), pc, l, d)
    {
      hide Kernel.Valid, Kernel.Foot, Kernel.Unlinked, TagLists.Valid, TagLists.Contents, Store.Valid, Store.Contents, LocksView, QueuesView;
      var c := CtxNow(cur);
      SetCtx(c.(pc := pc, depth := c.depth[l := d]));
    }

    /** One pass of sema_down's loop with interrupts off, and the decrement once the value is there. */
    method SemaDown(l: LockId, who: Caller)
      requires Valid() && l in held && cur in pcbs && cur !in Abs().ready
      requires forall m | m != l :: cur !in LockAt(Abs(), m).sema.waiters
      modifies Foot()
      ensures Valid() && Layout() == old(Layout()) && Abs() == KernelState.SemaDown(old(Abs()), l, who)
      ensures DownMeans(old(Abs()), Abs(), l, who)
    {
      hide Kernel.Valid, Kernel.Foot, Kernel.Unlinked, TagLists.Valid, TagLists.Contents, Store.Valid, Store.Contents, LocksView, QueuesView, KernelState.ThreadBlock, BlockMeans, DownMeans;
      DownIs(Abs(), l, who);
      HeldNow(l);
      if held[l].value == 0 {
        var found := WaitersHave(l, cur);
        if found {
          StopUnless(false);
          return;
        }
        FreeNow(cur);
        var _ := OnWaiters(l, AppendOp, cur);
        Move(Acquire(l, InLoop, who));
        ThreadBlock(Blocked);
      } else {
        if held[l].value - 1 != 0 {
          StopUnless(false);
          return;
        }
        SetHeld(l, held[l].(value := held[l].value - 1));
        Move(Acquire(l, SetHolder, who));
      }
    }

    /** Pop the first waiter and unblock it. */
    method Wake(l: LockId)
      requires Valid() && l in held && FirstAlone(Abs(), l)
      modifies Foot()
      ensures Valid() && Layout() == old(Layout()) && Abs() == SemaWake(old(Abs()), l)
    {
      hide Kernel.Valid, Kernel.Foot, Kernel.Unlinked, TagLists.Valid, TagLists.Contents, Store.Valid, Store.Contents, LocksView, QueuesView, KernelState.ThreadUnblock, UnblockMeans;
      var empty := WaitersEmpty(l);
      if !empty {
        ghost var k := LockAt(Abs(), l);
        PoppedAlone(Abs(), l, k.(sema := Sema(k.sema.value, k.sema.waiters[1..])));
        var first := OnWaiters(l, PopOp, 0);
        ThreadUnblock(first);
      }
    }

    method SemaUp(l: LockId, who: Caller)
      requires Valid() && l in held && FirstAlone(Abs(), l) && Declared(AfterRelease(l, who))
      modifies Foot()
      ensures Valid() && Layout() == old(Layout()) && Abs() == KernelState.SemaUp(old(Abs()), l, who)
      ensures UpMeans(old(Abs()), Abs(), l, who)
    {
      hide Kernel.Valid, Kernel.Foot, Kernel.Unlinked, TagLists.Valid, TagLists.Contents, Store.Valid, Store.Contents, LocksView, QueuesView, SemaWake, AfterRelease, UpMeans;
      UpIs(Abs(), l, who);
      HeldNow(l);
      if held[l].value != 0 {
        StopUnless(false);
        return;
      }
      Wake(l);
      if halted { return; }
      HeldNow(l);
      var value := (held[l].value + 1) % U8;
      StopUnless(value == 1);
      HeldNow(l);
      if value == 1 {
        SetHeld(l, held[l].(value := value));
        var d := Depth(CtxNow(cur), l);
        MoveDepth(AfterRelease(l, who), l, if d == 0 then 0 else d - 1);
      }
    }

    /** One assignment to a lock's fields, and on to the next point. */
    method Assign(l: LockId, h: Held, pc: Pc)
      requires Valid() && l in held && Declared(pc)
      modifies Foot()
      ensures Valid() && Layout() == old(Layout())
      ensures Abs() == Goto(WithLock(old(Abs()), l, LockView(h, LockAt(old(Abs()), l).sema.waiters)), pc)
    {
      hide Kernel.Valid, Kernel.Foot, Kernel.Unlinked, TagLists.Valid, TagLists.Contents, Store.Valid, Store.Contents, LocksView, QueuesView;
      SetHeld(l, h);
      Move(pc);
    }

    /** The same where the call ends at nesting depth d. */
    method AssignLast(l: LockId, h: Held, pc: Pc, d: nat)
      requires Valid() && l in held && Declared(pc)
      modifies Foot()
      ensures Valid() && Layout() == old(Layout())
      ensures Abs() == GotoDepth(WithLock(old(Abs()), l, LockView(h, LockAt(old(Abs()), l).sema.waiters)), pc, l, d)
    {
      hide Kernel.Valid, Kernel.Foot, Kernel.Unlinked, TagLists.Valid, TagLists.Contents, Store.Valid, Store.Contents, LocksView, QueuesView;
      SetHeld(l, h);
      MoveDepth(pc, l, d);
    }

    method AcquireStep(l: LockId, at: AcqPoint, who: Caller)
      requires Valid() && l in held && cur in pcbs && cur !in Abs().ready && NoWaiter(Abs(), cur) && Declared(AfterAcquire(l, who))
      modifies Foot()
      ensures Valid() && Layout() == old(Layout()) && Abs() == LockAcquire(old(Abs()), l, at, who)
      ensures AcquireMeans(old(Abs()), Abs(), l, at, who)
    {
      hide Kernel.Valid, Kernel.Foot, Kernel.Unlinked, TagLists.Valid, TagLists.Contents, Store.Valid, Store.Contents, LocksView, QueuesView, KernelState.SemaDown, AfterAcquire, DownMeans, AcquireMeans;
      AcquireIs(Abs(), l, at, who);
      HeldNow(l);
      var d := Depth(CtxNow(cur), l);
      match at
      case Entry => Move(Acquire(l, if held[l].holder != Some(cur) then Down else IncLoad, who));
      case Down => SemaDown(l, who);
      case InLoop => SemaDown(l, who);
      case SetHolder =>
        Assign(l, held[l].(holder := Some(cur)), Acquire(l, CheckZero, who));
      case CheckZero =>
        if held[l].repeat != 0 { StopUnless(false); } else { Move(Acquire(l, SetOne, who)); }
      case SetOne =>
        AssignLast(l, held[l].(repeat := 1), AfterAcquire(l, who), d + 1);
      case IncLoad => Move(Acquire(l, IncStore(held[l].repeat), who));
      case IncStore(tmp) =>
        AssignLast(l, held[l].(repeat := (tmp + 1) % U32), AfterAcquire(l, who), d + 1);
    }

    method ReleaseStep(l: LockId, at: RelPoint, who: Caller)
      requires Valid() && l in held && FirstAlone(Abs(), l) && Declared(AfterRelease(l, who))
      modifies Foot()
      ensures Valid() && Layout() == old(Layout()) && Abs() == LockRelease(old(Abs()), l, at, who)
      ensures ReleaseMeans(old(Abs()), Abs(), l, at, who)
    {
      hide Kernel.Valid, Kernel.Foot, Kernel.Unlinked, TagLists.Valid, TagLists.Contents, Store.Valid, Store.Contents, LocksView, QueuesView, KernelState.SemaUp, AfterRelease, UpMeans, ReleaseMeans, FirstAlone;
      ReleaseIs(Abs(), l, at, who);
      HeldNow(l);
      var d := Depth(CtxNow(cur), l);
      match at
      case CheckHolder =>
        if held[l].holder != Some(cur) { StopUnless(false); } else { Move(Release(l, Test, who)); }
      case Test => Move(Release(l, if held[l].repeat > 1 then DecLoad else CheckOne, who));
      case DecLoad => Move(Release(l, DecStore(held[l].repeat), who));
      case DecStore(tmp) =>
        AssignLast(l, held[l].(repeat := (tmp + U32 - 1) % U32), AfterRelease(l, who), if d == 0 then 0 else d - 1);
      case CheckOne =>
        if held[l].repeat != 1 { StopUnless(false); } else { Move(Release(l, ClearHolder, who)); }
      case ClearHolder =>
        Assign(l, held[l].(holder := None), Release(l, ClearRepeat, who));
      case ClearRepeat =>
        Assign(l, held[l].(repeat := 0), Release(l, Up, who));
      case Up => SemaUp(l, who);
    }

    // ---------- ioqueue.c ----------

    lemma SlotsNow(q: QueueId)
      requires Valid() && q in slots
      ensures q in rings.bufs && QueueLock(q) in held
      ensures QueueAt(Abs(), q) == Queue(rings.Contents()[q], slots[q].producer, slots[q].consumer)
    {
      hide TagLists.Valid, TagLists.Laid, TagLists.Contents, Store.Valid, Store.Contents, LocksView, QueuesView, Fit, PointKnown;
      FitFacts(threads.tags.Keys, pcbs.Keys, threads.lists.Keys, held.Keys, slots.Keys, rings.bufs.Keys, ctx);
      rings.ContentsKeys();
      SlotsAre(slots, rings.Contents(), q);
    }

    method QueueEmpty(q: QueueId) returns (empty: bool)
      requires Valid() && q in slots
      ensures Valid() && Layout() == old(Layout()) && Abs() == old(Abs())
      ensures empty == KernelState.IsEmpty(QueueAt(Abs(), q).ring)
    {
      hide TagLists.Valid, TagLists.Laid, TagLists.Contents, Store.Valid, Store.Contents, LocksView, QueuesView, Fit, PointKnown;
      SlotsNow(q);
      empty := rings.Empty(q);
    }

    method QueueFull(q: QueueId) returns (full: bool)
      requires Valid() && q in slots
      ensures Valid() && Layout() == old(Layout()) && Abs() == old(Abs())
      ensures full == IsFull(QueueAt(Abs(), q).ring)
    {
      hide TagLists.Valid, TagLists.Laid, TagLists.Contents, Store.Valid, Store.Contents, LocksView, QueuesView, Fit, PointKnown;
      SlotsNow(q);
      full := rings.Full(q);
    }

    method RingStore(q: QueueId, b: char)
      requires Valid() && q in slots && !IsFull(QueueAt(Abs(), q).ring)
      modifies Foot()
      ensures Valid() && Layout() == old(Layout())
      ensures var k := QueueAt(old(Abs()), q); Abs() == WithQueue(old(Abs()), q, k.(ring := RingPut(k.ring, b)))
    {
      hide TagLists.Valid, TagLists.Laid, TagLists.Contents, Store.Valid, Store.Contents, LocksView, QueuesView, Fit, PointKnown, RingPut;
      SlotsNow(q);
      rings.ContentsKeys();
      ghost var r := rings.Contents();
      rings.Put(q, b);
      RingUpdate(slots, r, q, RingPut(r[q], b));
    }

    method RingFetch(q: QueueId) returns (byte: char)
      requires Valid() && q in slots && !KernelState.IsEmpty(QueueAt(Abs(), q).ring)
      modifies Foot()
      ensures Valid() && Layout() == old(Layout())
      ensures var k := QueueAt(old(Abs()), q); Abs() == WithQueue(old(Abs()), q, k.(ring := RingGet(k.ring))) && byte == RingFront(k.ring)
    {
      hide TagLists.Valid, TagLists.Laid, TagLists.Contents, Store.Valid, Store.Contents, LocksView, QueuesView, Fit, PointKnown, RingGet, RingFront;
      SlotsNow(q);
      rings.ContentsKeys();
      ghost var r := rings.Contents();
      byte := rings.Get(q);
      RingUpdate(slots, r, q, RingGet(r[q]));
    }

    /** Store a byte and wake the waiting consumer. */
    method StoreByte(q: QueueId, b: char)
      requires Valid() && q in slots && !IsFull(QueueAt(Abs(), q).ring) && SlotAlone(Abs(), QueueAt(Abs(), q).consumer)
      modifies Foot()
      ensures Valid() && Layout() == old(Layout()) && Abs() == PutByte(old(Abs()), q, b)
      ensures PutMeans(old(Abs()), Abs(), q, b)
    {
      hide Kernel.Valid, Kernel.Foot, Kernel.Unlinked, TagLists.Valid, TagLists.Contents, Store.Valid, Store.Contents, LocksView, QueuesView, RingPut, KernelState.ThreadUnblock, UnblockMeans, PutMeans;
      PutIs(Abs(), q, b);
      SlotsNow(q);
      var consumer := slots[q].consumer;
      RingStore(q, b);
      if consumer != None {
        SameLocksAlone(old(Abs()), Abs(), consumer.value);
        ThreadUnblock(consumer.value);
        if halted { return; }
        SlotsNow(q);
        SetSlots(q, slots[q].(consumer := None));
      }
    }

    /** Take a byte and wake the waiting producer. */
    method FetchByte(q: QueueId) returns (byte: char)
      requires Valid() && q in slots && !KernelState.IsEmpty(QueueAt(Abs(), q).ring) && SlotAlone(Abs(), QueueAt(Abs(), q).producer)
      modifies Foot()
      ensures Valid() && Layout() == old(Layout()) && Abs() == GetByte(old(Abs()), q) && byte == RingFront(QueueAt(old(Abs()), q).ring)
      ensures GetMeans(old(Abs()), Abs(), q, byte)
    {
      hide Kernel.Valid, Kernel.Foot, Kernel.Unlinked, TagLists.Valid, TagLists.Contents, Store.Valid, Store.Contents, LocksView, QueuesView, RingGet, RingFront, KernelState.ThreadUnblock, UnblockMeans, GetMeans;
      GetIs(Abs(), q);
      SlotsNow(q);
      var producer := slots[q].producer;
      byte := RingFetch(q);
      if producer != None {
        SameLocksAlone(old(Abs()), Abs(), producer.value);
        ThreadUnblock(producer.value);
        if halted { return; }
        SlotsNow(q);
        SetSlots(q, slots[q].(producer := None));
      }
    }

    method GetStep(q: QueueId) returns (byte: Option<char>)
      requires Valid() && q in slots && SlotAlone(Abs(), QueueAt(Abs(), q).producer)
      modifies Foot()
      ensures Valid() && Layout() == old(Layout()) && Abs() == GetLoop(old(Abs()), q)
      ensures GetLoopMeans(old(Abs()), Abs(), q, byte)
    {
      hide Kernel.Valid, Kernel.Foot, Kernel.Unlinked, TagLists.Valid, TagLists.Contents, Store.Valid, Store.Contents, LocksView, QueuesView, GetByte, RingFront, GetMeans, GetLoopMeans;
      GetLoopIs(Abs(), q);
      SlotsNow(q);
      byte := None;
      var empty := QueueEmpty(q);
      if empty {
        Move(Acquire(QueueLock(q), Entry, ByGet));
      } else {
        var first := FetchByte(q);
        byte := Some(first);
        if !halted { Move(Program); }
      }
    }

    method PutStep(q: QueueId, b: char)
      requires Valid() && q in slots && SlotAlone(Abs(), QueueAt(Abs(), q).consumer)
      modifies Foot()
      ensures Valid() && Layout() == old(Layout()) && Abs() == PutLoop(old(Abs()), q, b)
      ensures PutLoopMeans(old(Abs()), Abs(), q, b)
    {
      hide Kernel.Valid, Kernel.Foot, Kernel.Unlinked, TagLists.Valid, TagLists.Contents, Store.Valid, Store.Contents, LocksView, QueuesView, PutByte, PutMeans, PutLoopMeans;
      PutLoopIs(Abs(), q, b);
      SlotsNow(q);
      var full := QueueFull(q);
      if full {
        Move(Acquire(QueueLock(q), Entry, ByPut(b)));
      } else {
        StoreByte(q, b);
        if !halted { Move(Program); }
      }
    }

    method IoqWaitConsumer(q: QueueId)
      requires Valid() && q in slots && cur in pcbs
      modifies Foot()
      ensures Valid() && Layout() == old(Layout()) && Abs() == WaitConsumer(old(Abs()), q)
      ensures CtxOf(old(Abs()), old(cur)).pc == GetWait(q) ==> WaitMeans(old(Abs()), Abs(), q, GetSlot(q))
    {
      hide Kernel.Valid, Kernel.Foot, Kernel.Unlinked, TagLists.Valid, TagLists.Contents, Store.Valid, Store.Contents, LocksView, QueuesView, KernelState.ThreadBlock, BlockMeans, WaitMeans;
      WaitConsumerIs(Abs(), q);
      SlotsNow(q);
      if slots[q].consumer != None {
        StopUnless(false);
        return;
      }
      SetSlots(q, slots[q].(consumer := Some(cur)));
      Move(GetSlot(q));
      ThreadBlock(Blocked);
    }

    method IoqWaitProducer(q: QueueId, b: char)
      requires Valid() && q in slots && cur in pcbs
      modifies Foot()
      ensures Valid() && Layout() == old(Layout()) && Abs() == WaitProducer(old(Abs()), q, b)
      ensures CtxOf(old(Abs()), old(cur)).pc == PutWait(q, b) ==> WaitMeans(old(Abs()), Abs(), q, PutSlot(q, b))
    {
      hide Kernel.Valid, Kernel.Foot, Kernel.Unlinked, TagLists.Valid, TagLists.Contents, Store.Valid, Store.Contents, LocksView, QueuesView, KernelState.ThreadBlock, BlockMeans, WaitMeans;
      WaitProducerIs(Abs(), q, b);
      SlotsNow(q);
      if slots[q].producer != None {
        StopUnless(false);
        return;
      }
      SetSlots(q, slots[q].(producer := Some(cur)));
      Move(PutSlot(q, b));
      ThreadBlock(Blocked);
    }

    // ---------- one step of the machine ----------

    /** The running thread executes its next section. */
    method Continue()
      requires Valid() && Inv(Abs())
      modifies Foot()
      ensures Valid() && Layout() == old(Layout()) && Abs() == Advance(old(Abs()))
    {
      hide Kernel.Valid, Kernel.Foot, Kernel.Unlinked, TagLists.Valid, TagLists.Contents, Store.Valid, Store.Contents, LocksView, QueuesView, Inv, LockAcquire, LockRelease, GetLoop, PutLoop, WaitConsumer, WaitProducer, NoWaiter, FirstAlone, SlotAlone, AcquireMeans, ReleaseMeans, GetLoopMeans, PutLoopMeans, WaitMeans;
      RunningAlone(Abs());
      PointDeclared(cur);
      match CtxNow(cur).pc
      case Program =>
      case Acquire(l, at, who) =>
        CallerDeclared(l, who);
        AcquireStep(l, at, who);
      case Release(l, at, who) =>
        WaiterAlone(Abs(), l);
        CallerDeclared(l, who);
        ReleaseStep(l, at, who);
      case GetTop(q) =>
        SlotsAlone(Abs(), q);
        var _ := GetStep(q);
      case GetWait(q) => IoqWaitConsumer(q);
      case GetSlot(q) =>
        SlotsNow(q);
        Move(Release(QueueLock(q), CheckHolder, ByGet));
      case PutTop(q, b) =>
        SlotsAlone(Abs(), q);
        PutStep(q, b);
      case PutWait(q, b) => IoqWaitProducer(q, b);
      case PutSlot(q, b) =>
        SlotsNow(q);
        Move(Release(QueueLock(q), CheckHolder, ByPut(b)));
    }

    lemma CallerDeclared(l: LockId, who: Caller)
      requires Valid() && l in held
      ensures Declared(AfterAcquire(l, who)) && Declared(AfterRelease(l, who))
    {
      hide TagLists.Valid, Store.Valid;
    }

    /** A tag for a new thread. */
    method AddTag(t: Tid)
      requires threads.Valid() && rings.Valid() && t !in threads.tags
      modifies threads
      ensures threads.Valid() && rings.Valid() && rings.Contents() == old(rings.Contents()) && fresh(threads.nodes - old(threads.nodes))
      ensures threads.lists == old(threads.lists) && threads.Contents() == old(threads.Contents())
      ensures threads.tags.Keys == old(threads.tags.Keys) + {t} && threads.Free(t)
    {
      hide TagLists.Valid, TagLists.Laid, TagLists.Contents, Store.Valid, Store.Contents, LocksView, QueuesView, Fit, PointKnown, TagLists.Free;
      threads.AddThread(t);
    }

    /** A waiter list for a new lock. */
    method AddWaiters(l: LockId)
      requires threads.Valid() && rings.Valid() && WaitersOf(l) !in threads.lists
      modifies threads
      ensures threads.Valid() && rings.Valid() && rings.Contents() == old(rings.Contents())
      ensures fresh(threads.nodes - old(threads.nodes)) && fresh(threads.lists.Values - old(threads.lists.Values))
      ensures threads.lists.Keys == old(threads.lists.Keys) + {WaitersOf(l)} && threads.tags == old(threads.tags)
      ensures threads.Contents() == old(threads.Contents())[WaitersOf(l) := []]
    {
      hide TagLists.Valid, TagLists.Laid, TagLists.Contents, Store.Valid, Store.Contents, LocksView, QueuesView, Fit, PointKnown;
      threads.AddList(WaitersOf(l));
    }

    /** A buffer for a new queue. */
    method AddRing(q: QueueId)
      requires threads.Valid() && rings.Valid() && q !in rings.bufs
      modifies rings
      ensures threads.Valid() && rings.Valid() && threads.Contents() == old(threads.Contents())
      ensures fresh(rings.arrays - old(rings.arrays)) && fresh(rings.bufs.Values - old(rings.bufs.Values))
      ensures rings.bufs.Keys == old(rings.bufs.Keys) + {q} && rings.Contents() == old(rings.Contents())[q := QueueInit().ring]
    {
      hide TagLists.Valid, TagLists.Laid, TagLists.Contents, Store.Valid, Store.Contents, LocksView, QueuesView, Fit, PointKnown;
      rings.Add(q);
    }

    /** The fields of new locks and queues. */
    method SetNames(h: map<LockId, Held>, k: map<QueueId, Slots>)
      requires threads.Valid() && rings.Valid()
      modifies `held, `slots
      ensures threads.Valid() && rings.Valid() && held == h && slots == k
      ensures threads.Contents() == old(threads.Contents()) && rings.Contents() == old(rings.Contents())
    {
      hide TagLists.Valid, TagLists.Laid, TagLists.Contents, Store.Valid, Store.Contents, LocksView, QueuesView, Fit, PointKnown;
      held, slots := h, k;
    }

    /** All parts of a new queue. */
    method AddQueueParts(q: QueueId)
      requires threads.Valid() && rings.Valid() && q !in rings.bufs && WaitersOf(QueueLock(q)) !in threads.lists
      modifies `held, `slots, threads, rings
      ensures threads.Valid() && rings.Valid()
      ensures fresh(threads.nodes - old(threads.nodes)) && fresh(threads.lists.Values - old(threads.lists.Values))
      ensures fresh(rings.arrays - old(rings.arrays)) && fresh(rings.bufs.Values - old(rings.bufs.Values))
      ensures threads.lists.Keys == old(threads.lists.Keys) + {WaitersOf(QueueLock(q))} && threads.tags == old(threads.tags)
      ensures threads.Contents() == old(threads.Contents())[WaitersOf(QueueLock(q)) := []]
      ensures rings.bufs.Keys == old(rings.bufs.Keys) + {q} && rings.Contents() == old(rings.Contents())[q := QueueInit().ring]
      ensures held == old(held)[QueueLock(q) := Held(None, 0, 1)] && held.Keys == old(held.Keys) + {QueueLock(q)}
      ensures slots == old(slots)[q := Slots(None, None)] && slots.Keys == old(slots.Keys) + {q}
    {
      hide TagLists.Valid, TagLists.Laid, TagLists.Contents, Store.Valid, Store.Contents, LocksView, QueuesView, Fit, PointKnown, QueueInit;
      AddWaiters(QueueLock(q));
      AddRing(q);
      SetNames(held[QueueLock(q) := Held(None, 0, 1)], slots[q := Slots(None, None)]);
    }

    /** The PCB, context and tag of a new thread. */
    method AddThreadParts(t: Tid, p: Pcb)
      requires threads.Valid() && rings.Valid() && t !in threads.tags
      modifies `pcbs, `ctx, threads
      ensures threads.Valid() && rings.Valid() && rings.Contents() == old(rings.Contents()) && fresh(threads.nodes - old(threads.nodes))
      ensures threads.lists == old(threads.lists) && threads.Contents() == old(threads.Contents())
      ensures threads.tags.Keys == old(threads.tags.Keys) + {t} && threads.Free(t)
      ensures pcbs == old(pcbs)[t := p] && ctx == old(ctx)[t := Ctx(Program, false, map[])] && pcbs.Keys == old(pcbs.Keys) + {t}
    {
      hide TagLists.Valid, TagLists.Laid, TagLists.Contents, Store.Valid, Store.Contents, LocksView, QueuesView, Fit, PointKnown, TagLists.Free;
      AddTag(t);
      pcbs := pcbs[t := p];
      ctx := ctx[t := Ctx(Program, false, map[])];
    }

    /** A thread that no list holds yet. */
    method NewThread(t: Tid, p: Pcb)
      requires Valid() && t !in pcbs
      modifies Foot(), threads
      ensures Valid() && fresh(Foot() - old(Foot())) && held == old(held) && slots == old(slots) && Unlinked(t)
      ensures Abs() == old(Abs()).(pcbs := old(pcbs)[t := p], ctx := old(ctx)[t := Ctx(Program, false, map[])])
      ensures t !in Abs().ready
    {
      hide TagLists.Valid, TagLists.Laid, TagLists.Contents, Store.Valid, Store.Contents, LocksView, QueuesView, Fit, PointKnown, TagLists.Free;
      FitFacts(threads.tags.Keys, pcbs.Keys, threads.lists.Keys, held.Keys, slots.Keys, rings.bufs.Keys, ctx);
      threads.ContentsKeys();
      threads.ContentsTagged(ReadyList);
      FitThread(threads.tags.Keys, pcbs.Keys, threads.lists.Keys, held.Keys, slots.Keys, rings.bufs.Keys, ctx, t);
      AddThreadParts(t, p);
    }

    method SetAll(ts: seq<Tid>)
      requires Valid()
      modifies Foot()
      ensures Valid() && Layout() == old(Layout()) && Abs() == old(Abs()).(all := ts)
    {
      hide TagLists.Valid, TagLists.Laid, TagLists.Contents, Store.Valid, Store.Contents, LocksView, QueuesView, Fit, PointKnown;
      all := ts;
    }

    method ThreadStart(t: Tid, prio: int)
      requires Valid() && t !in pcbs
      modifies Foot(), threads
      ensures Valid() && fresh(Foot() - old(Foot())) && held.Keys == old(held.Keys) && slots.Keys == old(slots.Keys)
      ensures Abs() == KernelState.ThreadStart(old(Abs()), t, prio)
      ensures StartMeans(old(Abs()), Abs(), t, prio)
    {
      hide Kernel.Valid, Kernel.Foot, Kernel.Unlinked, TagLists.Valid, TagLists.Contents, Store.Valid, Store.Contents, LocksView, QueuesView, StartMeans;
      StartIs(Abs(), t, prio);
      ReadyKnown(t);
      if t in all {
        StopUnless(false);
        return;
      }
      NewThread(t, Pcb(Ready, prio % U8, prio % U8, 0));
      var _ := OnReady(AppendOp, t);
      SetAll(all + [t]);
    }

    lemma ReadyKnown(t: Tid)
      requires Valid() && t !in pcbs
      ensures t !in Abs().ready
    {
      hide TagLists.Valid, TagLists.Laid, TagLists.Contents, Store.Valid, Store.Contents, LocksView, QueuesView, Fit, PointKnown;
      FitFacts(threads.tags.Keys, pcbs.Keys, threads.lists.Keys, held.Keys, slots.Keys, rings.bufs.Keys, ctx);
      threads.ContentsKeys();
      threads.ContentsTagged(ReadyList);
    }

    // ---------- initialisation ----------

    lemma ViewKeys()
      requires Valid()
      ensures Abs().locks.Keys == held.Keys && Abs().queues.Keys == slots.Keys && forall q :: QueueLock(q) in held <==> q in slots
    {
      hide TagLists.Valid, TagLists.Laid, TagLists.Contents, Store.Valid, Store.Contents, Fit, PointKnown;
      FitFacts(threads.tags.Keys, pcbs.Keys, threads.lists.Keys, held.Keys, slots.Keys, rings.bufs.Keys, ctx);
    }

    /** A free lock without waiters. */
    method AddLock(l: LockId)
      requires Valid() && l !in held && l.KernelLock?
      modifies Foot(), threads
      ensures Valid() && fresh(Foot() - old(Foot())) && held.Keys == old(held.Keys) + {l} && slots == old(slots)
      ensures Abs() == WithLock(old(Abs()), l, LockInit())
    {
      hide TagLists.Valid, TagLists.Laid, TagLists.Contents, Store.Valid, Store.Contents, LocksView, QueuesView, Fit, PointKnown;
      FitFacts(threads.tags.Keys, pcbs.Keys, threads.lists.Keys, held.Keys, slots.Keys, rings.bufs.Keys, ctx);
      ghost var c := threads.Contents();
      threads.ContentsKeys();
      NewLockView(held, c, l);
      FitLock(threads.tags.Keys, pcbs.Keys, threads.lists.Keys, held.Keys, slots.Keys, rings.bufs.Keys, ctx, l);
      AddWaiters(l);
      SetNames(held[l := Held(None, 0, 1)], slots);
      assert held.Keys == old(held.Keys) + {l};
    }

    /** lock_init. */
    method InitLock(l: LockId)
      requires Valid() && l !in held && l.KernelLock?
      modifies Foot(), threads
      ensures Valid() && fresh(Foot() - old(Foot())) && held.Keys == old(held.Keys) + {l} && slots == old(slots)
      ensures LockAt(Abs(), l) == LockInit() && SameShown(old(Abs()), Abs()) && (old(Inv(Abs())) ==> Inv(Abs()))
    {
      hide Kernel.Valid, Kernel.Foot, Inv, SameShown;
      ghost var was := Abs();
      ViewKeys();
      AddLock(l);
      FreshLock(was, l);
      InitKeeps(was, Abs());
    }

    /** A queue with an empty buffer, empty slots and a free lock. */
    method AddQueue(q: QueueId)
      requires Valid() && q !in slots
      modifies Foot(), threads, rings
      ensures Valid() && fresh(Foot() - old(Foot())) && held.Keys == old(held.Keys) + {QueueLock(q)} && slots.Keys == old(slots.Keys) + {q}
      ensures Abs() == WithQueue(WithLock(old(Abs()), QueueLock(q), LockInit()), q, QueueInit())
    {
      hide TagLists.Valid, TagLists.Laid, TagLists.Contents, Store.Valid, Store.Contents, LocksView, QueuesView, Fit, PointKnown, QueueInit, ListIn;
      FitFacts(threads.tags.Keys, pcbs.Keys, threads.lists.Keys, held.Keys, slots.Keys, rings.bufs.Keys, ctx);
      NewLockView(held, threads.Contents(), QueueLock(q));
      NewQueueView(slots, rings.Contents(), q);
      FitLock(threads.tags.Keys, pcbs.Keys, threads.lists.Keys, held.Keys, slots.Keys, rings.bufs.Keys, ctx, QueueLock(q));
      AddQueueParts(q);
    }

    /** ioqueue_init, the lock included. */
    method InitQueue(q: QueueId)
      requires Valid() && q !in slots
      modifies Foot(), threads, rings
      ensures Valid() && fresh(Foot() - old(Foot())) && held.Keys == old(held.Keys) + {QueueLock(q)} && slots.Keys == old(slots.Keys) + {q}
      ensures QueueAt(Abs(), q) == QueueInit() && SameShown(old(Abs()), Abs()) && (old(Inv(Abs())) ==> Inv(Abs()))
    {
      hide Kernel.Valid, Kernel.Foot, Inv, SameShown, QueueInit;
      ghost var was := Abs();
      ViewKeys();
      AddQueue(q);
      FreshQueue(was, q);
      InitKeeps(was, Abs());
    }

    // ---------- the machine ----------

    predicate Known(a: Action)
      reads this
    {
      match a
      case CallAcquire(l) => l in held
      case CallRelease(l) => l in held
      case CallGet(q) => q in slots
      case CallPut(q, _) => q in slots
      case Key(q, _) => q in slots
      case _ => true
    }

    method Do(a: Action)
      requires Valid() && Inv(Abs()) && Enabled(Abs(), a) && Known(a)
      modifies Foot(), threads
      ensures Valid() && fresh(Foot() - old(Foot())) && held.Keys == old(held.Keys) && slots.Keys == old(slots.Keys)
      ensures Abs() == Next(old(Abs()), a)
    {
      hide Kernel.Valid, Kernel.Foot, Kernel.Unlinked, TagLists.Valid, TagLists.Contents, Store.Valid, Store.Contents, LocksView, QueuesView, Inv, Advance, KernelState.TimerHandler, PutByte, KernelState.ThreadStart, NoWaiter, SlotAlone, TimerMeans, StartMeans, PutMeans;
      RunningAlone(Abs());
      match a
      case SetIf(on) =>
        PointDeclared(cur);
        SetCtx(CtxNow(cur).(ifOn := on));
      case CallAcquire(l) => Move(Acquire(l, Entry, ByProgram));
      case CallRelease(l) => Move(Release(l, CheckHolder, ByProgram));
      case CallGet(q) =>
        if CtxNow(cur).ifOn { StopUnless(false); } else { Move(GetTop(q)); }
      case CallPut(q, b) =>
        if CtxNow(cur).ifOn { StopUnless(false); } else { Move(PutTop(q, b)); }
      case Spawn(t, prio) => ThreadStart(t, prio);
      case Continue => Continue();
      case Timer => TimerHandler();
      case Key(q, b) =>
        SlotsAlone(Abs(), q);
        var full := QueueFull(q);
        if !full { StoreByte(q, b); }
    }

    /** Every step a well-behaved program or the hardware can cause leaves all lists well linked and apart,
        keeps the invariant, and stops at no ASSERT. */
    method Step(a: Action, ghost idle: Tid)
      requires Valid() && Known(a)
      requires Inv(Abs()) && Enabled(Abs(), a) && Disciplined(Abs(), a, idle) && IdleInv(Abs(), idle)
      modifies Foot(), threads
      ensures Valid() && fresh(Foot() - old(Foot())) && held.Keys == old(held.Keys) && slots.Keys == old(slots.Keys)
      ensures Abs() == Next(old(Abs()), a)
      ensures Inv(Abs()) && !halted && IdleInv(Abs(), idle)
    {
      hide Kernel.Valid, Kernel.Foot, Kernel.Unlinked, TagLists.Valid, TagLists.Contents, Store.Valid, Store.Contents, LocksView, QueuesView, Inv, Enabled, Disciplined, IdleInv, Next;
      StepKeeps(Abs(), a, idle);
      Do(a);
    }
  }
}
