/**
 Safety of the memory manager over whole runs.
 */
module MemoryTheorems {
  import opened Words
  import opened Paging
  import opened VirtualMemory
  import opened MemoryInv
  import opened MemorySteps
  import opened MemoryRuns
  import opened MemoryCalls
  import opened MemoryOps

  // ---------- the state after boot ----------

  /** The tables the loader builds: the low megabyte mapped at 0 and at 0xc0000000, all other
      kernel entries empty. */
  ghost predicate BootTables(m: Mem) {
    && KernelDir(m)
    && (forall n | K_BASE <= n < HEAP_BASE :: KWord(m, n) == Entry(n - K_BASE))
    && (forall n | HEAP_BASE <= n < WINDOW :: KWord(m, n) == 0)
  }

  predicate NoneTaken(bits: seq<bool>) {
    forall i | 0 <= i < |bits| - 1 :: !bits[i]
  }

  ghost predicate InitMM(mm: MM) {
    && BootTables(mm.mem) && PoolsOk(mm)
    && NoneTaken(mm.kpool.bits) && NoneTaken(mm.upool.bits) && NoneTaken(mm.kv.bits)
    && mm.procs == map[] && mm.cur == None && mm.cr3 == K_DIR
  }

  lemma InitMMInv(mm: MM)
    requires InitMM(mm)
    ensures MMInv(mm)
  {
    forall n | K_BASE <= n < WINDOW ensures KWordOk(mm.mem, mm.kv, n) {}
    forall u ensures UseFrame(mm, u) == None {}
    forall f: nat ensures !Taken(mm.kpool, f) && !Taken(mm.upool, f) {}
  }

  // ---------- steps ----------

  datatype Action =
    | AllocKernel(cnt: nat)
    | AllocUser(cnt: nat)
    | AllocAt(pf: PoolFlag, v: Word)
    | Execute(pid: Pid)
    | Switch(next: Option<Pid>)
    | WriteData(u: Use, i: nat, w: Word)

  function First(r: Outcome<(MM, Option<nat>)>): Outcome<MM> {
    if r.Stopped? then Stopped(r.why) else Ok(r.value.0)
  }

  function Next(mm: MM, a: Action): Outcome<MM>
    requires Sized(mm)
  {
    match a
    case AllocKernel(cnt) => First(GetPages(mm, PfKernel, cnt))
    case AllocUser(cnt) => First(GetPages(mm, PfUser, cnt))
    case AllocAt(pf, v) => GetAPage(mm, pf, v)
    case Execute(pid) => ProcessExecute(mm, pid)
    case Switch(next) => Activate(mm, next)
    case WriteData(u, i, w) =>
      match UseFrame(mm, u)
      case None => Stopped(PageFault)
      case Some(f) => Ok(mm.(mem := Wr(mm.mem, f, i, w)))
  }

  /** A process allocates only after it took its stack page, get_a_page is given an address its bitmap
      covers, a new process gets a new pid, and
      programs write their own data, not page tables or directories. */
  predicate Legal(mm: MM, a: Action) {
    && (a.AllocUser? ==> StackTaken(mm))
    && (a.AllocAt? && RightSpace(mm, a.pf) ==> InBitmap(mm, a.pf, a.v))
    && (a.Execute? ==> a.pid !in mm.procs)
    && (a.Switch? && a.next.Some? ==> a.next.value in mm.procs)
    && (a.WriteData? ==> IsData(mm, a.u) && UseFrame(mm, a.u).Some?)
  }

  /** Old mappings stay for ever; a new user page or table belongs to the process that runs. */
  ghost predicate Grew(mm: MM, mm': MM) {
    && (forall u :: UseFrame(mm, u).Some? ==> UseFrame(mm', u) == UseFrame(mm, u))
    && (forall u :: UseFrame(mm', u).Some? && UseFrame(mm, u) == None ==> u.KPage? || mm.cur == Some(u.p))
    && (forall p | p in mm.procs :: p in mm'.procs && mm'.procs[p].pgdir == mm.procs[p].pgdir)
  }

  /** The reason a legal call stops for, exactly where the call is one allocation. */
  ghost predicate GoodStop(mm: MM, a: Action, why: Stop) {
    match a
    case AllocKernel(cnt) => MallocAnswer(mm, PfKernel, cnt, Stopped(why))
    case AllocUser(cnt) => MallocAnswer(mm, PfUser, cnt, Stopped(why))
    case AllocAt(pf, v) => why != OutsideBitmap && PlaceStop(mm, pf, v, why)
    case Execute(_) => why in {BadCount, NoSpace, PoolFull}
    case _ => false
  }

  lemma MappedGrew(mm: MM, mm': MM, pf: PoolFlag, n: nat, cnt: nat)
    requires Mapped(mm, mm', pf, OwnerOf(mm), n, cnt) && (pf == PfUser ==> mm.cur.Some?)
    requires forall p | p in mm.procs :: p in mm'.procs && mm'.procs[p].pgdir == mm.procs[p].pgdir
    ensures Grew(mm, mm')
  {
    hide UseFrame;
  }

  lemma AllocStep(mm: MM, pf: PoolFlag, cnt: nat)
    requires MMInv(mm) && (pf == PfUser ==> StackTaken(mm))
    ensures Sized(mm)
    ensures var r := First(GetPages(mm, pf, cnt));
      && (r.Ok? ==> MMInv(r.value) && Grew(mm, r.value))
      && (r.Stopped? ==> MallocAnswer(mm, pf, cnt, Stopped(r.why)))
  {
    hide MMInv, GetPages, UseFrame, Mapped, MallocAnswer;
    GetPagesKeeps(mm, pf, cnt);
    var r := GetPages(mm, pf, cnt);
    if r.Ok? && r.value.1.Some? {
      MappedGrew(mm, r.value.0, pf, r.value.1.value, cnt);
    }
  }

  lemma PlaceStep(mm: MM, pf: PoolFlag, v: Word)
    requires MMInv(mm) && (RightSpace(mm, pf) ==> InBitmap(mm, pf, v))
    ensures Sized(mm)
    ensures var r := GetAPage(mm, pf, v);
      && (r.Ok? ==> MMInv(r.value) && Grew(mm, r.value))
      && (r.Stopped? ==> GoodStop(mm, AllocAt(pf, v), r.why))
  {
    hide MMInv, MapPage, UseFrame, Mapped, PageInUse, Free, TooFew;
    InvSized(mm);
    if pf == PfKernel { GetAPageKernel(mm, v); } else { GetAPageUser(mm, v); }
    var r := GetAPage(mm, pf, v);
    if r.Ok? {
      MappedGrew(mm, r.value, pf, v / 0x1000, 1);
    }
  }

  lemma WriteStep(mm: MM, u: Use, i: nat, w: Word)
    requires MMInv(mm) && IsData(mm, u) && UseFrame(mm, u).Some?
    ensures var mm' := mm.(mem := Wr(mm.mem, UseFrame(mm, u).value, i, w)); MMInv(mm') && Grew(mm, mm')
  {
    hide MMInv, UseFrame;
    var f := UseFrame(mm, u).value;
    var m' := Wr(mm.mem, f, i, w);
    forall g: nat, j: nat | g != f ensures Rd(m', g, j) == Rd(mm.mem, g, j) { RdWr(mm.mem, f, i, w, g, j); }
    DataWriteKeeps(mm, m', u);
  }

  lemma ExecuteStep(mm: MM, pid: Pid)
    requires MMInv(mm) && pid !in mm.procs
    ensures Sized(mm)
    ensures var r := ProcessExecute(mm, pid);
      && (r.Ok? ==> MMInv(r.value) && Grew(mm, r.value))
      && (r.Stopped? ==> r.why in {BadCount, NoSpace, PoolFull})
  {
    hide MMInv, ProcessExecute, UseFrame;
    ProcessExecuteKeeps(mm, pid);
  }

  /** Every legal step that returns keeps the invariant and all mappings; the only stops are
      exhaustion and the documented misuse of get_a_page. */
  lemma StepKeeps(mm: MM, a: Action)
    requires MMInv(mm) && Legal(mm, a)
    ensures Sized(mm)
    ensures var r := Next(mm, a);
      && (r.Ok? ==> MMInv(r.value) && Grew(mm, r.value))
      && (r.Stopped? ==> GoodStop(mm, a, r.why))
  {
    hide MMInv, GetPages, GetAPage, ProcessExecute, Activate, UseFrame, IsData, Grew, PageInUse, MallocAnswer, PlaceStop;
    InvSized(mm);
    match a {
      case AllocKernel(cnt) => AllocStep(mm, PfKernel, cnt);
      case AllocUser(cnt) => AllocStep(mm, PfUser, cnt);
      case AllocAt(pf, v) => PlaceStep(mm, pf, v);
      case Execute(pid) => ExecuteStep(mm, pid);
      case Switch(next) => ActivateKeeps(mm, next); SameGrew(mm, Activate(mm, next).value);
      case WriteData(u, i, w) => WriteStep(mm, u, i, w);
    }
  }

  lemma SameGrew(mm: MM, mm': MM)
    requires mm'.procs == mm.procs && forall u :: UseFrame(mm', u) == UseFrame(mm, u)
    ensures Grew(mm, mm')
  {
    hide UseFrame;
  }

  // ---------- runs ----------

  ghost predicate Runs(mm: MM, run: seq<Action>, mm': MM)
    decreases |run|
  {
    if run == [] then mm' == mm
    else Sized(mm) && Legal(mm, run[0]) && Next(mm, run[0]).Ok? && Runs(Next(mm, run[0]).value, run[1..], mm')
  }

  lemma {:induction false} RunKeeps(mm: MM, run: seq<Action>, mm': MM)
    requires MMInv(mm) && Runs(mm, run, mm')
    ensures MMInv(mm')
    ensures forall u :: UseFrame(mm, u).Some? ==> UseFrame(mm', u) == UseFrame(mm, u)
    decreases |run|
  {
    hide MMInv, Next, Legal, UseFrame;
    if run != [] {
      StepKeeps(mm, run[0]);
      RunKeeps(Next(mm, run[0]).value, run[1..], mm');
    }
  }

  ghost predicate Reachable(mm: MM) {
    exists mm0: MM, run: seq<Action> :: InitMM(mm0) && Runs(mm0, run, mm)
  }

  lemma ReachableInv(mm: MM)
    requires Reachable(mm)
    ensures MMInv(mm)
  {
    hide MMInv;
    var mm0: MM, run: seq<Action> :| InitMM(mm0) && Runs(mm0, run, mm);
    InitMMInv(mm0);
    RunKeeps(mm0, run, mm);
  }

  // ---------- theorems ----------

  /** Theorem: for every process ever created, every kernel address below the window walks as in the
      boot directory, in every later state; a mapping once made never changes. */
  lemma KernelHalfForEver(mm: MM, run: seq<Action>, mm': MM, p: Pid, v: Word)
    requires Reachable(mm) && Runs(mm, run, mm') && p in mm'.procs && 0xc000_0000 <= v < 0xffc0_0000
    ensures Walk(mm'.mem, DirOf(mm'.mem, mm'.procs[p]), v) == Walk(mm'.mem, K_DIR, v)
    ensures v >= 0xc010_0000 && Walk(mm.mem, K_DIR, v).Some? ==> Walk(mm'.mem, K_DIR, v) == Walk(mm.mem, K_DIR, v)
    ensures v < 0xc010_0000 ==> Walk(mm'.mem, K_DIR, v) == Some(v - 0xc000_0000)
  {
    hide MMInv, Runs, Reachable, Walk, KWord, DirOf, Entry;
    ReachableInv(mm);
    RunKeeps(mm, run, mm');
    KernelHalfShared(mm', DirOf(mm'.mem, mm'.procs[p]), v);
    KernelHalfShared(mm, K_DIR, v);
    KernelHalfShared(mm', K_DIR, v);
    var n := v / 0x1000;
    if v >= 0xc010_0000 {
      assert UseFrame(mm, KPage(n)) == FrameIf(KWord(mm.mem, n)) && UseFrame(mm', KPage(n)) == FrameIf(KWord(mm'.mem, n));
    } else {
      LowWord(mm', n);
    }
  }

  lemma LowWord(mm: MM, n: nat)
    requires MMInv(mm) && K_BASE <= n < HEAP_BASE
    ensures KWord(mm.mem, n) == Entry(n - K_BASE)
  {
    assert KWordOk(mm.mem, mm.kv, n);
  }

  /** Theorem: CR3 is the directory of the running thread in every reachable state. */
  lemma Cr3IsCurrent(mm: MM)
    requires Reachable(mm)
    ensures mm.cr3 == (match mm.cur case None => K_DIR case Some(p) => if p in mm.procs then DirOf(mm.mem, mm.procs[p]) else 0)
    ensures mm.cur.Some? ==> mm.cur.value in mm.procs
  {
    ReachableInv(mm);
  }

  /** Theorem: no frame is used twice; kernel pages and tables have frames of the kernel pool, user
      pages frames of the user pool, and none of the boot tables; every frame marked in a pool is used. */
  lemma FrameUniqueness(mm: MM, u: Use, w: Use)
    requires Reachable(mm) && UseFrame(mm, u).Some? && UseFrame(mm, w).Some?
    ensures UseFrame(mm, u) == UseFrame(mm, w) ==> u == w
    ensures TakenFor(mm, u, UseFrame(mm, u).value) && POOL_BASE <= UseFrame(mm, u).value < FRAMES
    ensures forall f: nat | Taken(mm.kpool, f) || Taken(mm.upool, f) :: exists x :: UseFrame(mm, x) == Some(f)
    ensures forall f: nat :: !(InPool(mm.kpool, f) && InPool(mm.upool, f))
  {
    ReachableInv(mm);
    UsedIsTaken(mm, u);
    DataAbovePools(mm, u);
    if u != w { UsesDiffer(mm, u, w); }
    forall f: nat ensures !(InPool(mm.kpool, f) && InPool(mm.upool, f)) { PoolsApart(mm, f); }
  }

  /** Theorem: two user addresses in different pages, of one process or of two, never reach the same frame. */
  lemma UserPagesApart(mm: MM, p: Pid, q: Pid, v: Word, x: Word)
    requires Reachable(mm) && p in mm.procs && q in mm.procs && v < 0xc000_0000 && x < 0xc000_0000
    requires p != q || v / 0x1000 != x / 0x1000
    requires Walk(mm.mem, DirOf(mm.mem, mm.procs[p]), v).Some? && Walk(mm.mem, DirOf(mm.mem, mm.procs[q]), x).Some?
    ensures Walk(mm.mem, DirOf(mm.mem, mm.procs[p]), v).value / 0x1000 != Walk(mm.mem, DirOf(mm.mem, mm.procs[q]), x).value / 0x1000
  {
    hide KernelDir, KernelPages, ProcsOk, Cr3Ok, PoolsOk, UsesOk, Reachable, Walk, PageFrame;
    ReachableInv(mm);
    WalkByPage(mm.mem, DirOf(mm.mem, mm.procs[p]), v);
    WalkByPage(mm.mem, DirOf(mm.mem, mm.procs[q]), x);
    var u, w := UPage(p, v / 0x1000), UPage(q, x / 0x1000);
    assert UseFrame(mm, u) == PageFrame(mm.mem, DirOf(mm.mem, mm.procs[p]), v / 0x1000);
    assert UseFrame(mm, w) == PageFrame(mm.mem, DirOf(mm.mem, mm.procs[q]), x / 0x1000);
    UsesDiffer(mm, u, w);
  }

  /** Theorem: a step leaves the user half of every process but the running one exactly as it was. */
  lemma ProcessIsolation(mm: MM, a: Action, q: Pid, v: Word)
    requires Reachable(mm) && q in mm.procs && mm.cur != Some(q) && v < 0xc000_0000
    requires Legal(mm, a)
    ensures Sized(mm)
    ensures Next(mm, a).Ok? ==>
      && q in Next(mm, a).value.procs
      && Walk(Next(mm, a).value.mem, DirOf(Next(mm, a).value.mem, Next(mm, a).value.procs[q]), v)
         == Walk(mm.mem, DirOf(mm.mem, mm.procs[q]), v)
  {
    hide MMInv, Next, Legal, Reachable;
    ReachableInv(mm);
    StepKeeps(mm, a);
    if Next(mm, a).Ok? {
      var mm' := Next(mm, a).value;
      var u := UPage(q, v / 0x1000);
      assert UseFrame(mm', u) == UseFrame(mm, u);
      WalkByPage(mm.mem, DirOf(mm.mem, mm.procs[q]), v);
      WalkByPage(mm'.mem, DirOf(mm'.mem, mm'.procs[q]), v);
    }
  }

  /** Theorem: a page of the heap, or of a process, is mapped exactly when its bit is set. */
  lemma BitmapsAreExact(mm: MM, p: Pid, v: Word)
    requires Reachable(mm)
    ensures var h := v / 0x1000;
      HEAP_BASE <= h && h - HEAP_BASE < |mm.kv.bits| - 1 ==> (Walk(mm.mem, K_DIR, v).Some? <==> mm.kv.bits[h - HEAP_BASE])
    ensures p in mm.procs && v < 0xc000_0000 ==>
      (Walk(mm.mem, DirOf(mm.mem, mm.procs[p]), v).Some? <==> UserBit(mm.procs[p], v / 0x1000))
  {
    hide MMInv, Reachable, Walk, PageFrame;
    ReachableInv(mm);
    var n := v / 0x1000;
    if HEAP_BASE <= n && n - HEAP_BASE < |mm.kv.bits| - 1 {
      KernelBit(mm, n);
      KernelHalfShared(mm, K_DIR, v);
    }
    if p in mm.procs && v < 0xc000_0000 {
      UserPageBit(mm, p, n);
      WalkByPage(mm.mem, DirOf(mm.mem, mm.procs[p]), v);
    }
  }

  lemma UserPageBit(mm: MM, p: Pid, n: nat)
    requires MMInv(mm) && p in mm.procs && n < K_BASE
    ensures PageFrame(mm.mem, DirOf(mm.mem, mm.procs[p]), n).Some? <==> UserBit(mm.procs[p], n)
  {
    hide UsesOk, KernelPages, KernelDir, PageFrame, UserBit, ProcShape;
    assert DirOk(mm.mem, mm.procs[p]);
  }
}
