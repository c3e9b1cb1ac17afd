/**
 malloc_page, get_kernel_pages, get_user_pages, get_a_page, create_page_dir, process_execute
 and page_dir_activate: each keeps the invariant and does exactly what it promises.
 */
module MemoryCalls {
  import opened Words
  import opened Bitmap
  import opened Paging
  import opened VirtualMemory
  import opened MemoryInv
  import opened MemorySteps
  import opened MemoryRuns

  // ---------- malloc_page ----------

  /** The process has its stack page, which every process takes before it runs user code. */
  predicate StackTaken(mm: MM) {
    mm.cur.Some? && mm.cur.value in mm.procs && UserBit(mm.procs[mm.cur.value], STACK_PAGE)
  }

  function OwnerOf(mm: MM): Pid { if mm.cur.Some? then mm.cur.value else 0 }

  /** What an allocation of cnt pages that answered page n did. */
  ghost predicate Allocated(mm: MM, mm': MM, pf: PoolFlag, n: nat, cnt: nat) {
    && Mapped(mm, mm', pf, OwnerOf(mm), n, cnt)
    && mm'.cr3 == mm.cr3 && mm'.cur == mm.cur && mm'.procs.Keys == mm.procs.Keys
    && (forall p | p in mm.procs :: mm'.procs[p].pgdir == mm.procs[p].pgdir)
    && (pf == PfKernel ==> mm'.procs == mm.procs && HEAP_BASE <= n && n + cnt <= WINDOW)
    && (pf == PfUser ==> USER_BASE <= n && n + cnt <= STACK_PAGE)
    && Free(PoolFor(pf, mm.kpool, mm.upool)) == Free(PoolFor(pf, mm'.kpool, mm'.upool)) + cnt
    && (pf == PfKernel ==> mm'.upool == mm.upool)
    && (pf == PfUser ==> Free(mm.kpool) == Free(mm'.kpool) + NewTables(mm, OwnerOf(mm), n, cnt))
  }

  predicate GoodCount(cnt: nat) { 0 < cnt < 3840 }

  /** Too few frames are left for cnt pages from n on, or for the tables a process lacks for them. */
  predicate TooFew(mm: MM, pf: PoolFlag, n: nat, cnt: nat) {
    || Free(PoolFor(pf, mm.kpool, mm.upool)) < cnt
    || (pf == PfUser && Free(mm.kpool) < NewTables(mm, OwnerOf(mm), n, cnt))
  }

  /** What malloc_page answers, by the count, the scan of the address bitmap and the frames left.  The
      cases exclude each other, so each is exact. */
  ghost predicate MallocAnswer(mm: MM, pf: PoolFlag, cnt: nat, r: Outcome<Option<nat>>) {
    match r
    case Stopped(BadCount) => !GoodCount(cnt)
    case Stopped(NoSpace) => GoodCount(cnt) && SpaceScan(mm, pf, cnt) == Some(Halted)
    case Ok(None) => GoodCount(cnt) && SpaceScan(mm, pf, cnt) == Some(NotFound)
    case Stopped(PoolFull) => GoodCount(cnt) && FoundAt(mm, pf, cnt).Some? && TooFew(mm, pf, FoundAt(mm, pf, cnt).value, cnt)
    case Ok(Some(n)) => GoodCount(cnt) && FoundAt(mm, pf, cnt) == Some(n) && !TooFew(mm, pf, n, cnt)
    case Stopped(_) => false
  }

  /** The scan of the caller's address bitmap for cnt pages. */
  function SpaceScan(mm: MM, pf: PoolFlag, cnt: nat): Option<ScanResult> {
    match SpaceOf(mm, pf)
    case None => None
    case Some(vs) => if |vs.bits| >= 1 && cnt >= 1 then Some(Scan(vs.bits, cnt)) else None
  }

  /** The first page of the run it finds. */
  function FoundAt(mm: MM, pf: PoolFlag, cnt: nat): Option<nat> {
    match SpaceScan(mm, pf, cnt)
    case Some(Found(st)) => Some(SpaceOf(mm, pf).value.base + st)
    case _ => None
  }

  function Answer(r: Outcome<(MM, Option<nat>)>): Outcome<Option<nat>> {
    match r case Ok(v) => Ok(v.1) case Stopped(why) => Stopped(why)
  }

  lemma KernelRunFree(mm: MM, st: nat, cnt: nat)
    requires MMInv(mm) && FreeRun(mm.kv.bits, st, cnt)
    ensures KernelFree(mm.mem, HEAP_BASE + st, cnt) && HEAP_BASE + st + cnt <= WINDOW && mm.kv.base == HEAP_BASE
  {
    forall x: nat | HEAP_BASE + st <= x < HEAP_BASE + st + cnt ensures !Present(KWord(mm.mem, x)) {
      assert KWordOk(mm.mem, mm.kv, x) && !mm.kv.bits[x - HEAP_BASE];
    }
  }

  /** Theorem: an allocation of kernel pages maps a fresh contiguous run inside the heap and takes
      cnt frames of the kernel pool; it stops, or answers null, exactly on the conditions MallocAnswer
      names. */
  lemma MallocKernel(mm: MM, cnt: nat)
    requires MMInv(mm)
    ensures Sized(mm)
    ensures var r := MallocPage(mm, PfKernel, cnt);
      && MallocAnswer(mm, PfKernel, cnt, Answer(r))
      && (r.Ok? && r.value.1 == None ==> r.value.0 == mm)
      && (r.Ok? && r.value.1.Some? ==> MMInv(r.value.0) && Allocated(mm, r.value.0, PfKernel, r.value.1.value, cnt))
  {
    hide MMInv, MapPages, Mapped, Scan, KernelFree, UseFrame;
    InvSized(mm);
    InvPools(mm);
    if 0 < cnt < 3840 && Scan(mm.kv.bits, cnt).Found? {
      RunStaysInside(mm.kv.bits, cnt);
      var st := Scan(mm.kv.bits, cnt).start;
      KernelRunFree(mm, st, cnt);
      MapKernelRun(mm, HEAP_BASE + st, cnt);
      var r := MallocPage(mm, PfKernel, cnt);
      if r.Ok? {
        var x := MapPages(mm.mem, mm.cr3, mm.kpool, mm.upool, PfKernel, HEAP_BASE + st, cnt);
        assert r.value.0 == KernelRun(mm, x.value.0, x.value.1, HEAP_BASE + st, cnt);
        MappedAnyOwner(mm, r.value.0, HEAP_BASE + st, cnt);
      }
    } else {
      assert MallocPage(mm, PfKernel, cnt).Ok? ==> MallocPage(mm, PfKernel, cnt).value == (mm, None);
    }
  }

  lemma MappedAnyOwner(mm: MM, mm': MM, n: nat, cnt: nat)
    requires Mapped(mm, mm', PfKernel, 0, n, cnt)
    ensures Mapped(mm, mm', PfKernel, OwnerOf(mm), n, cnt)
  {
    hide UseFrame;
    forall u | UseFrame(mm', u).Some? && UseFrame(mm, u) == None ensures MayAdd(PfKernel, OwnerOf(mm), n, cnt, u) {
      assert MayAdd(PfKernel, 0, n, cnt, u);
      var x :| n <= x < n + cnt && u == PageUse(PfKernel, 0, x);
      assert u == PageUse(PfKernel, OwnerOf(mm), x);
    }
    forall x: nat | n <= x < n + cnt
      ensures UseFrame(mm, PageUse(PfKernel, OwnerOf(mm), x)) == None && UseFrame(mm', PageUse(PfKernel, OwnerOf(mm), x)).Some?
    {
      assert PageUse(PfKernel, OwnerOf(mm), x) == PageUse(PfKernel, 0, x);
    }
  }

  lemma UserRunFree(mm: MM, p: Pid, st: nat, cnt: nat)
    requires MMInv(mm) && p in mm.procs && UserBit(mm.procs[p], STACK_PAGE) && cnt >= 1
    requires FreeRun(mm.procs[p].vs.bits, st, cnt) && st + cnt <= |mm.procs[p].vs.bits| - 1
    ensures UserFree(mm, p, USER_BASE + st, cnt) && USER_BASE + st + cnt <= STACK_PAGE && mm.procs[p].vs.base == USER_BASE
  {
    assert ProcShape(mm, mm.procs[p]);
    hide MMInv;
    var bits := mm.procs[p].vs.bits;
    assert bits[STACK_PAGE - USER_BASE] && STACK_PAGE - USER_BASE == |bits| - 2;
    forall x: nat | USER_BASE + st <= x < USER_BASE + st + cnt ensures !UserBit(mm.procs[p], x) { assert !bits[x - USER_BASE]; }
  }

  lemma UserShape(mm: MM, p: Pid)
    requires MMInv(mm) && p in mm.procs
    ensures ProcShape(mm, mm.procs[p])
  {
  }

  /** Theorem: an allocation by a process that has its stack page maps a fresh contiguous run below
      the stack, takes cnt frames of the user pool, and one kernel frame for each 4 MB region of
      the run that had no table; no entry is ever found in use, and it stops, or answers null, exactly on
      the conditions MallocAnswer names. */
  lemma MallocUser(mm: MM, cnt: nat)
    requires MMInv(mm) && StackTaken(mm)
    ensures Sized(mm)
    ensures var r := MallocPage(mm, PfUser, cnt);
      && MallocAnswer(mm, PfUser, cnt, Answer(r))
      && (r.Ok? && r.value.1 == None ==> r.value.0 == mm)
      && (r.Ok? && r.value.1.Some? ==> MMInv(r.value.0) && Allocated(mm, r.value.0, PfUser, r.value.1.value, cnt))
  {
    hide MMInv, MapPages, Mapped, Scan, UserFree, UseFrame;
    InvSized(mm);
    InvPools(mm);
    var p := mm.cur.value;
    UserShape(mm, p);
    var bits := mm.procs[p].vs.bits;
    if 0 < cnt < 3840 && Scan(bits, cnt).Found? {
      RunStaysInside(bits, cnt);
      assert bits[|bits| - 2];
      var st := Scan(bits, cnt).start;
      UserRunFree(mm, p, st, cnt);
      UserFreeShape(mm, p, USER_BASE + st, cnt);
      MapUserRun(mm, p, USER_BASE + st, cnt);
      var r := MallocPage(mm, PfUser, cnt);
      if r.Ok? {
        var x := MapPages(mm.mem, mm.cr3, mm.kpool, mm.upool, PfUser, USER_BASE + st, cnt);
        assert r.value.0 == UserRun(mm, x.value.0, x.value.1, x.value.2, p, USER_BASE + st, cnt);
      }
    } else {
      assert MallocPage(mm, PfUser, cnt).Ok? ==> MallocPage(mm, PfUser, cnt).value == (mm, None);
    }
  }

  lemma UserFreeShape(mm: MM, p: Pid, n: nat, cnt: nat)
    requires UserFree(mm, p, n, cnt)
    ensures p in mm.procs && USER_BASE <= n && n + cnt <= USER_BASE + |mm.procs[p].vs.bits|
  {
  }

  // ---------- writing data ----------

  /** A page of data: a user page, or a kernel page that is no process's directory. */
  predicate IsData(mm: MM, u: Use) {
    u.UPage? || (u.KPage? && forall p | p in mm.procs :: mm.procs[p].pgdir / 0x1000 != u.n)
  }

  lemma DataFrame(mm: MM, u: Use, q: Pid)
    requires MMInv(mm) && IsData(mm, u) && UseFrame(mm, u).Some? && q in mm.procs
    ensures UseFrame(mm, u).value != DirOf(mm.mem, mm.procs[q])
    ensures forall i | 0 <= i < 768 :: UseFrame(mm, UTable(q, i)).Some? ==> UseFrame(mm, u) != UseFrame(mm, UTable(q, i))
  {
    DirUse(mm, q);
    UsesDiffer(mm, u, KPage(mm.procs[q].pgdir / 0x1000));
    forall i | 0 <= i < 768 && UseFrame(mm, UTable(q, i)).Some? ensures UseFrame(mm, u) != UseFrame(mm, UTable(q, i)) {
      UsesDiffer(mm, u, UTable(q, i));
    }
  }

  lemma DataAbovePools(mm: MM, u: Use)
    requires MMInv(mm) && UseFrame(mm, u).Some?
    ensures POOL_BASE <= UseFrame(mm, u).value < FRAMES
  {
    UsedIsTaken(mm, u);
    PoolsApart(mm, UseFrame(mm, u).value);
  }

  /** m' differs from the memory only inside frame f. */
  ghost predicate OnlyFrame(m: Mem, m': Mem, f: nat) {
    forall g: nat, i: nat | g != f :: Rd(m', g, i) == Rd(m, g, i)
  }

  lemma DataUserPage(mm: MM, m': Mem, u: Use, q: Pid, x: nat)
    requires MMInv(mm) && IsData(mm, u) && UseFrame(mm, u).Some? && OnlyFrame(mm.mem, m', UseFrame(mm, u).value)
    requires q in mm.procs && x < K_BASE
    ensures PageWord(m', DirOf(mm.mem, mm.procs[q]), x) == PageWord(mm.mem, DirOf(mm.mem, mm.procs[q]), x)
  {
    DataFrame(mm, u, q);
    var d := DirOf(mm.mem, mm.procs[q]);
    if Present(Rd(mm.mem, d, x / 1024)) { TableOf(mm, q, x / 1024); }
    hide MMInv;
    PageWordSame(mm.mem, m', d, x);
  }

  lemma DataKernel(mm: MM, m': Mem, u: Use)
    requires MMInv(mm) && UseFrame(mm, u).Some? && OnlyFrame(mm.mem, m', UseFrame(mm, u).value)
    ensures KernelDir(m') && KernelPages(m', mm.kv)
    ensures forall x | K_BASE <= x < WINDOW :: KWord(m', x) == KWord(mm.mem, x)
    ensures forall q | q in mm.procs :: DirOf(m', mm.procs[q]) == DirOf(mm.mem, mm.procs[q])
  {
    DataAbovePools(mm, u);
    forall i: nat ensures Rd(m', K_DIR, i) == Rd(mm.mem, K_DIR, i) {}
    forall x | K_BASE <= x < WINDOW ensures KWord(m', x) == KWord(mm.mem, x) && KWordOk(m', mm.kv, x) {
      assert KTableOf(x) < POOL_BASE;
      assert KWordOk(mm.mem, mm.kv, x);
    }
    forall q | q in mm.procs ensures DirOf(m', mm.procs[q]) == DirOf(mm.mem, mm.procs[q]) {
      assert ProcShape(mm, mm.procs[q]);
      assert KWord(m', mm.procs[q].pgdir / 0x1000) == KWord(mm.mem, mm.procs[q].pgdir / 0x1000);
    }
  }

  lemma DataProcs(mm: MM, m': Mem, u: Use)
    requires MMInv(mm) && IsData(mm, u) && UseFrame(mm, u).Some? && OnlyFrame(mm.mem, m', UseFrame(mm, u).value)
    ensures ProcsOk(mm.(mem := m'))
  {
    DataKernel(mm, m', u);
    DataAbovePools(mm, u);
    var mm' := mm.(mem := m');
    forall q | q in mm'.procs ensures ProcShape(mm', mm'.procs[q]) && DirOk(m', mm'.procs[q]) {
      DirUse(mm, q);
      DataFrame(mm, u, q);
      var d := DirOf(mm.mem, mm.procs[q]);
      assert KWord(m', mm.procs[q].pgdir / 0x1000) == KWord(mm.mem, mm.procs[q].pgdir / 0x1000);
      forall i: nat ensures Rd(m', d, i) == Rd(mm.mem, d, i) && Rd(m', K_DIR, i) == Rd(mm.mem, K_DIR, i) {}
      forall x | 0 <= x < K_BASE ensures (PageFrame(m', d, x).Some? <==> UserBit(mm.procs[q], x)) && Clean(PageWord(m', d, x)) {
        DataUserPage(mm, m', u, q, x);
        assert (PageFrame(mm.mem, d, x).Some? <==> UserBit(mm.procs[q], x)) && Clean(PageWord(mm.mem, d, x));
      }
    }
  }

  /** Theorem: writing into a data page disturbs no mapping of any process. */
  lemma DataWriteKeeps(mm: MM, m': Mem, u: Use)
    requires MMInv(mm) && IsData(mm, u) && UseFrame(mm, u).Some? && OnlyFrame(mm.mem, m', UseFrame(mm, u).value)
    ensures MMInv(mm.(mem := m'))
    ensures forall w :: UseFrame(mm.(mem := m'), w) == UseFrame(mm, w)
  {
    hide ProcsOk, UsesOk, KernelPages, KernelDir;
    var mm' := mm.(mem := m');
    DataKernel(mm, m', u);
    DataProcs(mm, m', u);
    forall w ensures UseFrame(mm', w) == UseFrame(mm, w) { DataUses(mm, m', u, w); }
    SameUses(mm, mm');
  }

  lemma DataUses(mm: MM, m': Mem, u: Use, w: Use)
    requires MMInv(mm) && IsData(mm, u) && UseFrame(mm, u).Some? && OnlyFrame(mm.mem, m', UseFrame(mm, u).value)
    ensures UseFrame(mm.(mem := m'), w) == UseFrame(mm, w)
  {
    hide MMInv;
    DataKernel(mm, m', u);
    match w {
      case KPage(x) =>
        if HEAP_BASE <= x < WINDOW { assert KWord(m', x) == KWord(mm.mem, x); }
      case UTable(q, i) => if q in mm.procs { DataFrame(mm, u, q); }
      case UPage(q, x) => if q in mm.procs && x < K_BASE { DataUserPage(mm, m', u, q, x); }
    }
  }

  lemma SameUses(mm: MM, mm': MM)
    requires UsesOk(mm) && (forall w :: UseFrame(mm', w) == UseFrame(mm, w)) && mm'.kpool == mm.kpool && mm'.upool == mm.upool
    ensures UsesOk(mm')
  {
    hide UseFrame;
    UsesKeep(mm, mm', map[]);
  }
}
