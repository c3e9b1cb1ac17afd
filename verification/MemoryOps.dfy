/**
 Clearing, placing single pages, building directories and switching between them.
 */
module MemoryOps {
  import opened Words
  import opened Bitmap
  import opened Paging
  import opened VirtualMemory
  import opened MemoryInv
  import opened MemorySteps
  import opened MemoryRuns
  import opened MemoryCalls

  // ---------- get_kernel_pages and get_user_pages ----------

  /** The active directory maps page x to the frame its use records. */
  lemma PageWalk(mm: MM, pf: PoolFlag, x: nat)
    requires MMInv(mm) && UseFrame(mm, PageUse(pf, OwnerOf(mm), x)).Some? && (pf == PfUser ==> mm.cur.Some?)
    ensures x < FRAMES
    ensures Walk(mm.mem, mm.cr3, PageAddr(x)) == Some(AddrIn(UseFrame(mm, PageUse(pf, OwnerOf(mm), x)).value, 0))
  {
    WalkByPage(mm.mem, mm.cr3, PageAddr(x));
    if pf == PfKernel {
      ActiveIsDir(mm);
      KernelHalfShared(mm, mm.cr3, PageAddr(x));
    }
  }

  /** Every word of the frame behind page x is zero. */
  ghost predicate Zeroed(mm: MM, u: Use) {
    UseFrame(mm, u).Some? && forall i: nat :: Rd(mm.mem, UseFrame(mm, u).value, i) == 0
  }

  ghost predicate DataRun(mm: MM, pf: PoolFlag, n: nat, cnt: nat) {
    && (pf == PfUser ==> mm.cur.Some?)
    && forall x: nat | n <= x < n + cnt ::
         UseFrame(mm, PageUse(pf, OwnerOf(mm), x)).Some? && IsData(mm, PageUse(pf, OwnerOf(mm), x))
  }

  ghost predicate ClearedTo(mm: MM, m: Mem, pf: PoolFlag, n: nat, cnt: nat) {
    && MMInv(mm.(mem := m))
    && (forall w :: UseFrame(mm.(mem := m), w) == UseFrame(mm, w))
    && (forall x: nat | n <= x < n + cnt :: Zeroed(mm.(mem := m), PageUse(pf, OwnerOf(mm), x)))
    && (forall w :: Zeroed(mm, w) ==> Zeroed(mm.(mem := m), w))
  }

  lemma ClearOne(mm: MM, pf: PoolFlag, n: nat, cnt: nat)
    requires MMInv(mm) && cnt >= 1 && DataRun(mm, pf, n, cnt)
    ensures ClearPage(mm.mem, mm.cr3, PageAddr(n)).Ok?
    ensures var m := ClearPage(mm.mem, mm.cr3, PageAddr(n)).value;
      ClearedTo(mm, m, pf, n, 1) && DataRun(mm.(mem := m), pf, n + 1, cnt - 1)
  {
    hide MMInv, UseFrame;
    var u := PageUse(pf, OwnerOf(mm), n);
    assert UseFrame(mm, u).Some? && IsData(mm, u);
    PageWalk(mm, pf, n);
    var f := UseFrame(mm, u).value;
    var m := Clear(mm.mem, f);
    assert ClearPage(mm.mem, mm.cr3, PageAddr(n)) == Ok(m);
    forall g: nat, i: nat ensures Rd(m, g, i) == if g == f then 0 else Rd(mm.mem, g, i) { RdClear(mm.mem, f, g, i); }
    hide Clear;
    DataWriteKeeps(mm, m, u);
    var mm1 := mm.(mem := m);
    forall x: nat | n + 1 <= x < n + cnt ensures UseFrame(mm1, PageUse(pf, OwnerOf(mm1), x)).Some? && IsData(mm1, PageUse(pf, OwnerOf(mm1), x)) {
      assert UseFrame(mm, PageUse(pf, OwnerOf(mm), x)).Some? && IsData(mm, PageUse(pf, OwnerOf(mm), x));
    }
  }

  lemma ClearedThen(mm: MM, m1: Mem, m: Mem, pf: PoolFlag, n: nat, cnt: nat)
    requires cnt >= 1 && ClearedTo(mm, m1, pf, n, 1) && ClearedTo(mm.(mem := m1), m, pf, n + 1, cnt - 1)
    ensures ClearedTo(mm, m, pf, n, cnt)
  {
    hide MMInv, UseFrame, Zeroed;
    var mm1, mm2 := mm.(mem := m1), mm.(mem := m);
    assert mm1.(mem := m) == mm2;
    forall x: nat | n <= x < n + cnt ensures Zeroed(mm2, PageUse(pf, OwnerOf(mm), x)) {
      if x == n { assert Zeroed(mm1, PageUse(pf, OwnerOf(mm), x)); } else { assert Zeroed(mm1.(mem := m), PageUse(pf, OwnerOf(mm1), x)); }
    }
  }

  lemma {:induction false} ClearRun(mm: MM, pf: PoolFlag, n: nat, cnt: nat)
    requires MMInv(mm) && DataRun(mm, pf, n, cnt)
    ensures ClearPages(mm.mem, mm.cr3, n, cnt).Ok? && ClearedTo(mm, ClearPages(mm.mem, mm.cr3, n, cnt).value, pf, n, cnt)
    decreases cnt
  {
    hide MMInv, DataRun, ClearPage, UseFrame, Zeroed;
    if cnt == 0 {
      assert mm.(mem := mm.mem) == mm;
    } else {
      ClearOne(mm, pf, n, cnt);
      var m1 := ClearPage(mm.mem, mm.cr3, PageAddr(n)).value;
      ClearedInv(mm, m1, pf, n, 1);
      ClearRun(mm.(mem := m1), pf, n + 1, cnt - 1);
      ClearedThen(mm, m1, ClearPages(m1, mm.cr3, n + 1, cnt - 1).value, pf, n, cnt);
    }
  }

  lemma ClearedInv(mm: MM, m: Mem, pf: PoolFlag, n: nat, cnt: nat)
    requires ClearedTo(mm, m, pf, n, cnt)
    ensures MMInv(mm.(mem := m))
  {
  }

  /** The pages an allocation brought in are data pages. */
  lemma AllocatedIsData(mm: MM, mm': MM, pf: PoolFlag, n: nat, cnt: nat)
    requires MMInv(mm) && Allocated(mm, mm', pf, n, cnt) && (pf == PfUser ==> mm.cur.Some?)
    ensures DataRun(mm', pf, n, cnt)
  {
    forall x: nat | n <= x < n + cnt
      ensures UseFrame(mm', PageUse(pf, OwnerOf(mm'), x)).Some? && IsData(mm', PageUse(pf, OwnerOf(mm'), x))
    {
      assert UseFrame(mm, PageUse(pf, OwnerOf(mm), x)) == None;
      if pf == PfKernel {
        forall p | p in mm'.procs ensures mm'.procs[p].pgdir / 0x1000 != x { DirUse(mm, p); }
      }
    }
  }

  lemma AllocatedSame(mm: MM, mm1: MM, m: Mem, pf: PoolFlag, n: nat, cnt: nat)
    requires Allocated(mm, mm1, pf, n, cnt) && forall w :: UseFrame(mm1.(mem := m), w) == UseFrame(mm1, w)
    ensures Allocated(mm, mm1.(mem := m), pf, n, cnt)
  {
    hide UseFrame;
  }

  /** What get_kernel_pages and get_user_pages promise. */
  ghost predicate GotPages(mm: MM, mm': MM, pf: PoolFlag, n: nat, cnt: nat) {
    && MMInv(mm') && Allocated(mm, mm', pf, n, cnt)
    && (forall x: nat | n <= x < n + cnt :: Zeroed(mm', PageUse(pf, OwnerOf(mm), x)))
  }

  /** Theorem: the pages returned are fresh, contiguous and zero, and the call stops, or answers null,
      exactly on the conditions MallocAnswer names. */
  lemma GetPagesKeeps(mm: MM, pf: PoolFlag, cnt: nat)
    requires MMInv(mm) && (pf == PfUser ==> StackTaken(mm))
    ensures Sized(mm)
    ensures var r := GetPages(mm, pf, cnt);
      && (r.Stopped? ==> r.why in {BadCount, NoSpace, PoolFull}) && MallocAnswer(mm, pf, cnt, Answer(r))
      && (r.Ok? && r.value.1 == None ==> r.value.0 == mm)
      && (r.Ok? && r.value.1.Some? ==> GotPages(mm, r.value.0, pf, r.value.1.value, cnt))
  {
    hide MMInv, MallocPage, Allocated, ClearPages, DataRun, UseFrame, Zeroed, Scan, TooFew, FoundAt, SpaceScan;
    InvSized(mm);
    if pf == PfKernel { MallocKernel(mm, cnt); } else { MallocUser(mm, cnt); }
    var got := MallocPage(mm, pf, cnt);
    if got.Ok? && got.value.1.Some? {
      var mm1, n := got.value.0, got.value.1.value;
      AllocatedIsData(mm, mm1, pf, n, cnt);
      AllocatedCr3(mm, mm1, pf, n, cnt);
      ClearRun(mm1, pf, n, cnt);
      var m := ClearPages(mm1.mem, mm1.cr3, n, cnt).value;
      AllocatedSame(mm, mm1, m, pf, n, cnt);
      assert OwnerOf(mm1) == OwnerOf(mm);
      assert GetPages(mm, pf, cnt) == Ok((mm1.(mem := m), Some(n)));
      assert GotPages(mm, mm1.(mem := m), pf, n, cnt);
    }
  }

  lemma AllocatedCr3(mm: MM, mm': MM, pf: PoolFlag, n: nat, cnt: nat)
    requires Allocated(mm, mm', pf, n, cnt)
    ensures mm'.cr3 == mm.cr3 && mm'.cur == mm.cur && mm'.procs.Keys == mm.procs.Keys
    ensures pf == PfKernel ==> mm'.procs == mm.procs && HEAP_BASE <= n && n + cnt <= WINDOW
  {
  }

  // ---------- get_a_page ----------

  lemma KernelIndex(v: Word, size: nat)
    requires HEAP_BASE + size <= WINDOW
    ensures var i := (v + U32 - HEAP_BASE * 0x1000 % U32) % U32 / 0x1000; i < size ==> v / 0x1000 == HEAP_BASE + i
  {
  }

  lemma UserIndex(v: Word)
    ensures var i := (v + U32 - USER_BASE * 0x1000 % U32) % U32 / 0x1000; i < USER_PAGES ==> v / 0x1000 == USER_BASE + i
  {
  }

  lemma KernelRepeat(mm: MM, n: nat)
    requires MMInv(mm) && HEAP_BASE <= n < WINDOW && Present(KWord(mm.mem, n))
    ensures PoolsOk(mm)
    ensures MapPage(mm.mem, mm.cr3, mm.kpool, mm.upool, PfKernel, n) == Stopped(if Free(mm.kpool) > 0 then PteRepeat else PoolFull)
  {
    ActiveIsDir(mm);
    DirFacts(mm, mm.cr3);
    PallocEffect(mm.kpool);
    KernelPageOf(mm.mem, mm.cr3, n);
    hide MMInv;
    if Palloc(mm.kpool).Ok? {
      AddToTable(mm.mem, mm.cr3, Palloc(mm.kpool).value.0, PageAddr(n), Palloc(mm.kpool).value.1);
    }
  }

  lemma UserRepeat(mm: MM, p: Pid, n: nat)
    requires MMInv(mm) && mm.cur == Some(p) && USER_BASE <= n < K_BASE && UserBit(mm.procs[p], n)
    ensures PoolsOk(mm)
    ensures MapPage(mm.mem, mm.cr3, mm.kpool, mm.upool, PfUser, n) == Stopped(if Free(mm.upool) > 0 then PteRepeat else PoolFull)
  {
    DirUse(mm, p);
    ActiveIsDir(mm);
    DirFacts(mm, mm.cr3);
    PallocEffect(mm.upool);
    var d := DirOf(mm.mem, mm.procs[p]);
    assert PageFrame(mm.mem, d, n).Some?;
    hide MMInv, DirOk;
    if Palloc(mm.upool).Ok? {
      AddToTable(mm.mem, mm.cr3, mm.kpool, PageAddr(n), Palloc(mm.upool).value.1);
    }
  }

  /** The page get_a_page names already belongs to the caller's space. */
  predicate PageInUse(mm: MM, pf: PoolFlag, n: nat) {
    match SpaceOf(mm, pf)
    case None => false
    case Some(vs) => vs.base <= n && n - vs.base < |vs.bits| && vs.bits[n - vs.base]
  }

  /** What get_a_page did: one page, one frame of the pool asked for, and for a process one kernel frame
      if the region had no table. */
  ghost predicate Placed(mm: MM, mm': MM, pf: PoolFlag, n: nat) {
    && MMInv(mm') && Mapped(mm, mm', pf, OwnerOf(mm), n, 1)
    && Free(PoolFor(pf, mm.kpool, mm.upool)) == Free(PoolFor(pf, mm'.kpool, mm'.upool)) + 1
    && (pf == PfKernel ==> mm'.upool == mm.upool)
    && (pf == PfUser ==> Free(mm.kpool) == Free(mm'.kpool) + NewTables(mm, OwnerOf(mm), n, 1))
  }

  /** get_a_page is called for the space the caller is in. */
  predicate RightSpace(mm: MM, pf: PoolFlag) { (pf == PfUser) == mm.cur.Some? && SpaceOf(mm, pf).Some? }

  /** The bit for the address lies in the caller's bitmap. */
  predicate InBitmap(mm: MM, pf: PoolFlag, v: Word) {
    SpaceOf(mm, pf).Some? && PageIndex(SpaceOf(mm, pf).value, v) < |SpaceOf(mm, pf).value.bits| - 1
  }

  /** The call passes the checks on its arguments. */
  predicate GoodPlace(mm: MM, pf: PoolFlag, v: Word) {
    RightSpace(mm, pf) && PageIndex(SpaceOf(mm, pf).value, v) != 0 && InBitmap(mm, pf, v)
  }

  /** Why get_a_page stops, and exactly on what; the cases exclude each other and MayPlace. */
  predicate PlaceStop(mm: MM, pf: PoolFlag, v: Word, why: Stop) {
    match why
    case WrongSpace => !RightSpace(mm, pf)
    case BadIndex => RightSpace(mm, pf) && PageIndex(SpaceOf(mm, pf).value, v) == 0
    case OutsideBitmap => RightSpace(mm, pf) && PageIndex(SpaceOf(mm, pf).value, v) != 0 && !InBitmap(mm, pf, v)
    case PteRepeat => GoodPlace(mm, pf, v) && Free(PoolFor(pf, mm.kpool, mm.upool)) > 0 && PageInUse(mm, pf, v / 0x1000)
    case PoolFull =>
      GoodPlace(mm, pf, v) && (Free(PoolFor(pf, mm.kpool, mm.upool)) == 0 || (!PageInUse(mm, pf, v / 0x1000) && TooFew(mm, pf, v / 0x1000, 1)))
    case _ => false
  }

  /** When get_a_page maps the page. */
  predicate MayPlace(mm: MM, pf: PoolFlag, v: Word) {
    GoodPlace(mm, pf, v) && !PageInUse(mm, pf, v / 0x1000) && !TooFew(mm, pf, v / 0x1000, 1)
  }

  lemma GetAPageKernel(mm: MM, v: Word)
    requires MMInv(mm)
    ensures Sized(mm)
    ensures var r := GetAPage(mm, PfKernel, v);
      && (r.Ok? ==> MayPlace(mm, PfKernel, v) && Placed(mm, r.value, PfKernel, v / 0x1000))
      && (r.Stopped? ==> PlaceStop(mm, PfKernel, v, r.why))
  {
    hide MMInv, MapPage, Mapped, UseFrame, Free, NewTables;
    InvSized(mm);
    InvPools(mm);
    KernelIndex(v, |mm.kv.bits| - 1);
    var i := (v + U32 - HEAP_BASE * 0x1000 % U32) % U32 / 0x1000;
    var n := v / 0x1000;
    if 0 < i < |mm.kv.bits| - 1 && mm.cur == None {
      KernelBit(mm, n);
      if mm.kv.bits[i] {
        KernelRepeat(mm, n);
      } else {
        MapKernelFirst(mm, n, 1);
        var r := MapPage(mm.mem, mm.cr3, mm.kpool, mm.upool, PfKernel, n);
        if r.Ok? {
          assert SetRun(mm.kv.bits, i, 1) == mm.kv.bits[i := true];
          assert GetAPage(mm, PfKernel, v).value == KernelRun(mm, r.value.0, r.value.1, n, 1);
          MappedAnyOwner(mm, GetAPage(mm, PfKernel, v).value, n, 1);
        }
      }
    }
  }

  /** In the heap a page is mapped exactly when its bit is set. */
  lemma KernelBit(mm: MM, n: nat)
    requires MMInv(mm) && HEAP_BASE <= n && n - HEAP_BASE < |mm.kv.bits| - 1
    ensures Present(KWord(mm.mem, n)) <==> mm.kv.bits[n - HEAP_BASE]
    ensures KernelFree(mm.mem, n, 1) <==> !mm.kv.bits[n - HEAP_BASE]
    ensures n < WINDOW
  {
    assert KWordOk(mm.mem, mm.kv, n);
    hide ProcsOk, UsesOk, KernelDir, Cr3Ok;
  }

  lemma GetAPageUser(mm: MM, v: Word)
    requires MMInv(mm)
    ensures Sized(mm)
    ensures var r := GetAPage(mm, PfUser, v);
      && (r.Ok? ==> MayPlace(mm, PfUser, v) && Placed(mm, r.value, PfUser, v / 0x1000))
      && (r.Stopped? ==> PlaceStop(mm, PfUser, v, r.why))
  {
    hide MMInv, MapPage, Mapped, UseFrame, Free, NewTables;
    InvSized(mm);
    InvPools(mm);
    UserIndex(v);
    var n := v / 0x1000;
    if mm.cur.Some? && mm.cur.value in mm.procs {
      var p := mm.cur.value;
      UserShape(mm, p);
      var bits := mm.procs[p].vs.bits;
      var i := (v + U32 - USER_BASE * 0x1000 % U32) % U32 / 0x1000;
      if 0 < i < |bits| - 1 {
        if bits[i] {
          UserRepeat(mm, p, n);
        } else {
          assert UserFree(mm, p, n, 1);
          MapUserFirst(mm, p, n, 1);
          var r := MapPage(mm.mem, mm.cr3, mm.kpool, mm.upool, PfUser, n);
          if r.Ok? {
            assert SetRun(bits, i, 1) == bits[i := true];
            assert GetAPage(mm, PfUser, v).value == UserRun(mm, r.value.0, r.value.1, r.value.2, p, n, 1);
          }
        }
      }
    }
  }

  // ---------- create_page_dir ----------

  lemma {:induction false} CopyEntriesRd(m: Mem, from: nat, to: nat, i: nat, g: nat, j: nat)
    requires from != to && i <= 1024
    ensures Rd(CopyEntries(m, from, to, i), g, j) == if g == to && i <= j < 1024 then Rd(m, from, j) else Rd(m, g, j)
    decreases 1024 - i
  {
    if i < 1024 {
      CopyEntriesRd(Wr(m, to, i, Rd(m, from, i)), from, to, i + 1, g, j);
    }
  }

  /** A directory as create_page_dir leaves it in frame d. */
  ghost predicate NewDir(m: Mem, d: nat) {
    && (forall i: nat | i < 768 :: Rd(m, d, i) == 0)
    && (forall i: nat | 768 <= i < 1023 :: Rd(m, d, i) == Entry(K_TAB + i - 768))
    && Rd(m, d, 1023) == Entry(d)
  }

  /** The frame of a freshly mapped kernel page is not the active directory's. */
  lemma NotActive(mm: MM, n: nat)
    requires MMInv(mm) && UseFrame(mm, KPage(n)).Some? && IsData(mm, KPage(n))
    ensures UseFrame(mm, KPage(n)).value != mm.cr3
  {
    DataAbovePools(mm, KPage(n));
    if mm.cur.Some? { DataFrame(mm, KPage(n), mm.cur.value); }
  }

  /** Copying the kernel entries and setting the last one, seen from the frames. */
  lemma FillDir(mm: MM, n: nat)
    requires MMInv(mm) && HEAP_BASE <= n < WINDOW && Zeroed(mm, KPage(n)) && IsData(mm, KPage(n))
    ensures var d := UseFrame(mm, KPage(n)).value;
      && CopyKernelEntries(mm.mem, mm.cr3, PageAddr(n)).Ok?
      && var m1 := CopyKernelEntries(mm.mem, mm.cr3, PageAddr(n)).value;
         && AddrV2P(m1, mm.cr3, PageAddr(n)) == Ok(AddrIn(d, 0))
         && Store(m1, mm.cr3, (PageAddr(n) + 1023 * 4) % U32, Entry(d)) == Ok(Wr(m1, d, 1023, Entry(d)))
         && OnlyFrame(mm.mem, Wr(m1, d, 1023, Entry(d)), d)
         && NewDir(Wr(m1, d, 1023, Entry(d)), d)
  {
    hide MMInv, CopyEntries;
    var d := UseFrame(mm, KPage(n)).value;
    NotActive(mm, n);
    DataAbovePools(mm, KPage(n));
    ActiveIsDir(mm);
    DirFacts(mm, mm.cr3);
    PageWalk(mm, PfKernel, n);
    SelfMapCorrect(mm.mem, mm.cr3, 0);
    var m1 := CopyEntries(mm.mem, mm.cr3, d, 768);
    assert CopyKernelEntries(mm.mem, mm.cr3, PageAddr(n)) == Ok(m1);
    forall g: nat, j: nat ensures Rd(m1, g, j) == if g == d && 768 <= j < 1024 then Rd(mm.mem, mm.cr3, j) else Rd(mm.mem, g, j) {
      CopyEntriesRd(mm.mem, mm.cr3, d, 768, g, j);
    }
    DataWriteKeeps(mm, m1, KPage(n));
    var mm1 := mm.(mem := m1);
    KernelFrame(mm1, n);
    WalkByPage(m1, mm.cr3, PageAddr(n));
    DirFacts(mm1, mm1.cr3) by { ActiveIsDir(mm1); }
    AddrV2PCorrect(m1, mm.cr3, PageAddr(n));
    LastAddr(n);
    FillLast(mm1, n, (PageAddr(n) + 1023 * 4) % U32, Entry(d));
    hide Store, AddrV2P, PageAddr;
    var m2 := Wr(m1, d, 1023, Entry(d));
    forall g: nat, j: nat ensures Rd(m2, g, j) == if g == d && j == 1023 then Entry(d) else Rd(m1, g, j) {
      RdWr(m1, d, 1023, Entry(d), g, j);
    }
  }

  /** The active directory maps kernel page n to the frame its use records. */
  lemma KernelFrame(mm: MM, n: nat)
    requires MMInv(mm) && UseFrame(mm, KPage(n)).Some?
    ensures PageFrame(mm.mem, mm.cr3, n) == UseFrame(mm, KPage(n))
  {
    hide MMInv;
    ActiveIsDir(mm);
    DirFacts(mm, mm.cr3);
    KernelPageOf(mm.mem, mm.cr3, n);
  }

  lemma LastAddr(n: nat)
    requires n < FRAMES
    ensures var v := (PageAddr(n) + 1023 * 4) % U32; v / 0x1000 == n && Offset(v) == 4092
  {
  }

  /** The last word of the page. */
  lemma FillLast(mm: MM, n: nat, v: Word, w: Word)
    requires MMInv(mm) && UseFrame(mm, KPage(n)).Some? && v / 0x1000 == n && Offset(v) == 4092
    ensures Store(mm.mem, mm.cr3, v, w) == Ok(Wr(mm.mem, UseFrame(mm, KPage(n)).value, 1023, w))
  {
    hide MMInv, UseFrame, Walk, PageFrame;
    KernelFrame(mm, n);
    WalkByPage(mm.mem, mm.cr3, v);
  }

  lemma GotData(mm: MM, mm': MM, pf: PoolFlag, n: nat, cnt: nat)
    requires MMInv(mm) && GotPages(mm, mm', pf, n, cnt) && (pf == PfUser ==> mm.cur.Some?)
    ensures MMInv(mm') && DataRun(mm', pf, n, cnt) && mm'.cr3 == mm.cr3 && mm'.cur == mm.cur && mm'.procs.Keys == mm.procs.Keys
    ensures pf == PfKernel ==> mm'.procs == mm.procs && HEAP_BASE <= n && n + cnt <= WINDOW
  {
    hide MMInv;
    AllocatedIsData(mm, mm', pf, n, cnt);
  }

  /** What create_page_dir promises about page n. */
  ghost predicate MadeDir(mm: MM, mm': MM, n: nat) {
    && MMInv(mm') && Allocated(mm, mm', PfKernel, n, 1)
    && UseFrame(mm', KPage(n)).Some? && NewDir(mm'.mem, UseFrame(mm', KPage(n)).value) && IsData(mm', KPage(n))
  }

  lemma CreatePageDirKeeps(mm: MM)
    requires MMInv(mm)
    ensures Sized(mm)
    ensures var r := CreatePageDir(mm);
      && (r.Stopped? ==> r.why in {BadCount, NoSpace, PoolFull})
      && (r.Ok? && r.value.1 == None ==> r.value.0 == mm)
      && (r.Ok? && r.value.1.Some? ==> MadeDir(mm, r.value.0, r.value.1.value))
  {
    hide MMInv, GetPages, GotPages, Allocated, UseFrame, Zeroed, NewDir, OnlyFrame;
    GetPagesKeeps(mm, PfKernel, 1);
    var got := GetPages(mm, PfKernel, 1);
    if got.Ok? && got.value.1.Some? {
      var mm1, n := got.value.0, got.value.1.value;
      GotData(mm, mm1, PfKernel, n, 1);
      GotZero(mm, mm1, n);
      var d := UseFrame(mm1, KPage(n)).value;
      FillDir(mm1, n);
      var m1 := CopyKernelEntries(mm1.mem, mm1.cr3, PageAddr(n)).value;
      var m2 := Wr(m1, d, 1023, Entry(d));
      FrameSmall(mm1, KPage(n));
      assert CreatePageDir(mm) == Ok((mm1.(mem := m2), Some(n)));
      DataWriteKeeps(mm1, m2, KPage(n));
      AllocatedSame(mm, mm1, m2, PfKernel, n, 1);
      assert IsData(mm1.(mem := m2), KPage(n));
    }
  }

  lemma FrameSmall(mm: MM, u: Use)
    requires MMInv(mm) && UseFrame(mm, u).Some?
    ensures UseFrame(mm, u).value < FRAMES && AddrIn(UseFrame(mm, u).value, 0) / 0x1000 == UseFrame(mm, u).value
  {
    hide MMInv;
    DataAbovePools(mm, u);
  }

  lemma GotZero(mm: MM, mm': MM, n: nat)
    requires MMInv(mm) && GotPages(mm, mm', PfKernel, n, 1)
    ensures Zeroed(mm', KPage(n)) && IsData(mm', KPage(n)) && UseFrame(mm', KPage(n)).Some? && Allocated(mm, mm', PfKernel, n, 1)
  {
    hide MMInv, UseFrame;
    GotData(mm, mm', PfKernel, n, 1);
    assert PageUse(PfKernel, OwnerOf(mm), n) == KPage(n);
    assert PageUse(PfKernel, OwnerOf(mm'), n) == KPage(n);
    assert Zeroed(mm', PageUse(PfKernel, OwnerOf(mm), n));
  }

  // ---------- process_execute ----------

  function WithProc(mm: MM, pid: Pid, n: nat): MM {
    mm.(procs := mm.procs[pid := Proc(PageAddr(n), FreshUserSpace())])
  }

  /** A directory page made ready can become the directory of a new process. */
  lemma NewProcKeeps(mm: MM, pid: Pid, n: nat)
    requires MMInv(mm) && pid !in mm.procs && HEAP_BASE <= n < WINDOW
    requires UseFrame(mm, KPage(n)).Some? && NewDir(mm.mem, UseFrame(mm, KPage(n)).value) && IsData(mm, KPage(n))
    ensures MMInv(WithProc(mm, pid, n))
    ensures forall u :: UseFrame(WithProc(mm, pid, n), u) == UseFrame(mm, u)
  {
    hide UsesOk, KernelPages, KernelDir, DirOk, ProcShape, NewDir, FreshUserSpace, UseFrame;
    var mm' := WithProc(mm, pid, n);
    forall u ensures UseFrame(mm', u) == UseFrame(mm, u) { NewProcUse(mm, pid, n, u); }
    SameUses(mm, mm');
    NewProcProcs(mm, pid, n);
    hide ProcsOk;
  }

  /** The directory of the new process is the page, and maps no user page. */
  lemma NewProcDir(mm: MM, pid: Pid, n: nat)
    requires MMInv(mm) && HEAP_BASE <= n < WINDOW && UseFrame(mm, KPage(n)).Some? && NewDir(mm.mem, UseFrame(mm, KPage(n)).value)
    ensures var pr := WithProc(mm, pid, n).procs[pid]; var d := UseFrame(mm, KPage(n)).value;
      && pr.pgdir / 0x1000 == n && DirOf(mm.mem, pr) == d && DirOk(mm.mem, pr)
      && (forall x: nat | x < K_BASE :: PageWord(mm.mem, d, x) == 0)
      && (forall i: nat | i < 768 :: Rd(mm.mem, d, i) == 0)
  {
    hide UsesOk, KernelPages, ProcsOk, DirOk;
    var pr := WithProc(mm, pid, n).procs[pid];
    assert pr.pgdir / 0x1000 == n && DirOf(mm.mem, pr) == UseFrame(mm, KPage(n)).value;
    NewDirOk(mm, pr, UseFrame(mm, KPage(n)).value);
  }

  lemma NewProcProcs(mm: MM, pid: Pid, n: nat)
    requires MMInv(mm) && pid !in mm.procs && HEAP_BASE <= n < WINDOW
    requires UseFrame(mm, KPage(n)).Some? && NewDir(mm.mem, UseFrame(mm, KPage(n)).value) && IsData(mm, KPage(n))
    ensures ProcsOk(WithProc(mm, pid, n))
  {
    hide UsesOk, KernelPages, KernelDir, DirOk, NewDir;
    NewProcDir(mm, pid, n);
    var mm' := WithProc(mm, pid, n);
    forall q | q in mm'.procs ensures ProcShape(mm', mm'.procs[q]) && DirOk(mm'.mem, mm'.procs[q]) {
      if q != pid { assert ProcShape(mm, mm.procs[q]) && DirOk(mm.mem, mm.procs[q]); }
    }
    forall q | q in mm.procs ensures mm.procs[q].pgdir != mm'.procs[pid].pgdir { assert mm.procs[q].pgdir / 0x1000 != n; }
  }

  lemma NewProcUse(mm: MM, pid: Pid, n: nat, u: Use)
    requires MMInv(mm) && pid !in mm.procs && HEAP_BASE <= n < WINDOW
    requires UseFrame(mm, KPage(n)).Some? && NewDir(mm.mem, UseFrame(mm, KPage(n)).value)
    ensures UseFrame(WithProc(mm, pid, n), u) == UseFrame(mm, u)
  {
    NewProcDir(mm, pid, n);
    hide MMInv, DirOk, NewDir;
    var d := UseFrame(mm, KPage(n)).value;
    if u.UPage? && u.p == pid && u.n < K_BASE { assert PageWord(mm.mem, d, u.n) == 0; }
    if u.UTable? && u.p == pid && u.i < 768 { assert Rd(mm.mem, d, u.i) == 0; }
  }

  lemma NewDirOk(mm: MM, pr: Proc, d: nat)
    requires MMInv(mm) && DirOf(mm.mem, pr) == d && NewDir(mm.mem, d) && pr.vs == FreshUserSpace()
    ensures DirOk(mm.mem, pr)
    ensures forall x: nat | x < K_BASE :: PageWord(mm.mem, d, x) == 0
  {
    hide ProcsOk, UsesOk, KernelPages, Cr3Ok;
    forall x: nat | x < K_BASE ensures PageWord(mm.mem, d, x) == 0 && !UserBit(pr, x) {
      assert Rd(mm.mem, d, x / 1024) == 0;
    }
    forall i | 768 <= i < 1023 ensures Rd(mm.mem, d, i) == Rd(mm.mem, K_DIR, i) {}
  }

  /** Theorem: process_execute keeps the invariant and every existing mapping, and takes exactly 25 kernel
      frames. */
  lemma ProcessExecuteKeeps(mm: MM, pid: Pid)
    requires MMInv(mm) && pid !in mm.procs
    ensures Sized(mm)
    ensures var r := ProcessExecute(mm, pid);
      && (r.Stopped? ==> r.why in {BadCount, NoSpace, PoolFull})
      && (r.Ok? ==> MMInv(r.value) && r.value.procs.Keys == mm.procs.Keys + {pid} && r.value.cur == mm.cur)
      && (r.Ok? ==> GrewKernel(mm, r.value) && TookFrames(mm, r.value, 25))
  {
    hide MMInv, GetPages, CreatePageDir, ProcessExecute, UseFrame, GotPages, MadeDir, WithProc, GrewKernel, Free;
    GetPagesKeeps(mm, PfKernel, 1);
    ExecuteShape(mm, pid);
    var r1 := GetPages(mm, PfKernel, 1);
    if r1.Ok? {
      Got(mm, r1, 1);
      var mm1 := r1.value.0;
      GetPagesKeeps(mm1, PfKernel, BITMAP_PAGES);
      var r2 := GetPages(mm1, PfKernel, BITMAP_PAGES);
      if r2.Ok? {
        Got(mm1, r2, BITMAP_PAGES);
        var mm2 := r2.value.0;
        CreatePageDirKeeps(mm2);
        var r3 := CreatePageDir(mm2);
        if r3.Ok? && r3.value.1.Some? {
          Made(mm2, r3.value.0, r3.value.1.value, pid);
          GrewTwice(mm, mm1, mm2);
          GrewTwice(mm, mm2, WithProc(r3.value.0, pid, r3.value.1.value));
        }
      }
    }
  }

  lemma Got(mm: MM, r: Outcome<(MM, Option<nat>)>, cnt: nat)
    requires MMInv(mm) && r.Ok? && (r.value.1 == None ==> r.value.0 == mm) && (r.value.1.Some? ==> GotPages(mm, r.value.0, PfKernel, r.value.1.value, cnt))
    ensures MMInv(r.value.0) && r.value.0.procs == mm.procs && r.value.0.cur == mm.cur
    ensures GrewKernel(mm, r.value.0) && (r.value.1.Some? ==> TookFrames(mm, r.value.0, cnt))
  {
    hide UseFrame, MMInv;
  }

  /** So many kernel frames fewer are free, and no user frame. */
  predicate TookFrames(mm: MM, mm': MM, n: nat) { Free(mm.kpool) == Free(mm'.kpool) + n && mm'.upool == mm.upool }

  /** Old mappings stay, and what is new are kernel pages. */
  ghost predicate GrewKernel(mm: MM, mm': MM) {
    && (forall u :: UseFrame(mm, u).Some? ==> UseFrame(mm', u) == UseFrame(mm, u))
    && (forall u :: UseFrame(mm', u).Some? && UseFrame(mm, u) == None ==> u.KPage?)
    && (forall p | p in mm.procs :: p in mm'.procs && mm'.procs[p] == mm.procs[p])
  }

  lemma GrewTwice(mm: MM, mm1: MM, mm': MM)
    requires GrewKernel(mm, mm1) && GrewKernel(mm1, mm')
    ensures GrewKernel(mm, mm')
  {
    hide UseFrame;
  }

  lemma Made(mm: MM, mm': MM, n: nat, pid: Pid)
    requires MMInv(mm) && MadeDir(mm, mm', n) && pid !in mm.procs
    ensures var mm2 := WithProc(mm', pid, n);
      MMInv(mm2) && mm2.procs.Keys == mm.procs.Keys + {pid} && mm2.cur == mm.cur && GrewKernel(mm, mm2) && TookFrames(mm, mm2, 1)
  {
    hide UseFrame, MMInv, NewDir;
    NewProcKeeps(mm', pid, n);
  }

  /** process_execute in terms of the calls it makes. */
  lemma ExecuteShape(mm: MM, pid: Pid)
    requires Sized(mm)
    ensures var r1 := GetPages(mm, PfKernel, 1);
      if r1.Stopped? then ProcessExecute(mm, pid) == Stopped(r1.why)
      else Sized(r1.value.0) && var r2 := GetPages(r1.value.0, PfKernel, BITMAP_PAGES);
        if r2.Stopped? then ProcessExecute(mm, pid) == Stopped(r2.why)
        else Sized(r2.value.0) && var r3 := CreatePageDir(r2.value.0);
          ProcessExecute(mm, pid) ==
            if r3.Stopped? then Stopped(r3.why)
            else if r1.value.1 == None || r2.value.1 == None || r3.value.1 == None then Stopped(NoSpace)
            else Ok(WithProc(r3.value.0, pid, r3.value.1.value))
  {
    hide GetPages, CreatePageDir;
    SizesKept(mm, PfKernel, 1);
    if GetPages(mm, PfKernel, 1).Ok? { SizesKept(GetPages(mm, PfKernel, 1).value.0, PfKernel, BITMAP_PAGES); }
  }

  // ---------- page_dir_activate ----------

  /** Whichever directory is active, addr_v2p finds the frame of p's directory. */
  lemma ActivateTo(mm: MM, p: Pid)
    requires MMInv(mm) && p in mm.procs
    ensures AddrV2P(mm.mem, mm.cr3, mm.procs[p].pgdir) == Ok(AddrIn(DirOf(mm.mem, mm.procs[p]), 0))
  {
    hide UsesOk, KernelPages, KernelDir, DirOk, AddrV2P, Walk;
    DirUse(mm, p);
    ActiveIsDir(mm);
    DirFacts(mm, mm.cr3);
    var v := mm.procs[p].pgdir;
    KernelHalfShared(mm, mm.cr3, v);
    AddrV2PCorrect(mm.mem, mm.cr3, v);
  }

  /** Theorem: whichever directory is active, activating a thread loads CR3 with that thread's own
      directory, the boot directory for a kernel thread. */
  lemma ActivateKeeps(mm: MM, next: Option<Pid>)
    requires MMInv(mm) && (next.Some? ==> next.value in mm.procs)
    ensures Activate(mm, next).Ok?
    ensures var mm' := Activate(mm, next).value;
      && MMInv(mm') && mm'.cur == next && mm'.mem == mm.mem && mm'.procs == mm.procs
      && mm'.cr3 == (match next case None => K_DIR case Some(p) => DirOf(mm.mem, mm.procs[p]))
      && (forall u :: UseFrame(mm', u) == UseFrame(mm, u))
  {
    hide UsesOk, KernelPages, KernelDir, DirOk, AddrV2P;
    if next.Some? { ActivateTo(mm, next.value); }
    var mm' := Activate(mm, next).value;
    assert UsesOk(mm') by { SameUses(mm, mm'); }
    assert ProcsOk(mm') by {
      forall q | q in mm'.procs ensures ProcShape(mm', mm'.procs[q]) && DirOk(mm'.mem, mm'.procs[q]) {
        assert ProcShape(mm, mm.procs[q]) && DirOk(mm.mem, mm.procs[q]);
      }
    }
  }
}
