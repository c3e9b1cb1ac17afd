/**
 The virtual memory manager: kernel and user frame pools, a bitmap of virtual pages per
 address space, page directories that share the kernel's page tables, and the operations of
 memory.c and process.c on them.  Each operation is one atomic call.
 */
module VirtualMemory {
  import opened Words
  import opened Bitmap
  import opened Paging

  type Pid = nat

  const K_DIR: nat := 0x100              // frame of the boot page directory
  const K_TAB: nat := 0x101              // frame of the first kernel page table
  const POOL_BASE: nat := 0x200          // first frame of the kernel pool
  const K_BASE: nat := 0xc_0000          // first page of kernel space
  const HEAP_BASE: nat := 0xc_0100       // first page of the kernel heap
  const WINDOW: nat := 0xf_fc00         // first page of the recursive window
  const USER_BASE: nat := 0x8048         // first page of user space
  const USER_PAGES: nat := 0xb_7fb8      // pages from there up to kernel space
  const STACK_PAGE: nat := 0xb_ffff      // the user stack page

  /** Pages base, base + 1, ...: one bit each, then the guard bit. */
  datatype VSpace = VSpace(base: nat, bits: seq<bool>)

  datatype Proc = Proc(pgdir: Word, vs: VSpace)

  datatype MM = MM(mem: Mem, cr3: nat, kpool: Pool, upool: Pool, kv: VSpace,
                   procs: map<Pid, Proc>, cur: Option<Pid>)

  datatype PoolFlag = PfKernel | PfUser

  function PageAddr(n: nat): (v: Word)
    ensures n < FRAMES ==> v / 0x1000 == n && v % 0x1000 == 0 && PdeIdx(v) == n / 1024 && PteIdx(v) == n % 1024
  {
    n % FRAMES * 0x1000
  }

  // ---------- vaddr_get ----------

  function SetRun(bits: seq<bool>, st: nat, cnt: nat): (r: seq<bool>)
    requires st + cnt <= |bits|
    ensures |r| == |bits|
    ensures forall i | 0 <= i < |bits| :: r[i] == (bits[i] || st <= i < st + cnt)
    decreases cnt
  {
    if cnt == 0 then bits else SetRun(bits[st := true], st + 1, cnt - 1)
  }

  /** The first page of a run of cnt, or None when there is no such run. */
  function VaddrGet(vs: VSpace, pf: PoolFlag, cnt: nat): Outcome<(VSpace, Option<nat>)>
    requires |vs.bits| >= 1 && cnt >= 1
  {
    match Scan(vs.bits, cnt)
    case Halted => Stopped(NoSpace)
    case NotFound => Ok((vs, None))
    case Found(st) =>
      if st + cnt > |vs.bits| then Stopped(NoSpace)
      else
        var vs1 := vs.(bits := SetRun(vs.bits, st, cnt));
        if pf == PfUser && (vs.base + st) * 0x1000 >= 0xc000_0000 - 0x1000 then Stopped(BadStart)
        else Ok((vs1, Some(vs.base + st)))
  }

  /** vaddr_get: the first run that fits is marked and its first page answered; nothing fits, a full bitmap
      and, for a process, a run that begins at the stack page or behind it are the other cases, each exact. */
  lemma VaddrGetIs(vs: VSpace, pf: PoolFlag, cnt: nat)
    requires |vs.bits| >= 1 && cnt >= 1
    ensures match VaddrGet(vs, pf, cnt)
      case Stopped(NoSpace) => forall i | 0 <= i < |vs.bits| - 1 :: vs.bits[i]
      case Stopped(why) => why == BadStart && pf == PfUser && exists n: nat :: FirstFit(vs, n, cnt) && n >= STACK_PAGE
      case Ok((vs', None)) => vs' == vs && !HasRun(vs.bits, cnt) && exists i :: 0 <= i < |vs.bits| - 1 && !vs.bits[i]
      case Ok((vs', Some(n))) =>
        && FirstFit(vs, n, cnt) && (pf == PfUser ==> n < STACK_PAGE) && vs'.base == vs.base && |vs'.bits| == |vs.bits|
        && forall i | 0 <= i < |vs.bits| :: vs'.bits[i] == (vs.bits[i] || n <= vs.base + i < n + cnt)
  {
    hide Scan;
    ScanIsFirstFit(vs.bits, cnt);
    if Scan(vs.bits, cnt).Found? { assert FirstFit(vs, vs.base + Scan(vs.bits, cnt).start, cnt); }
  }

  /** Page n begins the first run of cnt free pages. */
  ghost predicate FirstFit(vs: VSpace, n: nat, cnt: nat) {
    && vs.base <= n && FreeRun(vs.bits, n - vs.base, cnt)
    && forall st: nat | st < n - vs.base :: !FreeRun(vs.bits, st, cnt)
  }

  // ---------- malloc_page ----------

  function PoolFor(pf: PoolFlag, kpool: Pool, upool: Pool): Pool {
    if pf == PfKernel then kpool else upool
  }

  /** Take a frame from the pool and map it at page n. */
  function MapPage(m: Mem, dir: nat, kpool: Pool, upool: Pool, pf: PoolFlag, n: nat): Outcome<(Mem, Pool, Pool)>
    requires |kpool.bits| >= 1 && |upool.bits| >= 1
  {
    var (pool, f) :- Palloc(PoolFor(pf, kpool, upool));
    var kpool1 := if pf == PfKernel then pool else kpool;
    var upool1 := if pf == PfKernel then upool else pool;
    var (m1, kpool2) :- PageTableAdd(m, dir, kpool1, PageAddr(n), f);
    Ok((m1, kpool2, upool1))
  }

  /** Two pools after an operation are as large as before and begin where they did. */
  predicate SamePools(kpool: Pool, upool: Pool, r: Outcome<(Mem, Pool, Pool)>) {
    r.Ok? ==>
      && |r.value.1.bits| == |kpool.bits| && |r.value.2.bits| == |upool.bits|
      && r.value.1.start == kpool.start && r.value.2.start == upool.start
  }

  lemma MapPageKeepsSizes(m: Mem, dir: nat, kpool: Pool, upool: Pool, pf: PoolFlag, n: nat)
    requires |kpool.bits| >= 1 && |upool.bits| >= 1
    ensures SamePools(kpool, upool, MapPage(m, dir, kpool, upool, pf, n))
  {
  }

  function MapPages(m: Mem, dir: nat, kpool: Pool, upool: Pool, pf: PoolFlag, n: nat, cnt: nat): Outcome<(Mem, Pool, Pool)>
    requires |kpool.bits| >= 1 && |upool.bits| >= 1
    decreases cnt
  {
    if cnt == 0 then Ok((m, kpool, upool))
    else
      var r := MapPage(m, dir, kpool, upool, pf, n);
      if r.Stopped? then Stopped(r.why)
      else
        var (m1, k1, u1) := r.value;
        MapPageKeepsSizes(m, dir, kpool, upool, pf, n);
        MapPages(m1, dir, k1, u1, pf, n + 1, cnt - 1)
  }

  /** The virtual space an allocation of this kind takes its pages from. */
  function SpaceOf(mm: MM, pf: PoolFlag): Option<VSpace> {
    if pf == PfKernel then Some(mm.kv)
    else if mm.cur.Some? && mm.cur.value in mm.procs then Some(mm.procs[mm.cur.value].vs)
    else None
  }

  function WithSpace(mm: MM, pf: PoolFlag, vs: VSpace): MM {
    if pf == PfKernel then mm.(kv := vs)
    else if mm.cur.Some? && mm.cur.value in mm.procs
    then mm.(procs := mm.procs[mm.cur.value := mm.procs[mm.cur.value].(vs := vs)])
    else mm
  }

  predicate Sized(mm: MM) {
    && |mm.kpool.bits| >= 1 && |mm.upool.bits| >= 1 && |mm.kv.bits| >= 1
    && (forall p | p in mm.procs :: |mm.procs[p].vs.bits| >= 1)
  }

  function MallocPage(mm: MM, pf: PoolFlag, cnt: nat): Outcome<(MM, Option<nat>)>
    requires Sized(mm)
  {
    if !(0 < cnt < 3840) then Stopped(BadCount)
    else if SpaceOf(mm, pf) == None then Stopped(NoSpace)
    else
      var got :- VaddrGet(SpaceOf(mm, pf).value, pf, cnt);
      match got.1
      case None => Ok((mm, None))
      case Some(n) =>
        var (m, kpool, upool) :- MapPages(mm.mem, mm.cr3, mm.kpool, mm.upool, pf, n, cnt);
        Ok((WithSpace(mm, pf, got.0).(mem := m, kpool := kpool, upool := upool), Some(n)))
  }

  /** memset over cnt pages. */
  function ClearPages(m: Mem, dir: nat, n: nat, cnt: nat): Outcome<Mem>
    decreases cnt
  {
    if cnt == 0 then Ok(m)
    else
      var m1 :- ClearPage(m, dir, PageAddr(n));
      ClearPages(m1, dir, n + 1, cnt - 1)
  }

  /** get_kernel_pages and get_user_pages: allocate and clear. */
  function GetPages(mm: MM, pf: PoolFlag, cnt: nat): Outcome<(MM, Option<nat>)>
    requires Sized(mm)
  {
    var got :- MallocPage(mm, pf, cnt);
    match got.1
    case None => Ok(got)
    case Some(n) =>
      var m :- ClearPages(got.0.mem, mm.cr3, n, cnt);
      Ok((got.0.(mem := m), Some(n)))
  }

  /** The bit get_a_page sets for address v, by unsigned 32-bit arithmetic. */
  function PageIndex(vs: VSpace, v: Word): nat {
    (v + U32 - vs.base * 0x1000 % U32) % U32 / 0x1000
  }

  /** Map one page at a given address. */
  function GetAPage(mm: MM, pf: PoolFlag, v: Word): Outcome<MM>
    requires Sized(mm)
  {
    if (pf == PfUser) != mm.cur.Some? || SpaceOf(mm, pf) == None then Stopped(WrongSpace)
    else
      var vs := SpaceOf(mm, pf).value;
      var i := PageIndex(vs, v);
      if i == 0 then Stopped(BadIndex)
      else if i >= |vs.bits| - 1 then Stopped(OutsideBitmap)
      else
        var (m, kpool, upool) :- MapPage(mm.mem, mm.cr3, mm.kpool, mm.upool, pf, v / 0x1000);
        Ok(WithSpace(mm, pf, vs.(bits := vs.bits[i := true])).(mem := m, kpool := kpool, upool := upool))
  }

  // ---------- process.c ----------

  /** Copy directory entries i .. 1023 of frame `from` into frame `to`. */
  function CopyEntries(m: Mem, from: nat, to: nat, i: nat): Mem
    decreases 1024 - i
  {
    if i >= 1024 then m else CopyEntries(Wr(m, to, i, Rd(m, from, i)), from, to, i + 1)
  }

  /** memcpy of the 256 kernel entries of the active directory, as seen through the window. */
  function CopyKernelEntries(m: Mem, dir: nat, v: Word): Outcome<Mem> {
    match (Walk(m, dir, v), Walk(m, dir, PdePtr(0)))
    case (Some(to), Some(from)) => Ok(CopyEntries(m, from / 0x1000, to / 0x1000, 768))
    case _ => Stopped(PageFault)
  }

  /** The directory at v gets the kernel's entries, and its last entry points at itself. */
  function FilledDir(m: Mem, dir: nat, v: Word): Outcome<Mem> {
    var m1 :- CopyKernelEntries(m, dir, v);
    var pa :- AddrV2P(m1, dir, v);
    Store(m1, dir, (v + 1023 * 4) % U32, Entry(pa / 0x1000))
  }

  /** create_page_dir: the page of the new directory, or None. */
  function CreatePageDir(mm: MM): Outcome<(MM, Option<nat>)>
    requires Sized(mm)
  {
    var got :- GetPages(mm, PfKernel, 1);
    match got.1
    case None => Ok(got)
    case Some(n) =>
      var m :- FilledDir(got.0.mem, mm.cr3, PageAddr(n));
      Ok((got.0.(mem := m), Some(n)))
  }

  const BITMAP_PAGES: nat := 23          // of the address bitmap of a process
  const PROCESS_FRAMES: nat := 25        // for its PCB, that bitmap and its directory

  /** The numbers above against the addresses and quotients of the code: user space reaches from 0x8048000
      to 0xc0000000, with one bit for each page in as many whole pages as the bits need. */
  lemma UserSpaceNumbers()
    ensures USER_BASE * 0x1000 == 0x804_8000 && STACK_PAGE * 0x1000 == 0xc000_0000 - 0x1000
    ensures USER_PAGES == (0xc000_0000 - 0x804_8000) / 0x1000 && USER_PAGES % 8 == 0
    ensures (BITMAP_PAGES - 1) * 0x1000 < USER_PAGES / 8 <= BITMAP_PAGES * 0x1000
    ensures PROCESS_FRAMES == 1 + BITMAP_PAGES + 1
  {
  }

  function FreshUserSpace(): VSpace {
    VSpace(USER_BASE, seq(USER_PAGES + 1, _ => false))
  }

  lemma SizesKept(mm: MM, pf: PoolFlag, cnt: nat)
    requires Sized(mm)
    ensures GetPages(mm, pf, cnt).Ok? ==> Sized(GetPages(mm, pf, cnt).value.0)
  {
    hide MapPages, ClearPages;
    var got := MallocPage(mm, pf, cnt);
    if got.Ok? && got.value.1.Some? {
      var vs := SpaceOf(mm, pf).value;
      var n := VaddrGet(vs, pf, cnt).value.1.value;
      MapPagesKeepSizes(mm.mem, mm.cr3, mm.kpool, mm.upool, pf, n, cnt);
    }
  }

  lemma {:induction false} MapPagesKeepSizes(m: Mem, dir: nat, kpool: Pool, upool: Pool, pf: PoolFlag, n: nat, cnt: nat)
    requires |kpool.bits| >= 1 && |upool.bits| >= 1
    ensures SamePools(kpool, upool, MapPages(m, dir, kpool, upool, pf, n, cnt))
    decreases cnt
  {
    hide MapPage;
    if cnt > 0 {
      var r := MapPage(m, dir, kpool, upool, pf, n);
      MapPageKeepsSizes(m, dir, kpool, upool, pf, n);
      if r.Ok? { MapPagesKeepSizes(r.value.0, dir, r.value.1, r.value.2, pf, n + 1, cnt - 1); }
    }
  }

  /** process_execute: a page for the PCB, the pages of the address bitmap, and a directory.
      The code does not survive a missing page, so that case counts as a stop. */
  function ProcessExecute(mm: MM, pid: Pid): Outcome<MM>
    requires Sized(mm)
  {
    var r1 := GetPages(mm, PfKernel, 1);
    if r1.Stopped? then Stopped(r1.why)
    else
      SizesKept(mm, PfKernel, 1);
      var r2 := GetPages(r1.value.0, PfKernel, BITMAP_PAGES);
      if r2.Stopped? then Stopped(r2.why)
      else
        SizesKept(r1.value.0, PfKernel, BITMAP_PAGES);
        var dir :- CreatePageDir(r2.value.0);
        if r1.value.1 == None || r2.value.1 == None || dir.1 == None then Stopped(NoSpace)
        else Ok(dir.0.(procs := dir.0.procs[pid := Proc(PageAddr(dir.1.value), FreshUserSpace())]))
  }

  /** page_dir_activate for the thread that runs next: None is a kernel thread. */
  function Activate(mm: MM, next: Option<Pid>): Outcome<MM> {
    match next
    case None => Ok(mm.(cr3 := K_DIR, cur := None))
    case Some(p) =>
      if p !in mm.procs then Stopped(WrongSpace)
      else
        var pa :- AddrV2P(mm.mem, mm.cr3, mm.procs[p].pgdir);
        Ok(mm.(cr3 := pa / 0x1000, cur := next))
  }
}
