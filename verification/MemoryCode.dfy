/**
 The memory manager as code: bitmaps are arrays of bytes that scans and single-bit writes change
 in place, page-table words and PCB fields are assigned one by one.  Each method is proved to
 refine its function on bit sequences and, from a state that satisfies the invariant, to do what the
 theorems promise.  A method that meets a failing ASSERT, a PANIC or a page fault reports the
 reason; the state it leaves then is of no interest.
 */
module MemoryCode {
  import opened Words
  import opened Bitmap
  import opened Paging
  import opened VirtualMemory
  import opened MemoryInv
  import opened MemoryRuns
  import opened MemoryCalls
  import opened MemoryOps
  import opened MemoryTheorems
  import opened MemoryRights
  import opened Boot

  // ---------- on the bytes of a bitmap ----------

  /** A bitmap of n cleared bytes, and the byte behind it. */
  method NewMap(n: nat, size: nat) returns (bitmap: Map)
    requires n < size && 8 * n + 8 < 0x8000_0000
    ensures bitmap.Valid() && bitmap.len == n && fresh(bitmap.bits)
    ensures bitmap.Bits() == seq(8 * n + 1, _ => false)
  {
    var bytes := new Byte[size](_ => 0);
    bitmap := new Map(bytes, n);
    assert !bitmap.Bits()[8 * n] by {
      assert bytes[..][n] == 0;
      ZeroByte(0);
    }
    bitmap.Init();
  }

  /** palloc on a pool whose bitmap is an array of bytes. */
  method PallocBytes(bitmap: Map, start: nat) returns (r: Outcome<nat>)
    requires bitmap.Valid()
    modifies bitmap.bits
    ensures match Palloc(Pool(start, old(bitmap.Bits())))
      case Stopped(why) => r == Stopped(why) && bitmap.Bits() == old(bitmap.Bits())
      case Ok(v) => r == Ok(v.1) && bitmap.Bits() == v.0.bits && v.0.start == start
  {
    hide Scan, ScanOfNone;
    var found := bitmap.FindFree(1);
    if !found.Found? { return Stopped(PoolFull); }
    ScanOne(bitmap.Bits());
    bitmap.Set(found.start, true);
    return Ok(start + found.start);
  }

  lemma ScanOne(v: seq<bool>)
    requires |v| >= 1 && Scan(v, 1).Found?
    ensures Scan(v, 1).start < |v| - 1
  {
    RunStaysInside(v, 1);
  }

  method MarkBit(bitmap: Map, i: nat)
    requires bitmap.Valid() && i <= 8 * bitmap.len
    modifies bitmap.bits
    ensures bitmap.Bits() == old(bitmap.Bits())[i := true]
  {
    bitmap.Set(i, true);
  }

  /** The loop that marks a run, bit by bit. */
  method MarkRun(bitmap: Map, st: nat, cnt: nat)
    requires bitmap.Valid() && st + cnt <= 8 * bitmap.len + 1
    modifies bitmap.bits
    ensures bitmap.Bits() == SetRun(old(bitmap.Bits()), st, cnt)
  {
    hide View, BitAt;
    ghost var goal := SetRun(bitmap.Bits(), st, cnt);
    var i := 0;
    while i < cnt
      invariant i <= cnt && SetRun(bitmap.Bits(), st + i, cnt - i) == goal
    {
      MarkBit(bitmap, st + i);
      i := i + 1;
    }
  }

  /** vaddr_get on a bitmap of bytes. */
  method VaddrGetBytes(bitmap: Map, base: nat, pf: PoolFlag, cnt: nat) returns (r: Outcome<Option<nat>>)
    requires bitmap.Valid() && cnt >= 1
    modifies bitmap.bits
    ensures match VaddrGet(VSpace(base, old(bitmap.Bits())), pf, cnt)
      case Stopped(why) => r == Stopped(why)
      case Ok(v) => r == Ok(v.1) && bitmap.Bits() == v.0.bits && v.0.base == base
  {
    hide Scan, ScanOfNone, SetRun, View;
    var found := bitmap.FindFree(cnt);
    if found.Halted? { return Stopped(NoSpace); }
    if found.NotFound? { return Ok(None); }
    var st := found.start;
    RunStaysInside(bitmap.Bits(), cnt);
    MarkRun(bitmap, st, cnt);
    if pf == PfUser && (base + st) * 0x1000 >= 0xc000_0000 - 0x1000 { return Stopped(BadStart); }
    return Ok(Some(base + st));
  }

  // ---------- what a call means to its caller ----------

  /** malloc_page: fresh pages in a row, or nothing, or a stop, each exactly on its condition. */
  ghost predicate MallocMeans(mm: MM, mm': MM, pf: PoolFlag, cnt: nat, r: Outcome<Option<nat>>) {
    && MallocAnswer(mm, pf, cnt, r)
    && match r
       case Stopped(_) => true
       case Ok(None) => mm' == mm
       case Ok(Some(n)) => MMInv(mm') && Allocated(mm, mm', pf, n, cnt)
  }

  /** get_kernel_pages and get_user_pages: fresh pages in a row and zero, or nothing. */
  ghost predicate GetMeans(mm: MM, mm': MM, pf: PoolFlag, cnt: nat, r: Outcome<Option<nat>>) {
    && MallocAnswer(mm, pf, cnt, r)
    && match r
       case Stopped(_) => true
       case Ok(None) => mm' == mm
       case Ok(Some(n)) => GotPages(mm, mm', pf, n, cnt)
  }

  /** create_page_dir: a fresh page that holds a directory with the kernel's half, or nothing. */
  ghost predicate DirMeans(mm: MM, mm': MM, r: Outcome<Option<nat>>) {
    match r
    case Stopped(why) => why in {BadCount, NoSpace, PoolFull}
    case Ok(None) => mm' == mm
    case Ok(Some(n)) => MadeDir(mm, mm', n)
  }

  ghost predicate MayAlloc(mm: MM, pf: PoolFlag) { MMInv(mm) && (pf == PfUser ==> StackTaken(mm)) }

  lemma MallocIs(mm: MM, pf: PoolFlag, cnt: nat)
    requires MayAlloc(mm, pf)
    ensures Sized(mm)
    ensures match VirtualMemory.MallocPage(mm, pf, cnt)
      case Stopped(why) => forall any :: MallocMeans(mm, any, pf, cnt, Stopped(why))
      case Ok(v) => MallocMeans(mm, v.0, pf, cnt, Ok(v.1))
  {
    hide MMInv, MallocPage, Allocated, MallocAnswer;
    if pf == PfKernel { MallocKernel(mm, cnt); } else { MallocUser(mm, cnt); }
  }

  lemma GetIs(mm: MM, pf: PoolFlag, cnt: nat)
    requires MayAlloc(mm, pf)
    ensures Sized(mm)
    ensures match VirtualMemory.GetPages(mm, pf, cnt)
      case Stopped(why) => forall any :: GetMeans(mm, any, pf, cnt, Stopped(why))
      case Ok(v) => GetMeans(mm, v.0, pf, cnt, Ok(v.1))
  {
    hide MMInv, GetPages, GotPages, MallocAnswer;
    GetPagesKeeps(mm, pf, cnt);
  }

  lemma DirIs(mm: MM)
    requires MMInv(mm)
    ensures Sized(mm)
    ensures match VirtualMemory.CreatePageDir(mm)
      case Stopped(why) => forall any :: DirMeans(mm, any, Stopped(why))
      case Ok(v) => DirMeans(mm, v.0, Ok(v.1))
  {
    hide MMInv, CreatePageDir, MadeDir;
    CreatePageDirKeeps(mm);
  }

  /** page_table_add, seen by the MMU through directory e: address x walks as before, unless its walk
      ends in the word written or x lies where a new table came in. */
  ghost predicate AddedFor(m: Mem, m': Mem, dir: nat, kpool: Pool, v: Word, f: nat, e: nat, x: Word)
    requires |kpool.bits| >= 1 && f < FRAMES
  {
    if Present(Pde(m, dir, v)) then
      e != FrameOf(Pde(m, dir, v)) ==>
        Walk(m', e, x) == if PteCell(m, e, x) == PteCell(m, dir, v) then Some(AddrIn(f, Offset(x))) else Walk(m, e, x)
    else
      Palloc(kpool).Ok? && var t := Palloc(kpool).value.1;
        t < FRAMES && (e != t && (Present(Pde(m, e, x)) ==> FrameOf(Pde(m, e, x)) != t) ==>
          Walk(m', e, x) ==
          if e == dir && PdeIdx(x) == PdeIdx(v) then (if PteIdx(x) == PteIdx(v) then Some(AddrIn(f, Offset(x))) else None)
          else if PteCell(m, e, x) == Some(Cell(dir, PdeIdx(v))) then Some(AddrIn(t, Offset(x)))
          else Walk(m, e, x))
  }

  /** The directory maps itself, and the kernel pool has frames that exist and are not it. */
  ghost predicate CanAdd(m: Mem, dir: nat, kpool: Pool, v: Word) {
    && SelfMap(m, dir) && PdeIdx(v) != 1023
    && |kpool.bits| >= 1 && kpool.start + PoolSize(kpool) <= FRAMES && (InPool(kpool, dir) ==> Taken(kpool, dir))
  }

  /** What page_table_add means: it stops exactly on a page already mapped or, with a table missing, on
      a full pool; otherwise v leads to f and no other walk changes beyond AddedFor. */
  ghost predicate AddMeans(m: Mem, m': Mem, dir: nat, kpool: Pool, v: Word, f: nat, stop: Option<Stop>)
    requires |kpool.bits| >= 1 && f < FRAMES
  {
    match stop
    case Some(PteRepeat) => Walk(m, dir, v).Some?
    case Some(why) => why == PoolFull && !Present(Pde(m, dir, v)) && forall g: nat | InPool(kpool, g) :: Taken(kpool, g)
    case None =>
      && Walk(m, dir, v) == None && Walk(m', dir, v) == Some(AddrIn(f, Offset(v)))
      && forall e: nat, x: Word :: AddedFor(m, m', dir, kpool, v, f, e, x)
  }

  lemma AddIs(m: Mem, dir: nat, kpool: Pool, v: Word, f: nat)
    requires CanAdd(m, dir, kpool, v) && f < FRAMES
    ensures match Paging.PageTableAdd(m, dir, kpool, v, f)
      case Stopped(why) => forall any :: AddMeans(m, any, dir, kpool, v, f, Some(why))
      case Ok(r) => AddMeans(m, r.0, dir, kpool, v, f, None)
  {
    hide PageTableAdd, Palloc;
    PallocEffect(kpool);
    if Present(Pde(m, dir, v)) {
      AddToTable(m, dir, kpool, v, f);
    } else {
      AddNewTable(m, dir, kpool, v, f);
    }
    var r := Paging.PageTableAdd(m, dir, kpool, v, f);
    if r.Ok? {
      forall e: nat, x: Word ensures AddedFor(m, r.value.0, dir, kpool, v, f, e, x) { AddIsFor(m, dir, kpool, v, f, e, x); }
      AddIsHere(m, dir, kpool, v, f);
    }
  }

  /** User mode may read and write at v as far as the directory entry that was there permits, and with a new
      table always. */
  ghost predicate Opened(m: Mem, m': Mem, dir: nat, v: Word) {
    forall write :: UserMay(m', dir, v, write) <==> (Present(Pde(m, dir, v)) ==> Permits(Pde(m, dir, v), write))
  }

  lemma AddOpens(m: Mem, dir: nat, kpool: Pool, v: Word, f: nat)
    requires CanAdd(m, dir, kpool, v)
    ensures var r := Paging.PageTableAdd(m, dir, kpool, v, f); r.Ok? ==> Opened(m, r.value.0, dir, v)
  {
    hide PageTableAdd, Palloc, UserMay, Permits;
    PallocEffect(kpool);
    var r := Paging.PageTableAdd(m, dir, kpool, v, f);
    if r.Ok? {
      forall write ensures UserMay(r.value.0, dir, v, write) <==> (Present(Pde(m, dir, v)) ==> Permits(Pde(m, dir, v), write)) {
        AddRights(m, dir, kpool, v, f, write);
      }
    }
  }

  lemma AddIsFor(m: Mem, dir: nat, kpool: Pool, v: Word, f: nat, e: nat, x: Word)
    requires CanAdd(m, dir, kpool, v) && f < FRAMES
    ensures Paging.PageTableAdd(m, dir, kpool, v, f).Ok? ==> AddedFor(m, Paging.PageTableAdd(m, dir, kpool, v, f).value.0, dir, kpool, v, f, e, x)
  {
    hide PageTableAdd, Palloc, Walk, PteCell;
    PallocEffect(kpool);
    if Present(Pde(m, dir, v)) {
      AddToTable(m, dir, kpool, v, f);
      if !Present(Rd(m, FrameOf(Pde(m, dir, v)), PteIdx(v))) { AddToTableWalk(m, dir, kpool, v, f, e, x); }
    } else if Palloc(kpool).Stopped? {
      AddNewTable(m, dir, kpool, v, f);
    } else {
      AddNewTable(m, dir, kpool, v, f);
      var t := Palloc(kpool).value.1;
      if e != t && (Present(Pde(m, e, x)) ==> FrameOf(Pde(m, e, x)) != t) { AddNewTableWalk(m, dir, kpool, v, f, e, x); }
    }
  }

  lemma AddIsHere(m: Mem, dir: nat, kpool: Pool, v: Word, f: nat)
    requires CanAdd(m, dir, kpool, v) && f < FRAMES
    ensures Paging.PageTableAdd(m, dir, kpool, v, f).Ok? ==>
      Walk(m, dir, v) == None && Walk(Paging.PageTableAdd(m, dir, kpool, v, f).value.0, dir, v) == Some(AddrIn(f, Offset(v)))
  {
    hide PageTableAdd, Palloc;
    PallocEffect(kpool);
    if Present(Pde(m, dir, v)) {
      AddToTable(m, dir, kpool, v, f);
      if !Present(Rd(m, FrameOf(Pde(m, dir, v)), PteIdx(v))) { AddToTableWalk(m, dir, kpool, v, f, dir, v); }
    } else {
      AddNewTable(m, dir, kpool, v, f);
      if Palloc(kpool).Ok? { AddNewTableWalk(m, dir, kpool, v, f, dir, v); }
    }
  }

  lemma SpaceStays(mm: MM, pf: PoolFlag, cnt: nat)
    requires cnt >= 1 && SpaceOf(mm, pf).Some? && |SpaceOf(mm, pf).value.bits| >= 1
    ensures var r := VirtualMemory.VaddrGet(SpaceOf(mm, pf).value, pf, cnt);
      r.Ok? && r.value.1 == None ==> WithSpace(mm, pf, r.value.0) == mm
  {
    hide Scan;
  }

  // ---------- the manager ----------

  class Manager {
    var mem: Mem
    var cr3: nat
    const kstart: nat
    const kmap: Map
    const ustart: nat
    const umap: Map
    const vbase: nat
    const vmap: Map
    var dirs: map<Pid, Word>
    var spaces: map<Pid, Map>
    var cur: Option<Pid>

    /** The bytes of the processes' bitmaps, and those of all bitmaps. */
    ghost function UserArrays(): set<array<Byte>>
      reads `spaces
    {
      set p | p in spaces :: spaces[p].bits
    }

    ghost function Arrays(): set<array<Byte>>
      reads `spaces
    {
      {kmap.bits, umap.bits, vmap.bits} + UserArrays()
    }

    /** Every bitmap has bytes of its own. */
    ghost predicate Valid()
      reads `spaces, `dirs
    {
      && kmap.Valid() && umap.Valid() && vmap.Valid()
      && kmap.bits != umap.bits && kmap.bits != vmap.bits && umap.bits != vmap.bits
      && dirs.Keys == spaces.Keys
      && kmap.bits !in UserArrays() && umap.bits !in UserArrays() && vmap.bits !in UserArrays()
      && (forall p | p in spaces :: spaces[p].Valid())
      && (forall p, q | p in spaces && q in spaces && p != q :: spaces[p].bits != spaces[q].bits)
    }

    ghost function KPool(): (pool: Pool)
      requires kmap.Valid()
      reads kmap.bits
      ensures |pool.bits| >= 1
    {
      Pool(kstart, kmap.Bits())
    }

    ghost function UPool(): (pool: Pool)
      requires umap.Valid()
      reads umap.bits
      ensures |pool.bits| >= 1
    {
      Pool(ustart, umap.Bits())
    }

    ghost function Heap(): (vs: VSpace)
      requires vmap.Valid()
      reads vmap.bits
      ensures |vs.bits| >= 1
    {
      VSpace(vbase, vmap.Bits())
    }

    ghost function Procs(): (ps: map<Pid, Proc>)
      requires Valid()
      reads `spaces, `dirs, UserArrays()
      ensures ps.Keys == dirs.Keys && forall p | p in ps :: ps[p].pgdir == dirs[p] && |ps[p].vs.bits| >= 1
    {
      map p | p in spaces :: Proc(dirs[p], VSpace(USER_BASE, spaces[p].Bits()))
    }

    ghost function Abs(): (mm: MM)
      requires Valid()
      reads this, Arrays()
      ensures Sized(mm)
    {
      MM(mem, cr3, KPool(), UPool(), Heap(), Procs(), cur)
    }

    /** mem_pool_init on the tables the loader left, with no process yet. */
    constructor (m: Mem, allMem: Word)
      requires BootTables(m)
      ensures Valid() && fresh(Arrays()) && Abs() == StartMM(m, allMem) && MMInv(Abs())
    {
      hide MMInv, BootTables, Reachable, InitMM, View;
      var used := 0x1000 * 256 + 0x10_0000;
      var free := (allMem + U32 - used) % U32;
      var pages := free / 0x1000 % 0x1_0000;
      var kPages := pages / 2;
      var uPages := pages - kPages;
      var kLen := kPages / 8;
      var uLen := uPages / 8;
      var kStart := used;
      var uStart := kStart + kPages * 0x1000;
      ghost var y := PoolInit(allMem);
      assert kLen == y.kLen == y.vLen && uLen == y.uLen && kStart == y.kStart && uStart == y.uStart && y.vStart == 0xc010_0000;
      hide PoolInit;
      var k := NewMap(kLen, kLen + 1);
      var u := NewMap(uLen, uLen + 1);
      var v := NewMap(kLen, kLen + 1);
      kmap, umap, vmap := k, u, v;
      kstart, ustart, vbase := kStart / 0x1000, uStart / 0x1000, 0xc010_0000 / 0x1000;
      mem, cr3, dirs, spaces, cur := m, K_DIR, map[], map[], None;
      new;
      assert Procs() == map[];
      BootIsInit(m, allMem);
    }

    /** The loads, tests and stores of page_table_add. */
    method AddEntry(v: Word, f: nat) returns (stop: Option<Stop>)
      requires Valid()
      modifies `mem, kmap.bits
      ensures match Paging.PageTableAdd(old(mem), cr3, old(KPool()), v, f)
        case Stopped(why) => stop == Some(why)
        case Ok(r) => stop == None && mem == r.0 && KPool() == r.1
    {
      hide Load, Store, ClearPage, Paging.Palloc, Present, Entry, Map.Valid, Map.Bits, PdePtr, PtePtr;
      var pde := Load(mem, cr3, PdePtr(v));
      if pde.Stopped? { return Some(pde.why); }
      if Present(pde.value) {
        var pte := Load(mem, cr3, PtePtr(v));
        if pte.Stopped? { return Some(pte.why); }
        if Present(pte.value) { return Some(PteRepeat); }
      } else {
        var got := PallocBytes(kmap, kstart);
        if got.Stopped? { return Some(got.why); }
        var linked := Store(mem, cr3, PdePtr(v), Entry(got.value));
        if linked.Stopped? { return Some(linked.why); }
        mem := linked.value;
        var cleared := ClearPage(mem, cr3, PtePtr(v));
        if cleared.Stopped? { return Some(cleared.why); }
        mem := cleared.value;
        var pte := Load(mem, cr3, PtePtr(v));
        if pte.Stopped? { return Some(pte.why); }
        if Present(pte.value) { return Some(TableNotClear); }
      }
      var done := Store(mem, cr3, PtePtr(v), Entry(f));
      if done.Stopped? { return Some(done.why); }
      mem := done.value;
      return None;
    }

    method PageTableAdd(v: Word, f: nat) returns (stop: Option<Stop>)
      requires Valid()
      modifies `mem, kmap.bits
      ensures match Paging.PageTableAdd(old(mem), cr3, old(KPool()), v, f)
        case Stopped(why) => stop == Some(why)
        case Ok(r) => stop == None && Abs() == old(Abs()).(mem := r.0, kpool := r.1)
      ensures f < FRAMES && CanAdd(old(mem), cr3, old(KPool()), v) ==> AddMeans(old(mem), mem, cr3, old(KPool()), v, f, stop)
      ensures CanAdd(old(mem), cr3, old(KPool()), v) && stop == None ==> Opened(old(mem), mem, cr3, v)
    {
      hide Paging.PageTableAdd, AddMeans, CanAdd, Opened, Map.Valid, Map.Bits, Procs;
      if f < FRAMES && CanAdd(mem, cr3, KPool(), v) { AddIs(mem, cr3, KPool(), v, f); }
      if CanAdd(mem, cr3, KPool(), v) { AddOpens(mem, cr3, KPool(), v, f); }
      stop := AddEntry(v, f);
      assert Procs() == old(Procs()) && Heap() == old(Heap()) && UPool() == old(UPool());
    }

    /** palloc. */
    method Palloc(pf: PoolFlag) returns (r: Outcome<nat>)
      requires Valid()
      modifies kmap.bits, umap.bits
      ensures match Paging.Palloc(PoolFor(pf, old(KPool()), old(UPool())))
        case Stopped(why) => r == Stopped(why)
        case Ok(v) => r == Ok(v.1) && Abs() == if pf == PfKernel then old(Abs()).(kpool := v.0) else old(Abs()).(upool := v.0)
    {
      hide Paging.Palloc, Map.Valid, Map.Bits, Procs;
      if pf == PfKernel { r := PallocBytes(kmap, kstart); } else { r := PallocBytes(umap, ustart); }
      assert Procs() == old(Procs()) && Heap() == old(Heap());
    }

    /** palloc and page_table_add for one page. */
    method MapPage(pf: PoolFlag, n: nat) returns (stop: Option<Stop>)
      requires Valid()
      modifies `mem, kmap.bits, umap.bits
      ensures match VirtualMemory.MapPage(old(mem), cr3, old(KPool()), old(UPool()), pf, n)
        case Stopped(why) => stop == Some(why)
        case Ok(r) => stop == None && Abs() == old(Abs()).(mem := r.0, kpool := r.1, upool := r.2)
    {
      hide Paging.PageTableAdd, Paging.Palloc, AddMeans, CanAdd, KPool, UPool, Procs, Heap, UserArrays, Map.Valid, PageAddr;
      var got := Palloc(pf);
      if got.Stopped? { return Some(got.why); }
      stop := PageTableAdd(PageAddr(n), got.value);
    }

    /** The loop of malloc_page. */
    method MapPages(pf: PoolFlag, n: nat, cnt: nat) returns (stop: Option<Stop>)
      requires Valid()
      modifies `mem, kmap.bits, umap.bits
      ensures match VirtualMemory.MapPages(old(mem), cr3, old(KPool()), old(UPool()), pf, n, cnt)
        case Stopped(why) => stop == Some(why)
        case Ok(r) => stop == None && Abs() == old(Abs()).(mem := r.0, kpool := r.1, upool := r.2)
    {
      hide VirtualMemory.MapPage, Map.Valid, KPool, UPool, Procs, UserArrays;
      ghost var goal := VirtualMemory.MapPages(mem, cr3, KPool(), UPool(), pf, n, cnt);
      var page, left := n, cnt;
      while left > 0
        invariant Procs() == old(Procs()) && Heap() == old(Heap())
        invariant VirtualMemory.MapPages(mem, cr3, KPool(), UPool(), pf, page, left) == goal
      {
        stop := MapPage(pf, page);
        if stop.Some? { return; }
        page := page + 1;
        left := left - 1;
      }
      return None;
    }

    /** The bitmap an allocation of this kind takes its pages from. */
    function SpaceMap(pf: PoolFlag): Option<Map>
      reads `spaces, `cur
    {
      if pf == PfKernel then Some(vmap) else if cur.Some? && cur.value in spaces then Some(spaces[cur.value]) else None
    }

    function BaseOf(pf: PoolFlag): nat { if pf == PfKernel then vbase else USER_BASE }

    lemma SpaceIs(pf: PoolFlag)
      requires Valid()
      ensures SpaceOf(Abs(), pf) == match SpaceMap(pf) case None => None case Some(b) => Some(VSpace(BaseOf(pf), b.Bits()))
      ensures SpaceMap(pf).Some? ==> SpaceMap(pf).value.Valid() && SpaceMap(pf).value.bits in {vmap.bits} + UserArrays()
    {
      hide Map.Valid, Map.Bits;
    }

    /** vaddr_get. */
    method VaddrGet(pf: PoolFlag, cnt: nat) returns (r: Outcome<Option<nat>>)
      requires Valid() && cnt >= 1 && SpaceMap(pf).Some?
      modifies vmap.bits, UserArrays()
      ensures SpaceOf(old(Abs()), pf).Some?
      ensures match VirtualMemory.VaddrGet(SpaceOf(old(Abs()), pf).value, pf, cnt)
        case Stopped(why) => r == Stopped(why)
        case Ok(v) => r == Ok(v.1) && Abs() == WithSpace(old(Abs()), pf, v.0)
    {
      hide VirtualMemory.VaddrGet, Map.Valid, Map.Bits;
      SpaceIs(pf);
      r := VaddrGetBytes(SpaceMap(pf).value, BaseOf(pf), pf, cnt);
    }

    method MallocPage(pf: PoolFlag, cnt: nat) returns (r: Outcome<Option<nat>>)
      requires Valid()
      modifies `mem, Arrays()
      ensures match VirtualMemory.MallocPage(old(Abs()), pf, cnt)
        case Stopped(why) => r == Stopped(why)
        case Ok(v) => r == Ok(v.1) && Abs() == v.0
      ensures MayAlloc(old(Abs()), pf) ==> MallocMeans(old(Abs()), Abs(), pf, cnt, r)
    {
      hide VirtualMemory.MapPages, VirtualMemory.VaddrGet, Map.Valid, Map.Bits, MallocMeans, MayAlloc, Procs, Heap, KPool, UPool, UserArrays;
      if MayAlloc(Abs(), pf) { MallocIs(Abs(), pf, cnt); }
      SpaceIs(pf);
      if !(0 < cnt < 3840) { return Stopped(BadCount); }
      if SpaceMap(pf) == None { return Stopped(NoSpace); }
      SpaceStays(Abs(), pf, cnt);
      r := VaddrGet(pf, cnt);
      if r.Stopped? || r.value == None { return; }
      var stop := MapPages(pf, r.value.value, cnt);
      if stop.Some? { return Stopped(stop.value); }
    }

    /** memset over whole pages. */
    method Clear(n: nat, cnt: nat) returns (stop: Option<Stop>)
      requires Valid()
      modifies `mem
      ensures Abs() == old(Abs()).(mem := mem)
      ensures match ClearPages(old(mem), cr3, n, cnt)
        case Stopped(why) => stop == Some(why)
        case Ok(m) => stop == None && mem == m
    {
      hide ClearPage, KPool, UPool, Procs, Heap, Map.Valid;
      ghost var goal := ClearPages(mem, cr3, n, cnt);
      var page, left := n, cnt;
      while left > 0
        invariant ClearPages(mem, cr3, page, left) == goal
      {
        var cleared := ClearPage(mem, cr3, PageAddr(page));
        if cleared.Stopped? { return Some(cleared.why); }
        mem := cleared.value;
        page := page + 1;
        left := left - 1;
      }
      return None;
    }

    /** get_kernel_pages and get_user_pages. */
    method GetPages(pf: PoolFlag, cnt: nat) returns (r: Outcome<Option<nat>>)
      requires Valid()
      modifies `mem, Arrays()
      ensures match VirtualMemory.GetPages(old(Abs()), pf, cnt)
        case Stopped(why) => r == Stopped(why)
        case Ok(v) => r == Ok(v.1) && Abs() == v.0
      ensures MayAlloc(old(Abs()), pf) ==> GetMeans(old(Abs()), Abs(), pf, cnt, r)
    {
      hide VirtualMemory.MallocPage, ClearPages, Sized, MallocMeans, GetMeans, MayAlloc, KPool, UPool, Procs, Heap, UserArrays, Map.Valid;
      if MayAlloc(Abs(), pf) { GetIs(Abs(), pf, cnt); }
      MallocCr3(Abs(), pf, cnt);
      r := MallocPage(pf, cnt);
      if r.Ok? && r.value.Some? {
        var stop := Clear(r.value.value, cnt);
        if stop.Some? { return Stopped(stop.value); }
      }
    }

    /** bitmap_set for the page get_a_page was asked for. */
    method Mark(pf: PoolFlag, i: nat)
      requires Valid() && SpaceOf(Abs(), pf).Some? && i < |SpaceOf(Abs(), pf).value.bits|
      modifies vmap.bits, UserArrays()
      ensures var vs := SpaceOf(old(Abs()), pf).value; Abs() == WithSpace(old(Abs()), pf, vs.(bits := vs.bits[i := true]))
    {
      hide Map.Bits, Map.Valid;
      SpaceIs(pf);
      MarkBit(SpaceMap(pf).value, i);
    }

    /** The checks, bitmap_set, palloc and page_table_add of get_a_page. */
    method PlacePage(pf: PoolFlag, v: Word) returns (stop: Option<Stop>)
      requires Valid()
      modifies `mem, Arrays()
      ensures match VirtualMemory.GetAPage(old(Abs()), pf, v)
        case Stopped(why) => stop == Some(why)
        case Ok(mm) => stop == None && Abs() == mm
    {
      hide VirtualMemory.MapPage, KPool, UPool, Procs, Heap, UserArrays, Map.Valid, Map.Bits, PageIndex;
      SpaceIs(pf);
      var space := SpaceMap(pf);
      if (pf == PfUser) != cur.Some? || space == None { return Some(WrongSpace); }
      var i := PageIndex(VSpace(BaseOf(pf), []), v);
      assert i == PageIndex(SpaceOf(Abs(), pf).value, v) by { IndexOfBase(VSpace(BaseOf(pf), []), SpaceOf(Abs(), pf).value, v); }
      if i == 0 { return Some(BadIndex); }
      if i >= 8 * space.value.len { return Some(OutsideBitmap); }
      Mark(pf, i);
      stop := MapPage(pf, v / 0x1000);
    }

    method GetAPage(pf: PoolFlag, v: Word) returns (stop: Option<Stop>)
      requires Valid()
      modifies `mem, Arrays()
      ensures match VirtualMemory.GetAPage(old(Abs()), pf, v)
        case Stopped(why) => stop == Some(why)
        case Ok(mm) => stop == None && Abs() == mm
      ensures old(MMInv(Abs())) ==> match stop
        case Some(why) => PlaceStop(old(Abs()), pf, v, why)
        case None => MayPlace(old(Abs()), pf, v) && Placed(old(Abs()), Abs(), pf, v / 0x1000) && UserMay(mem, cr3, v, true)
    {
      hide VirtualMemory.GetAPage, MMInv, PlaceStop, MayPlace, Placed, KPool, UPool, Procs, Heap, UserArrays, Map.Valid, Map.Bits;
      if MMInv(Abs()) {
        if pf == PfKernel { GetAPageKernel(Abs(), v); } else { GetAPageUser(Abs(), v); }
      }
      ghost var before := Abs();
      stop := PlacePage(pf, v);
      if MMInv(before) && stop == None { PlacedIsOpen(before, Abs(), pf, v); }
    }

    /** memcpy of the kernel's directory entries into the page at v. */
    method CopyKernelEntries(v: Word) returns (stop: Option<Stop>)
      modifies `mem
      ensures match VirtualMemory.CopyKernelEntries(old(mem), cr3, v)
        case Stopped(why) => stop == Some(why)
        case Ok(m) => stop == None && mem == m
    {
      var to, from := Walk(mem, cr3, v), Walk(mem, cr3, PdePtr(0));
      if to == None || from == None { return Some(PageFault); }
      var t, f := to.value / 0x1000, from.value / 0x1000;
      ghost var goal := CopyEntries(mem, f, t, 768);
      var i := 768;
      while i < 1024
        invariant 768 <= i <= 1024 && CopyEntries(mem, f, t, i) == goal
      {
        mem := Wr(mem, t, i, Rd(mem, f, i));
        i := i + 1;
      }
      return None;
    }

    /** The body of create_page_dir, for the page at v: copy the kernel's entries and point the last one at
        the directory itself. */
    method FillDir(v: Word) returns (stop: Option<Stop>)
      requires Valid()
      modifies `mem
      ensures Abs() == old(Abs()).(mem := mem)
      ensures match FilledDir(old(mem), cr3, v)
        case Stopped(why) => stop == Some(why)
        case Ok(m) => stop == None && mem == m
    {
      hide VirtualMemory.CopyKernelEntries, AddrV2P, Store, KPool, UPool, Procs, Heap, Map.Valid;
      stop := CopyKernelEntries(v);
      if stop.Some? { return; }
      var pa := AddrV2P(mem, cr3, v);
      if pa.Stopped? { return Some(pa.why); }
      var done := Store(mem, cr3, (v + 1023 * 4) % U32, Entry(pa.value / 0x1000));
      if done.Stopped? { return Some(done.why); }
      mem := done.value;
    }

    method CreatePageDir() returns (r: Outcome<Option<nat>>)
      requires Valid()
      modifies `mem, Arrays()
      ensures match VirtualMemory.CreatePageDir(old(Abs()))
        case Stopped(why) => r == Stopped(why)
        case Ok(v) => r == Ok(v.1) && Abs() == v.0
      ensures old(MMInv(Abs())) ==> DirMeans(old(Abs()), Abs(), r)
    {
      hide VirtualMemory.GetPages, FilledDir, Sized, GetMeans, DirMeans, MayAlloc, MMInv, KPool, UPool, Procs, Heap, UserArrays, Map.Valid;
      if MMInv(Abs()) { DirIs(Abs()); }
      GetPagesCr3(Abs(), PfKernel, 1);
      r := GetPages(PfKernel, 1);
      if r.Stopped? || r.value == None { return; }
      var stop := FillDir(PageAddr(r.value.value));
      if stop.Some? { return Stopped(stop.value); }
    }

    /** The PCB fields of a process: its directory and its bitmap, whose bytes nobody else has. */
    method Adopt(pid: Pid, dir: Word, bitmap: Map)
      requires Valid() && bitmap.Valid() && bitmap.bits !in Arrays()
      modifies `dirs, `spaces
      ensures Valid() && Arrays() <= old(Arrays()) + {bitmap.bits}
      ensures Procs() == old(Procs())[pid := Proc(dir, VSpace(USER_BASE, bitmap.Bits()))]
    {
      hide Map.Bits, Map.Valid;
      dirs, spaces := dirs[pid := dir], spaces[pid := bitmap];
    }

    /** A new process starts with no page taken. */
    method AddProcess(pid: Pid, dir: Word)
      requires Valid()
      modifies `dirs, `spaces
      ensures Valid() && fresh(Arrays() - old(Arrays()))
      ensures Abs() == old(Abs()).(procs := old(Procs())[pid := Proc(dir, FreshUserSpace())])
    {
      hide Map.Bits, Map.Valid, KPool, UPool, Heap, Procs, FreshUserSpace;
      var bitmap := NewMap(USER_PAGES / 8, BITMAP_PAGES * 0x1000);
      FreshIs();
      Adopt(pid, dir, bitmap);
    }

    /** The pages of a new process, one call after the other, and then its PCB fields. */
    method MakeProcess(pid: Pid) returns (stop: Option<Stop>)
      requires Valid()
      modifies `mem, `dirs, `spaces, Arrays()
      ensures Valid() && fresh(Arrays() - old(Arrays()))
      ensures match VirtualMemory.ProcessExecute(old(Abs()), pid)
        case Stopped(why) => stop == Some(why)
        case Ok(mm) => stop == None && Abs() == mm
    {
      hide VirtualMemory.GetPages, VirtualMemory.CreatePageDir, VirtualMemory.ProcessExecute, Sized, GetMeans, DirMeans, MayAlloc, MMInv,
        KPool, UPool, Procs, Heap, Map.Valid, FreshUserSpace;
      ExecuteShape(Abs(), pid);
      var pcb := GetPages(PfKernel, 1);
      if pcb.Stopped? { return Some(pcb.why); }
      var bitmap := GetPages(PfKernel, BITMAP_PAGES);
      if bitmap.Stopped? { return Some(bitmap.why); }
      var dir := CreatePageDir();
      if dir.Stopped? { return Some(dir.why); }
      if pcb.value == None || bitmap.value == None || dir.value == None { return Some(NoSpace); }
      assert Arrays() == old(Arrays());
      AddProcess(pid, PageAddr(dir.value.value));
      return None;
    }

    method ProcessExecute(pid: Pid) returns (stop: Option<Stop>)
      requires Valid()
      modifies `mem, `dirs, `spaces, Arrays()
      ensures Valid() && fresh(Arrays() - old(Arrays()))
      ensures match VirtualMemory.ProcessExecute(old(Abs()), pid)
        case Stopped(why) => stop == Some(why)
        case Ok(mm) => stop == None && Abs() == mm
      ensures old(MMInv(Abs())) && pid !in old(Abs().procs) ==> match stop
        case Some(why) => why in {BadCount, NoSpace, PoolFull}
        case None =>
          && MMInv(Abs()) && Abs().procs.Keys == old(Abs().procs.Keys) + {pid} && Abs().cur == cur
          && GrewKernel(old(Abs()), Abs()) && TookFrames(old(Abs()), Abs(), 25)
    {
      hide VirtualMemory.ProcessExecute, Sized, MMInv, GrewKernel, KPool, UPool, Procs, Heap, UserArrays, Map.Valid;
      if MMInv(Abs()) && pid !in Abs().procs { ProcessExecuteKeeps(Abs(), pid); }
      stop := MakeProcess(pid);
    }

    /** page_dir_activate. */
    method Activate(next: Option<Pid>) returns (stop: Option<Stop>)
      requires Valid()
      modifies `cr3, `cur
      ensures match VirtualMemory.Activate(old(Abs()), next)
        case Stopped(why) => stop == Some(why)
        case Ok(mm) => stop == None && Abs() == mm
      ensures old(MMInv(Abs())) && (next.Some? ==> next.value in dirs) ==>
        && stop == None && MMInv(Abs()) && cur == next
        && cr3 == (match next case None => K_DIR case Some(p) => DirOf(mem, Abs().procs[p]))
        && forall u :: UseFrame(Abs(), u) == UseFrame(old(Abs()), u)
    {
      hide AddrV2P, MMInv, UseFrame, DirOf, KPool, UPool, Procs, Heap, UserArrays, Map.Valid, Map.Bits;
      if MMInv(Abs()) && (next.Some? ==> next.value in dirs) { ActivateKeeps(Abs(), next); }
      var pagedir := K_DIR;
      if next.Some? {
        if next.value !in dirs { return Some(WrongSpace); }
        var pa := AddrV2P(mem, cr3, dirs[next.value]);
        if pa.Stopped? { return Some(pa.why); }
        pagedir := pa.value / 0x1000;
      }
      cr3, cur := pagedir, next;
      return None;
    }

    /** Any legal call keeps the invariant of the memory manager, and stops only for the reasons the
        theorems name. */
    method Do(a: Action) returns (stop: Option<Stop>)
      requires Valid() && MMInv(Abs()) && Legal(Abs(), a) && !a.WriteData?
      modifies this, Arrays()
      ensures Valid() && fresh(Arrays() - old(Arrays()))
      ensures match Next(old(Abs()), a)
        case Stopped(why) => stop == Some(why)
        case Ok(mm) => stop == None && Abs() == mm
      ensures stop == None ==> MMInv(Abs()) && Grew(old(Abs()), Abs())
      ensures stop.Some? ==> GoodStop(old(Abs()), a, stop.value)
    {
      hide MMInv, Legal, VirtualMemory.GetPages, VirtualMemory.GetAPage, VirtualMemory.ProcessExecute, VirtualMemory.Activate, GoodStop, Sized,
        GetMeans, MayAlloc, PlaceStop, MayPlace, Placed, GrewKernel, Grew, UseFrame, DirOf, KPool, UPool, Procs, Heap, UserArrays, Map.Valid;
      StepKeeps(Abs(), a);
      match a
      case AllocKernel(cnt) =>
        var r := GetPages(PfKernel, cnt);
        stop := if r.Stopped? then Some(r.why) else None;
      case AllocUser(cnt) =>
        var r := GetPages(PfUser, cnt);
        stop := if r.Stopped? then Some(r.why) else None;
      case AllocAt(pf, v) => stop := GetAPage(pf, v);
      case Execute(pid) => stop := ProcessExecute(pid);
      case Switch(next) => stop := Activate(next);
    }
  }

  /** A page that get_a_page placed may be read and written from user mode. */
  lemma PlacedIsOpen(mm: MM, mm': MM, pf: PoolFlag, v: Word)
    requires MayPlace(mm, pf, v) && Placed(mm, mm', pf, v / 0x1000) && mm'.cr3 == mm.cr3 && mm'.cur == mm.cur
    ensures UserMay(mm'.mem, mm'.cr3, v, true)
  {
    hide MMInv, UseFrame, Mapped, UserMay, Walk, Free, NewTables, TooFew;
    var n := v / 0x1000;
    PlacedPage(mm, mm', pf, n);
    ActiveIsDir(mm');
    RightsHold(mm', mm'.cr3, v, true);
    SamePageWalks(mm', pf, v);
  }

  lemma PlacedPage(mm: MM, mm': MM, pf: PoolFlag, n: nat)
    requires Placed(mm, mm', pf, n)
    ensures MMInv(mm') && UseFrame(mm', PageUse(pf, OwnerOf(mm), n)).Some?
  {
    hide MMInv, UseFrame;
  }

  lemma SamePageWalks(mm: MM, pf: PoolFlag, v: Word)
    requires MMInv(mm) && UseFrame(mm, PageUse(pf, OwnerOf(mm), v / 0x1000)).Some? && (pf == PfUser ==> mm.cur.Some?)
    ensures Walk(mm.mem, mm.cr3, v).Some?
  {
    hide MMInv;
    PageWalk(mm, pf, v / 0x1000);
    WalkByPage(mm.mem, mm.cr3, v);
    WalkByPage(mm.mem, mm.cr3, PageAddr(v / 0x1000));
  }

  lemma FreshIs()
    ensures FreshUserSpace() == VSpace(USER_BASE, seq(8 * (USER_PAGES / 8) + 1, _ => false))
  {
  }

  lemma IndexOfBase(s: VSpace, t: VSpace, v: Word)
    requires s.base == t.base
    ensures PageIndex(s, v) == PageIndex(t, v)
  {
  }

  lemma MallocCr3(mm: MM, pf: PoolFlag, cnt: nat)
    requires Sized(mm)
    ensures VirtualMemory.MallocPage(mm, pf, cnt).Ok? ==> VirtualMemory.MallocPage(mm, pf, cnt).value.0.cr3 == mm.cr3
  {
    hide MapPages, VaddrGet;
  }

  lemma GetPagesCr3(mm: MM, pf: PoolFlag, cnt: nat)
    requires Sized(mm)
    ensures VirtualMemory.GetPages(mm, pf, cnt).Ok? ==> VirtualMemory.GetPages(mm, pf, cnt).value.0.cr3 == mm.cr3
  {
    hide MallocPage, ClearPages;
    MallocCr3(mm, pf, cnt);
  }
}
