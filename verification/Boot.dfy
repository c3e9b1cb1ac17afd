/**
 The state the boot code hands to the memory manager: the page tables the loader writes and
 the layout mem_pool_init computes.
 */
module Boot {
  import opened Words
  import opened Paging
  import opened VirtualMemory
  import opened MemoryInv
  import opened MemoryOps
  import opened MemoryTheorems

  // ---------- setup_page ----------

  /** The page tables behind directory entries 769 .. 1022 and the unused part of the first one
      hold zeros: the loader does not write them. */
  ghost predicate TablesBlank(m: Mem) {
    forall f, i | K_TAB <= f < POOL_BASE && 0 <= i < 1024 && !(f == K_TAB && i < 256) :: Rd(m, f, i) == 0
  }

  class Loader {
    var mem: Mem

    /** Clear the directory, then write entries 0, 768 and 1023. */
    method CreateDirectory()
      modifies this
      ensures Rd(mem, K_DIR, 0) == Entry(K_TAB) && Rd(mem, K_DIR, 768) == Entry(K_TAB) && Rd(mem, K_DIR, 1023) == Entry(K_DIR)
      ensures forall i | 0 <= i < 1024 && i !in {0, 768, 1023} :: Rd(mem, K_DIR, i) == 0
      ensures forall f: nat, i: nat | f != K_DIR :: Rd(mem, f, i) == Rd(old(mem), f, i)
    {
      var esi := 0;
      while esi < 1024
        invariant 0 <= esi <= 1024
        invariant forall i | 0 <= i < esi :: Rd(mem, K_DIR, i) == 0
        invariant forall f: nat, i: nat | f != K_DIR :: Rd(mem, f, i) == Rd(old(mem), f, i)
      {
        forall f: nat, i: nat { RdWr(mem, K_DIR, esi, 0, f, i); }
        mem := Wr(mem, K_DIR, esi, 0);
        esi := esi + 1;
      }
      ghost var m0 := mem;
      mem := Wr(mem, K_DIR, 0, Entry(K_TAB));
      ghost var m1 := mem;
      mem := Wr(mem, K_DIR, 768, Entry(K_TAB));
      ghost var m2 := mem;
      mem := Wr(mem, K_DIR, 1023, Entry(K_DIR));
      forall i | 0 <= i < 1024
        ensures Rd(mem, K_DIR, i) == if i == 1023 then Entry(K_DIR) else if i == 0 || i == 768 then Entry(K_TAB) else 0
      {
        RdWr(m0, K_DIR, 0, Entry(K_TAB), K_DIR, i);
        RdWr(m1, K_DIR, 768, Entry(K_TAB), K_DIR, i);
        RdWr(m2, K_DIR, 1023, Entry(K_DIR), K_DIR, i);
      }
    }

    /** Map the low megabyte to itself in the first table. */
    method CreateLowTable()
      modifies this
      ensures forall i | 0 <= i < 256 :: Rd(mem, K_TAB, i) == Entry(i)
      ensures forall f: nat, i: nat | f != K_TAB || i >= 256 :: Rd(mem, f, i) == Rd(old(mem), f, i)
    {
      var esi, edx := 0, 7;
      while esi < 256
        invariant 0 <= esi <= 256 && edx == Entry(esi)
        invariant forall i | 0 <= i < esi :: Rd(mem, K_TAB, i) == Entry(i)
        invariant forall f: nat, i: nat | f != K_TAB || i >= 256 :: Rd(mem, f, i) == Rd(old(mem), f, i)
      {
        mem := Wr(mem, K_TAB, esi, edx);
        edx := edx + 0x1000;
        esi := esi + 1;
      }
    }

    /** Point entries 769 .. 1022 at the tables that follow the first one. */
    method CreateKernelEntries()
      modifies this
      ensures forall i | 769 <= i < 1023 :: Rd(mem, K_DIR, i) == Entry(K_TAB + i - 768)
      ensures forall f: nat, i: nat | f != K_DIR || !(769 <= i < 1023) :: Rd(mem, f, i) == Rd(old(mem), f, i)
    {
      var ecx, esi, eax := 254, 769, 0x10_2007;
      while ecx > 0
        invariant 0 <= ecx <= 254 && esi == 769 + 254 - ecx && eax == Entry(K_TAB + esi - 768)
        invariant forall i | 769 <= i < esi :: Rd(mem, K_DIR, i) == Entry(K_TAB + i - 768)
        invariant forall f: nat, i: nat | f != K_DIR || !(769 <= i < esi) :: Rd(mem, f, i) == Rd(old(mem), f, i)
      {
        forall f: nat, i: nat { RdWr(mem, K_DIR, esi, eax, f, i); }
        mem := Wr(mem, K_DIR, esi, eax);
        esi := esi + 1;
        eax := eax + 0x1000;
        ecx := ecx - 1;
      }
    }

    /** The tables come out right exactly when the words left alone were zero. */
    method SetupPage()
      modifies this
      ensures BootTables(mem) <==> old(TablesBlank(mem))
      ensures forall f: nat, i: nat | f != K_DIR && !(f == K_TAB && i < 256) :: Rd(mem, f, i) == Rd(old(mem), f, i)
    {
      CreateDirectory();
      CreateLowTable();
      CreateKernelEntries();
      LowWords(mem);
      HeapWordsIff(old(mem), mem);
    }
  }

  lemma LowWords(m: Mem)
    requires forall i | 0 <= i < 256 :: Rd(m, K_TAB, i) == Entry(i)
    ensures forall n | K_BASE <= n < HEAP_BASE :: KWord(m, n) == Entry(n - K_BASE)
  {
    forall n | K_BASE <= n < HEAP_BASE ensures KWord(m, n) == Entry(n - K_BASE) {
      assert n / 1024 == 768 && n % 1024 == n - K_BASE;
    }
  }

  lemma HeapWordsIff(m0: Mem, m: Mem)
    requires forall f: nat, i: nat | f != K_DIR && !(f == K_TAB && i < 256) :: Rd(m, f, i) == Rd(m0, f, i)
    ensures TablesBlank(m0) <==> forall n | HEAP_BASE <= n < WINDOW :: KWord(m, n) == 0
  {
    if TablesBlank(m0) {
      forall n | HEAP_BASE <= n < WINDOW ensures KWord(m, n) == 0 {
        var f, i := KTableOf(n), n % 1024;
        assert 768 <= n / 1024 < 1023 && (f == K_TAB ==> i >= 256);
      }
    }
    if forall n | HEAP_BASE <= n < WINDOW :: KWord(m, n) == 0 {
      forall f, i | K_TAB <= f < POOL_BASE && 0 <= i < 1024 && !(f == K_TAB && i < 256) ensures Rd(m0, f, i) == 0 {
        var n := K_BASE + (f - K_TAB) * 1024 + i;
        assert n / 1024 == 768 + (f - K_TAB) && n % 1024 == i && HEAP_BASE <= n < WINDOW;
        assert KWord(m, n) == Rd(m, f, i);
      }
    }
  }

  /** Theorem: after setup_page the low megabyte is seen at 0 and at 0xc0000000, pde_ptr and pte_ptr
      work, and nothing else below the window is mapped. */
  lemma BootWalk(m: Mem, v: Word)
    requires BootTables(m)
    ensures SelfMap(m, K_DIR)
    ensures v < 0x10_0000 ==> Walk(m, K_DIR, v) == Some(v)
    ensures 0xc000_0000 <= v < 0xc010_0000 ==> Walk(m, K_DIR, v) == Some(v - 0xc000_0000)
    ensures 0x10_0000 <= v < 0xc000_0000 || 0xc010_0000 <= v < 0xffc0_0000 ==> Walk(m, K_DIR, v) == None
  {
    WalkByPage(m, K_DIR, v);
    var n := v / 0x1000;
    if v < 0xffc0_0000 {
      assert n < WINDOW;
      if n >= K_BASE { KernelPageOf(m, K_DIR, n); }
      else if n < 1024 {
        assert n / 1024 == 0 && KWord(m, n + K_BASE) == Rd(m, K_TAB, n % 1024) by { assert (n + K_BASE) / 1024 == 768; }
      }
    }
  }

  /** The frame and page numbers of the model against the addresses of the code. */
  lemma KernelNumbers()
    ensures K_DIR * 0x1000 == 0x10_0000 && K_TAB * 0x1000 == 0x10_1000 && POOL_BASE * 0x1000 == 0x20_0000
    ensures K_BASE * 0x1000 == 0xc000_0000 && HEAP_BASE * 0x1000 == 0xc010_0000 && WINDOW * 0x1000 == 0xffc0_0000
    ensures FRAMES * 0x1000 == U32 == 0x1_0000_0000 && U8 == 0x100
  {
  }

  // ---------- mem_pool_init ----------

  const BITMAP_BASE: nat := 0xc009_a000

  /** What mem_pool_init stores.  Bitmap lengths are in bytes, start addresses are physical for the
      pools and virtual for the bitmaps and the heap. */
  datatype Layout = Layout(kStart: nat, uStart: nat, kSize: nat, uSize: nat, kLen: nat, uLen: nat, vLen: nat,
                           kBits: nat, uBits: nat, vBits: nat, vStart: nat)

  /** Subtraction wraps at 32 bits and page counts are cut to 16 bits, as in the code. */
  function PoolInit(allMem: Word): Layout {
    var used := 0x1000 * 256 + 0x10_0000;
    var free := (allMem + U32 - used) % U32;
    var pages := free / 0x1000 % 0x1_0000;
    var kPages := pages / 2;
    var uPages := pages - kPages;
    var kLen, uLen := kPages / 8, uPages / 8;
    Layout(used, used + kPages * 0x1000, kPages * 0x1000, uPages * 0x1000, kLen, uLen, kLen,
           BITMAP_BASE, BITMAP_BASE + kLen, BITMAP_BASE + kLen + uLen, 0xc010_0000)
  }

  /** Both pools lie inside the first allMem bytes. */
  predicate PoolsInside(y: Layout, allMem: nat) {
    y.kStart + y.kSize <= allMem && y.uStart + y.uSize <= allMem
  }

  /** Theorem: the pools lie inside memory exactly when there are at least 2 MB of it.  With less the
      free size wraps around. */
  lemma PoolsInsideIff(allMem: Word)
    ensures PoolsInside(PoolInit(allMem), allMem) <==> allMem >= 0x20_0000
  {
    var used := 0x20_0000;
    var free := (allMem + U32 - used) % U32;
    if allMem >= used {
      assert free == allMem - used;
      assert free / 0x1000 % 0x1_0000 <= free / 0x1000;
    } else {
      assert free == allMem + U32 - used && free / 0x1000 >= 0xf_fe00;
      assert free / 0x1000 % 0x1_0000 >= 0xfe00;
    }
  }

  /** Theorem: given 2 MB, the pools leave less than a page of memory unused exactly up to 258 MB; the
      16-bit page count loses the rest, although four pages of bitmap would do for 512 MB.  What is lost is
      a multiple of 256 MB and less than a page. */
  lemma PoolsCoverIff(allMem: Word)
    requires allMem >= 0x20_0000
    ensures allMem - (PoolInit(allMem).uStart + PoolInit(allMem).uSize) < 0x1000 <==> allMem < 0x20_0000 + 0x1000_0000
    ensures 0 <= (allMem - (PoolInit(allMem).uStart + PoolInit(allMem).uSize)) % 0x1000_0000 < 0x1000
    ensures PoolInit(allMem).kSize + PoolInit(allMem).uSize < 0x1000_0000
  {
    var free := allMem - 0x20_0000;
    assert (allMem + U32 - 0x20_0000) % U32 == free;
    var pages := free / 0x1000;
    if free < 0x1000_0000 {
      assert pages < 0x1_0000 && pages % 0x1_0000 == pages;
    } else {
      assert pages >= 0x1_0000 && pages % 0x1_0000 < 0x1_0000;
    }
  }

  /** Theorem: for every memory size the pools start where the boot tables end and do not overlap,
      every bit of a pool's bitmap names a whole frame of that pool, the three bitmaps follow one
      another and end, with the byte the scan may look at beyond the last, below the PCB of the
      first thread, and the heap has as many pages as the kernel pool has frames and ends below the
      recursive window. */
  lemma PoolLayoutBounds(allMem: Word, i: nat)
    ensures var y := PoolInit(allMem);
      && y.kStart == (K_TAB + 255) * 0x1000 == 0x20_0000 && y.kStart + y.kSize == y.uStart
      && y.kBits == 0xc009_a000 && y.vStart == 0xc010_0000
      && (i < 8 * y.kLen ==> y.kStart <= y.kStart + i * 0x1000 && y.kStart + i * 0x1000 + 0x1000 <= y.uStart)
      && (i < 8 * y.uLen ==> y.uStart + i * 0x1000 + 0x1000 <= y.uStart + y.uSize)
      && y.kBits + y.kLen == y.uBits && y.uBits + y.uLen == y.vBits && y.vBits + y.vLen < 0xc009_e000
      && y.vStart + 8 * y.vLen * 0x1000 + 0x1000 <= 0xffc0_0000
      && y.uSize - y.kSize in {0, 0x1000} && y.vLen == y.kLen
      && y.kSize - 8 * y.kLen * 0x1000 < 8 * 0x1000 && y.uSize - 8 * y.uLen * 0x1000 < 8 * 0x1000
  {
  }

  /** The memory manager's state after mem_init on the loader's tables. */
  function StartMM(m: Mem, allMem: Word): MM {
    var y := PoolInit(allMem);
    MM(m, K_DIR, Pool(y.kStart / 0x1000, seq(8 * y.kLen + 1, _ => false)), Pool(y.uStart / 0x1000, seq(8 * y.uLen + 1, _ => false)),
       VSpace(y.vStart / 0x1000, seq(8 * y.vLen + 1, _ => false)), map[], None)
  }

  /** Theorem: what boot leaves behind is an initial state of the memory manager, so every theorem
      about its runs applies, for every memory size. */
  lemma BootIsInit(m: Mem, allMem: Word)
    requires BootTables(m)
    ensures InitMM(StartMM(m, allMem)) && MMInv(StartMM(m, allMem)) && Reachable(StartMM(m, allMem))
  {
    PoolLayoutBounds(allMem, 0);
    var mm := StartMM(m, allMem);
    hide BootTables, MMInv;
    assert PoolsOk(mm) by { StartPools(m, allMem); }
    InitMMInv(mm);
    assert Runs(mm, [], mm);
  }

  lemma StartPools(m: Mem, allMem: Word)
    ensures PoolsOk(StartMM(m, allMem))
  {
  }

  /** With 2 MB or more every frame of either pool lies inside memory. */
  lemma FramesInside(m: Mem, allMem: Word, f: nat)
    requires allMem >= 0x20_0000
    requires InPool(StartMM(m, allMem).kpool, f) || InPool(StartMM(m, allMem).upool, f)
    ensures POOL_BASE <= f && f * 0x1000 + 0x1000 <= allMem
  {
    PoolsInsideIff(allMem);
  }

  /** The bitmaps sit in the low megabyte that the boot tables map, away from both pools. */
  lemma BitmapsMapped(m: Mem, allMem: Word, a: Word)
    requires BootTables(m) && BITMAP_BASE <= a <= PoolInit(allMem).vBits + PoolInit(allMem).vLen
    ensures Walk(m, K_DIR, a) == Some(a - 0xc000_0000) && (a - 0xc000_0000) / 0x1000 < K_DIR
  {
    PoolLayoutBounds(allMem, 0);
    BootWalk(m, a);
  }

  /** The byte get_a_page changes when a kernel thread asks for the page at v. */
  function HeapByte(allMem: Word, v: Word): nat {
    PoolInit(allMem).vBits + PageIndex(VSpace(HEAP_BASE, []), v) / 8
  }

  /** Outside the heap's bitmap get_a_page does not stop: it changes a byte behind the bitmap, up to
      128 KB from its start, and then maps the page. */
  lemma HeapBitOutside(m: Mem, allMem: Word, v: Word)
    ensures var y, mm := PoolInit(allMem), StartMM(m, allMem);
      && (InBitmap(mm, PfKernel, v) <==> y.vBits <= HeapByte(allMem, v) < y.vBits + y.vLen)
      && (InBitmap(mm, PfKernel, v) <==> HEAP_BASE <= v / 0x1000 < HEAP_BASE + 8 * y.vLen)
      && HeapByte(allMem, v) < y.vBits + 0x2_0000
  {
    PoolLayoutBounds(allMem, 0);
    HeapIndex(v, 8 * PoolInit(allMem).vLen);
    HeapSpace(m, allMem, v);
    hide PoolInit, PageIndex;
  }

  lemma HeapIndex(v: Word, size: nat)
    requires HEAP_BASE + size <= WINDOW
    ensures var i := PageIndex(VSpace(HEAP_BASE, []), v);
      && i < 0x10_0000 && (i < size <==> HEAP_BASE <= v / 0x1000 < HEAP_BASE + size)
  {
  }

  lemma HeapSpace(m: Mem, allMem: Word, v: Word)
    ensures InBitmap(StartMM(m, allMem), PfKernel, v) <==> PageIndex(VSpace(HEAP_BASE, []), v) < 8 * PoolInit(allMem).vLen
  {
    assert PageIndex(VSpace(HEAP_BASE, []), v) == PageIndex(StartMM(m, allMem).kv, v);
    hide PageIndex;
  }

  /** The byte of its own bitmap, counted from the bitmap's start, that get_a_page changes when a process
      asks for the page at v. */
  function UserByte(v: Word): nat { PageIndex(VSpace(USER_BASE, []), v) / 8 }

  /** For a process too the code changes a byte behind the bitmap, exactly when the address is not between
      the first user page and kernel space; that byte can lie up to nine pages behind the pages the bitmap
      was given. */
  lemma UserBitOutside(mm: MM, p: Pid, v: Word)
    requires MMInv(mm) && mm.cur == Some(p)
    ensures InBitmap(mm, PfUser, v) <==> UserByte(v) < USER_PAGES / 8
    ensures InBitmap(mm, PfUser, v) <==> USER_BASE <= v / 0x1000 < K_BASE
    ensures UserByte(v) < (BITMAP_PAGES + 9) * 0x1000
  {
    assert ProcShape(mm, mm.procs[p]);
    hide MMInv;
    var vs := mm.procs[p].vs;
    assert PageIndex(VSpace(USER_BASE, []), v) == PageIndex(vs, v) && |vs.bits| - 1 == USER_PAGES;
    UserIndex(v);
    assert USER_PAGES == 8 * (USER_PAGES / 8);
  }
}
