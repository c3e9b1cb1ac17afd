/**
 How far the kernel's memory reaches.  The heap has a page for every frame of the kernel pool, so addresses
 never run out before frames do.
 */
module MemorySupply {
  import opened Words
  import opened Bitmap
  import opened Paging
  import opened VirtualMemory
  import opened MemoryInv
  import opened MemorySteps
  import opened MemoryRuns
  import opened MemoryCalls
  import opened MemoryOps
  import opened MemoryTheorems
  import opened Boot

  // ---------- counting ----------

  predicate Distinct(xs: seq<int>) { forall i, j | 0 <= i < j < |xs| :: xs[i] != xs[j] }

  function Below(n: nat): (s: set<int>)
    ensures |s| == n && forall x :: x in s <==> 0 <= x < n
  {
    if n == 0 then {} else Below(n - 1) + {n - 1}
  }

  lemma {:induction false} ElementsSize(xs: seq<int>)
    requires Distinct(xs)
    ensures |set x | x in xs| == |xs|
  {
    if xs != [] {
      var last := |xs| - 1;
      ElementsSize(xs[..last]);
      assert (set x | x in xs) == (set x | x in xs[..last]) + {xs[last]} by { assert xs == xs[..last] + [xs[last]]; }
      assert xs[last] !in xs[..last];
    }
  }

  /** n different numbers below n are all the numbers below n. */
  lemma AllBelow(xs: seq<int>, y: int)
    requires Distinct(xs) && (forall x | x in xs :: 0 <= x < |xs|) && 0 <= y < |xs|
    ensures y in xs
  {
    ElementsSize(xs);
    var elements := set x | x in xs;
    var numbers := Below(|xs|);
    SameSets(elements, numbers);
    assert y in numbers;
  }

  lemma SameSets(a: set<int>, b: set<int>)
    requires a <= b && |a| == |b|
    ensures a == b
  {
    assert a + (b - a) == b && a * (b - a) == {};
    assert |b - a| == 0;
  }

  // ---------- the heap never fills up first ----------

  /** The place in the kernel pool of the frame behind page i of the heap. */
  function HeapSlot(mm: MM, i: nat): int { FrameOf(KWord(mm.mem, HEAP_BASE + i)) - mm.kpool.start }

  lemma SlotInPool(mm: MM, i: nat)
    requires MMInv(mm) && i < |mm.kv.bits| - 1 && mm.kv.bits[i]
    ensures 0 <= HeapSlot(mm, i) < PoolSize(mm.kpool) && Taken(mm.kpool, mm.kpool.start + HeapSlot(mm, i))
    ensures UseFrame(mm, KPage(HEAP_BASE + i)) == Some(FrameOf(KWord(mm.mem, HEAP_BASE + i)))
  {
    KernelBit(mm, HEAP_BASE + i);
    UsedIsTaken(mm, KPage(HEAP_BASE + i));
    hide UsesOk, KernelPages, KernelDir, ProcsOk;
  }

  lemma SlotsDiffer(mm: MM, i: nat, j: nat)
    requires MMInv(mm) && i < j < |mm.kv.bits| - 1 && mm.kv.bits[i] && mm.kv.bits[j]
    ensures HeapSlot(mm, i) != HeapSlot(mm, j)
  {
    SlotInPool(mm, i);
    SlotInPool(mm, j);
    hide KernelPages, KernelDir, ProcsOk;
    UsesDiffer(mm, KPage(HEAP_BASE + i), KPage(HEAP_BASE + j));
  }

  /** When every page of the heap is in use, so is every frame of the kernel pool. */
  lemma FullHeap(mm: MM)
    requires MMInv(mm) && forall i | 0 <= i < |mm.kv.bits| - 1 :: mm.kv.bits[i]
    ensures Free(mm.kpool) == 0
  {
    hide UsesOk, KernelPages, KernelDir, ProcsOk, Cr3Ok, HeapSlot, Free, Palloc;
    var n := |mm.kv.bits| - 1;
    var slots := seq(n, i requires 0 <= i < n => HeapSlot(mm, i));
    forall i, j | 0 <= i < j < n ensures slots[i] != slots[j] { SlotsDiffer(mm, i, j); }
    forall x | x in slots ensures 0 <= x < n {
      var i :| 0 <= i < n && slots[i] == x;
      SlotInPool(mm, i);
    }
    forall f: nat | InPool(mm.kpool, f) ensures Taken(mm.kpool, f) {
      AllBelow(slots, f - mm.kpool.start);
      var i :| 0 <= i < n && slots[i] == f - mm.kpool.start;
      SlotInPool(mm, i);
    }
    PallocEffect(mm.kpool);
  }

  // ---------- single pages ----------

  /** get_kernel_pages(1) answers a page. */
  predicate Gives(mm: MM) { Sized(mm) && var r := GetPages(mm, PfKernel, 1); r.Ok? && r.value.1.Some? }

  lemma OneFits(mm: MM)
    requires MMInv(mm)
    ensures SpaceScan(mm, PfKernel, 1).Some? && SpaceScan(mm, PfKernel, 1) != Some(NotFound)
    ensures SpaceScan(mm, PfKernel, 1) == Some(Halted) ==> Free(mm.kpool) == 0
  {
    hide Free, Scan;
    InvPools(mm);
    var bits := mm.kv.bits;
    ScanIsFirstFit(bits, 1);
    if Scan(bits, 1) == Halted { FullHeap(mm); }
    if i: nat :| i < |bits| - 1 && !bits[i] { assert FreeRun(bits, i, 1); }
  }

  /** Theorem: in every reachable state a page for the kernel is there exactly while a frame of its pool is
      free; otherwise the machine stops, and null is never the answer. */
  lemma KernelPageIff(mm: MM)
    requires Reachable(mm)
    ensures Gives(mm) <==> Free(mm.kpool) > 0
    ensures Sized(mm) && (GetPages(mm, PfKernel, 1).Stopped? <==> Free(mm.kpool) == 0)
  {
    hide MMInv, Reachable;
    ReachableInv(mm);
    OnePageIff(mm);
  }

  lemma OnePageIff(mm: MM)
    requires MMInv(mm)
    ensures Gives(mm) <==> Free(mm.kpool) > 0
    ensures Sized(mm) && (GetPages(mm, PfKernel, 1).Stopped? <==> Free(mm.kpool) == 0)
    ensures Gives(mm) ==> var mm' := GetPages(mm, PfKernel, 1).value.0; MMInv(mm') && Free(mm.kpool) == Free(mm'.kpool) + 1
  {
    hide MMInv, GetPages, UseFrame, Mapped, SpaceScan, Free, Zeroed;
    GetPagesKeeps(mm, PfKernel, 1);
    OneFits(mm);
  }

  /** n calls of get_kernel_pages(1) in a row all answer a page. */
  ghost predicate Supplies(mm: MM, n: nat)
    decreases n
  {
    n == 0 || (Gives(mm) && Supplies(GetPages(mm, PfKernel, 1).value.0, n - 1))
  }

  lemma {:induction false} SuppliesIff(mm: MM, n: nat)
    requires MMInv(mm)
    ensures Supplies(mm, n) <==> n <= Free(mm.kpool)
    decreases n
  {
    hide MMInv, GetPages, Free;
    OnePageIff(mm);
    if n > 0 && Gives(mm) { SuppliesIff(GetPages(mm, PfKernel, 1).value.0, n - 1); }
  }

  lemma {:induction false} AllClear(n: nat)
    ensures CountClear(seq(n, _ => false)) == n
  {
    if n > 0 {
      assert seq(n, _ => false)[1..] == seq(n - 1, _ => false);
      AllClear(n - 1);
    }
  }

  /** Theorem: after boot exactly as many pages can be had for the kernel, one by one, as its pool has
      frames. */
  lemma KernelPagesFromBoot(m: Mem, allMem: Word, n: nat)
    requires BootTables(m)
    ensures Supplies(StartMM(m, allMem), n) <==> n <= 8 * PoolInit(allMem).kLen
    ensures PoolSize(StartMM(m, allMem).kpool) == 8 * PoolInit(allMem).kLen == |StartMM(m, allMem).kv.bits| - 1
  {
    hide BootTables, MMInv, InitMM, Reachable, Supplies;
    BootIsInit(m, allMem);
    PoolLayoutBounds(allMem, 0);
    var mm, size := StartMM(m, allMem), 8 * PoolInit(allMem).kLen;
    hide PoolInit;
    SuppliesIff(mm, n);
    AllClear(size);
    assert mm.kpool.bits[..size] == seq(size, _ => false);
  }

  // ---------- a new process ----------

  /** 23 pages in a row are free in the heap once the first free page of it is taken. */
  ghost predicate RoomForBitmap(mm: MM) {
    |mm.kv.bits| >= 1 && match Scan(mm.kv.bits, 1)
      case Found(i) => i < |mm.kv.bits| && HasRun(mm.kv.bits[i := true], BITMAP_PAGES)
      case _ => false
  }

  /** The heap's bitmap after an allocation: the run is marked and nothing else. */
  lemma HeapAfter(mm: MM, cnt: nat)
    requires Sized(mm)
    ensures var r := GetPages(mm, PfKernel, cnt);
      r.Ok? && r.value.1.Some? ==>
        && 0 < cnt && Scan(mm.kv.bits, cnt).Found? && Scan(mm.kv.bits, cnt).start + cnt <= |mm.kv.bits|
        && r.value.0.kv.bits == SetRun(mm.kv.bits, Scan(mm.kv.bits, cnt).start, cnt)
  {
    hide MapPages, ClearPages, Scan, SetRun;
  }

  lemma FirstPage(mm: MM)
    requires MMInv(mm)
    ensures Gives(mm) ==> RoomForBitmap(mm) == HasRun(GetPages(mm, PfKernel, 1).value.0.kv.bits, BITMAP_PAGES)
  {
    hide MMInv, GetPages, Scan;
    InvSized(mm);
    HeapAfter(mm, 1);
    if Gives(mm) {
      var bits := mm.kv.bits;
      var st := Scan(bits, 1).start;
      assert SetRun(bits, st, 1) == bits[st := true];
    }
  }

  /** get_kernel_pages(cnt) answers pages exactly if the heap has a run for them and the pool the frames. */
  lemma RunIff(mm: MM, cnt: nat)
    requires MMInv(mm) && 2 <= cnt < 3840
    ensures Sized(mm)
    ensures var r := GetPages(mm, PfKernel, cnt);
      && (r.Ok? && r.value.1.Some? <==> HasRun(mm.kv.bits, cnt) && Free(mm.kpool) >= cnt)
      && (r.Ok? && r.value.1.Some? ==> MMInv(r.value.0) && Free(mm.kpool) == Free(r.value.0.kpool) + cnt)
  {
    hide MMInv, GetPages, UseFrame, Mapped, Free, Zeroed, Scan;
    GetPagesKeeps(mm, PfKernel, cnt);
    InvPools(mm);
    RunFound(mm.kv.bits, cnt);
  }

  lemma RunFound(bits: seq<bool>, cnt: nat)
    requires |bits| >= 1 && cnt >= 2
    ensures Scan(bits, cnt).Found? <==> HasRun(bits, cnt)
  {
    ScanIsFirstFit(bits, cnt);
    hide Scan;
    if HasRun(bits, cnt) {
      var st: nat :| FreeRun(bits, st, cnt);
      assert !bits[st] && st < |bits| - 1;
    }
  }

  lemma DirGiven(mm: MM)
    requires MMInv(mm)
    ensures Sized(mm)
    ensures var r := CreatePageDir(mm);
      && (r.Ok? && r.value.1.Some? <==> Free(mm.kpool) > 0)
  {
    hide MMInv, GetPages, FilledDir, MadeDir, Free;
    OnePageIff(mm);
    CreatePageDirKeeps(mm);
    DirStops(mm);
  }

  /** create_page_dir fails only where its page is not given. */
  lemma DirStops(mm: MM)
    requires MMInv(mm)
    ensures Gives(mm) ==> CreatePageDir(mm).Ok? && CreatePageDir(mm).value.1.Some?
  {
    hide MMInv, GetPages, GotPages, Zeroed, UseFrame, NewDir, OnlyFrame;
    GetPagesKeeps(mm, PfKernel, 1);
    if Gives(mm) {
      var mm1, n := GetPages(mm, PfKernel, 1).value.0, GetPages(mm, PfKernel, 1).value.1.value;
      GotData(mm, mm1, PfKernel, n, 1);
      GotZero(mm, mm1, n);
      FillDir(mm1, n);
      FrameSmall(mm1, KPage(n));
    }
  }

  /** Theorem: process_execute makes a process exactly if 25 kernel frames are free and the heap has room for
      the 23 pages of its bitmap, and it takes exactly those frames. */
  lemma ExecuteIff(mm: MM, pid: Pid)
    requires MMInv(mm) && pid !in mm.procs
    ensures Sized(mm)
    ensures ProcessExecute(mm, pid).Ok? <==> Free(mm.kpool) >= PROCESS_FRAMES && RoomForBitmap(mm)
  {
    hide MMInv, GetPages, CreatePageDir, ProcessExecute, Free, RoomForBitmap, Scan;
    OnePageIff(mm);
    ExecuteShape(mm, pid);
    if Gives(mm) {
      FirstPage(mm);
      var mm1 := GetPages(mm, PfKernel, 1).value.0;
      RunIff(mm1, BITMAP_PAGES);
      var r2 := GetPages(mm1, PfKernel, BITMAP_PAGES);
      if r2.Ok? {
        GetPagesKeeps(mm1, PfKernel, BITMAP_PAGES);
        GotInv(mm1, r2);
        DirGiven(r2.value.0);
      }
    }
  }

  lemma GotInv(mm: MM, r: Outcome<(MM, Option<nat>)>)
    requires MMInv(mm) && r.Ok? && (r.value.1 == None ==> r.value.0 == mm)
    requires r.value.1.Some? ==> GotPages(mm, r.value.0, PfKernel, r.value.1.value, BITMAP_PAGES)
    ensures MMInv(r.value.0) && Sized(r.value.0)
  {
    hide MMInv;
    InvSized(r.value.0);
  }
}
