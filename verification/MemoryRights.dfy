/**
 What user mode may do.  The kernel gives every entry it writes, and the loader every entry it writes, the
 same rights; so a mapped address is one that user mode may read and write, in every directory.
 */
module MemoryRights {
  import opened Words
  import opened Paging
  import opened VirtualMemory
  import opened MemoryInv
  import opened MemorySteps
  import opened MemoryTheorems

  lemma EntryIsClean(f: nat)
    requires f < FRAMES
    ensures Clean(Entry(f))
  {
  }

  /** Every entry of a directory is one the kernel writes, or zero. */
  lemma DirIsClean(mm: MM, d: nat, i: nat)
    requires MMInv(mm) && IsDir(mm, d) && i < 1024
    ensures Clean(Rd(mm.mem, d, i))
  {
    hide UsesOk, KernelPages, Entry, Clean, DirOf;
    ZeroIsClean();
    DirFacts(mm, d);
    if 768 <= i < 1023 {
      EntryIsClean(K_TAB + i - 768);
    } else if d != K_DIR {
      var p :| p in mm.procs && d == DirOf(mm.mem, mm.procs[p]);
      ProcDirIsClean(mm, p, i);
    } else {
      hide ProcsOk;
      EntryIsClean(K_TAB);
      EntryIsClean(K_DIR);
    }
  }

  lemma ProcDirIsClean(mm: MM, p: Pid, i: nat)
    requires MMInv(mm) && p in mm.procs && (i < 768 || i == 1023)
    ensures Clean(Rd(mm.mem, DirOf(mm.mem, mm.procs[p]), i))
  {
    DirUse(mm, p);
    hide MMInv;
    EntryIsClean(DirOf(mm.mem, mm.procs[p]));
  }

  lemma ZeroIsClean()
    ensures Clean(0)
  {
  }

  lemma KernelWordIsClean(mm: MM, n: nat)
    requires MMInv(mm) && K_BASE <= n < WINDOW
    ensures Clean(KWord(mm.mem, n))
  {
    assert KWordOk(mm.mem, mm.kv, n);
    hide MMInv;
    if n < HEAP_BASE { EntryIsClean(n - K_BASE); }
  }

  /** Every entry of a table a directory names is one the kernel writes, or zero. */
  lemma TableIsClean(mm: MM, d: nat, v: Word)
    requires MMInv(mm) && IsDir(mm, d) && Present(Pde(mm.mem, d, v))
    ensures Clean(Rd(mm.mem, FrameOf(Pde(mm.mem, d, v)), PteIdx(v)))
  {
    hide UsesOk, KernelPages, Entry, Clean;
    DirFacts(mm, d);
    var n := v / 0x1000;
    assert n / 1024 == PdeIdx(v) && n % 1024 == PteIdx(v);
    if PdeIdx(v) == 1023 {
      DirIsClean(mm, d, PteIdx(v));
    } else if PdeIdx(v) >= 768 {
      KernelWordIsClean(mm, n);
      KernelPageOf(mm.mem, d, n);
    } else if d == K_DIR {
      LowTable(mm, v);
    } else {
      var p :| p in mm.procs && d == DirOf(mm.mem, mm.procs[p]);
      DirUse(mm, p);
      assert Clean(PageWord(mm.mem, d, n));
    }
  }

  /** Below kernel space the boot directory has the first kernel table at 0 and nothing else. */
  lemma LowTable(mm: MM, v: Word)
    requires MMInv(mm) && PdeIdx(v) < 768 && Present(Pde(mm.mem, K_DIR, v))
    ensures Clean(Rd(mm.mem, FrameOf(Pde(mm.mem, K_DIR, v)), PteIdx(v)))
  {
    hide UsesOk, KernelPages, Clean, ProcsOk;
    assert PdeIdx(v) == 0;
    var n := K_BASE + PteIdx(v);
    assert n / 1024 == 768 && n % 1024 == PteIdx(v);
    KernelWordIsClean(mm, n);
  }

  lemma CleanPermits(w: Word, write: bool)
    requires Clean(w)
    ensures Permits(w, write) <==> Present(w)
  {
    hide Entry;
    if Present(w) { EntryPermits(FrameOf(w), write); }
  }

  lemma RightsHold(mm: MM, d: nat, v: Word, write: bool)
    requires MMInv(mm) && IsDir(mm, d)
    ensures UserMay(mm.mem, d, v, write) <==> Walk(mm.mem, d, v).Some?
  {
    hide MMInv, Clean, Permits, IsDir;
    IndexBounds(v);
    DirIsClean(mm, d, PdeIdx(v));
    var pde := Pde(mm.mem, d, v);
    CleanPermits(pde, write);
    if Present(pde) {
      TableIsClean(mm, d, v);
      CleanPermits(Rd(mm.mem, FrameOf(pde), PteIdx(v)), write);
    }
  }

  /** Theorem: in every reachable state, in the boot directory and in that of every process, user mode may
      read and write exactly the addresses that are mapped: its own pages, and the kernel's as well. */
  lemma UserRights(mm: MM, p: Option<Pid>, v: Word, write: bool)
    requires Reachable(mm) && (p.Some? ==> p.value in mm.procs)
    ensures var d := if p.Some? then DirOf(mm.mem, mm.procs[p.value]) else K_DIR;
      UserMay(mm.mem, d, v, write) <==> Walk(mm.mem, d, v).Some?
  {
    hide MMInv, Reachable, UserMay, Walk;
    ReachableInv(mm);
    var d := if p.Some? then DirOf(mm.mem, mm.procs[p.value]) else K_DIR;
    assert IsDir(mm, d);
    RightsHold(mm, d, v, write);
  }
}
