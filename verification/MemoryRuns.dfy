/**
 The allocation calls keep the invariant, and exactly what each of them maps and consumes.
 */
module MemoryRuns {
  import opened Words
  import opened Paging
  import opened VirtualMemory
  import opened MemoryInv
  import opened MemorySteps

  // ---------- what an allocation may add ----------

  /** The use that page n of the kernel heap, or of process p, makes of its frame. */
  function PageUse(pf: PoolFlag, p: Pid, n: nat): Use {
    if pf == PfKernel then KPage(n) else UPage(p, n)
  }

  /** The uses that an allocation of cnt pages from n on may bring in: the pages themselves,
      and for a process the tables of the 4 MB regions they lie in. */
  predicate MayAdd(pf: PoolFlag, p: Pid, n: nat, cnt: nat, u: Use) {
    || (exists x | n <= x < n + cnt :: u == PageUse(pf, p, x))
    || (pf == PfUser && u.UTable? && u.p == p && cnt > 0 && n / 1024 <= u.i <= (n + cnt - 1) / 1024)
  }

  /** Old mappings stay, the cnt pages were unmapped and are mapped now, and nothing else is new. */
  ghost predicate Mapped(mm: MM, mm': MM, pf: PoolFlag, p: Pid, n: nat, cnt: nat) {
    && (forall u :: UseFrame(mm, u).Some? ==> UseFrame(mm', u) == UseFrame(mm, u))
    && (forall u :: UseFrame(mm', u).Some? && UseFrame(mm, u) == None ==> MayAdd(pf, p, n, cnt, u))
    && (forall x: nat | n <= x < n + cnt :: UseFrame(mm, PageUse(pf, p, x)) == None && UseFrame(mm', PageUse(pf, p, x)).Some?)
  }

  lemma MappedNone(mm: MM, mm': MM, pf: PoolFlag, p: Pid, n: nat)
    requires forall u :: UseFrame(mm', u) == UseFrame(mm, u)
    ensures Mapped(mm, mm', pf, p, n, 0)
  {
  }

  lemma MappedOne(mm: MM, mm': MM, pf: PoolFlag, p: Pid, n: nat, nu: map<Use, nat>)
    requires UsesExtended(mm, mm', nu) && PageUse(pf, p, n) in nu
    requires forall u | u in nu :: u == PageUse(pf, p, n) || (pf == PfUser && u == UTable(p, n / 1024))
    ensures Mapped(mm, mm', pf, p, n, 1)
  {
    forall u | UseFrame(mm', u).Some? && UseFrame(mm, u) == None ensures MayAdd(pf, p, n, 1, u) {
      assert u in nu;
    }
  }

  lemma MappedThen(mm: MM, mm1: MM, mm': MM, pf: PoolFlag, p: Pid, n: nat, cnt: nat)
    requires cnt >= 1 && Mapped(mm, mm1, pf, p, n, 1) && Mapped(mm1, mm', pf, p, n + 1, cnt - 1)
    ensures Mapped(mm, mm', pf, p, n, cnt)
  {
    forall u | UseFrame(mm', u).Some? && UseFrame(mm, u) == None ensures MayAdd(pf, p, n, cnt, u) {
      if UseFrame(mm1, u).Some? {
        assert MayAdd(pf, p, n, 1, u);
      } else {
        assert MayAdd(pf, p, n + 1, cnt - 1, u);
      }
    }
    forall x: nat | n <= x < n + cnt ensures UseFrame(mm, PageUse(pf, p, x)) == None && UseFrame(mm', PageUse(pf, p, x)).Some? {
      var u := PageUse(pf, p, x);
      if x == n {
        assert UseFrame(mm', u) == UseFrame(mm1, u);
      } else {
        if UseFrame(mm, u).Some? { assert UseFrame(mm1, u) == UseFrame(mm, u); }
      }
    }
  }

  // ---------- runs of pages ----------

  function KernelRun(mm: MM, m: Mem, k: Pool, n: nat, cnt: nat): MM
    requires HEAP_BASE <= n && n + cnt <= HEAP_BASE + |mm.kv.bits|
  {
    mm.(mem := m, kpool := k, kv := mm.kv.(bits := SetRun(mm.kv.bits, n - HEAP_BASE, cnt)))
  }

  /** The kernel pages from n on are not mapped yet. */
  ghost predicate KernelFree(m: Mem, n: nat, cnt: nat) {
    K_BASE <= n && forall x: nat | n <= x < n + cnt :: !Present(KWord(m, x))
  }

  /** The outcome of mapping a run of kernel pages. */
  ghost predicate KernelRunOk(mm: MM, n: nat, cnt: nat, r: Outcome<(Mem, Pool, Pool)>)
    requires HEAP_BASE <= n && n + cnt <= HEAP_BASE + |mm.kv.bits|
  {
    && (r.Stopped? ==> r.why == PoolFull && Free(mm.kpool) < cnt)
    && (r.Ok? ==>
          && r.value.2 == mm.upool && |r.value.1.bits| == |mm.kpool.bits|
          && MMInv(KernelRun(mm, r.value.0, r.value.1, n, cnt))
          && Mapped(mm, KernelRun(mm, r.value.0, r.value.1, n, cnt), PfKernel, 0, n, cnt)
          && Free(mm.kpool) == Free(r.value.1) + cnt)
  }

  lemma MapKernelFirst(mm: MM, n: nat, cnt: nat)
    requires MMInv(mm) && HEAP_BASE <= n && cnt >= 1 && n + cnt <= HEAP_BASE + |mm.kv.bits| && KernelFree(mm.mem, n, cnt)
    ensures PoolsOk(mm)
    ensures var r := MapPage(mm.mem, mm.cr3, mm.kpool, mm.upool, PfKernel, n);
      && KernelRunOk(mm, n, 1, r)
      && (r.Ok? ==> KernelFree(r.value.0, n + 1, cnt - 1))
  {
    hide MMInv, MapPage, Palloc, UsesExtended, UseFrame, Mapped;
    InvPools(mm);
    MapKernelWord(mm, n);
    PallocEffect(mm.kpool);
    var r := MapPage(mm.mem, mm.cr3, mm.kpool, mm.upool, PfKernel, n);
    if r.Ok? {
      MapKernelKeeps(mm, n);
      var (k1, f) := Palloc(mm.kpool).value;
      var mm1 := MapOneKernel(mm, n, f, k1);
      KernelWordKeeps(mm, mm1.mem, n, Entry(f));
      assert mm1.kv.bits == SetRun(mm.kv.bits, n - HEAP_BASE, 1);
      assert mm1 == KernelRun(mm, r.value.0, r.value.1, n, 1);
      MappedOne(mm, mm1, PfKernel, 0, n, map[KPage(n) := f]);
    }
  }

  lemma RunSplits(bits: seq<bool>, st: nat, cnt: nat)
    requires cnt >= 1 && st + cnt <= |bits|
    ensures SetRun(bits, st, cnt) == SetRun(SetRun(bits, st, 1), st + 1, cnt - 1)
  {
  }

  lemma MapPagesStep(m: Mem, dir: nat, k: Pool, u: Pool, pf: PoolFlag, n: nat, cnt: nat)
    requires |k.bits| >= 1 && |u.bits| >= 1 && cnt >= 1
    ensures var r := MapPage(m, dir, k, u, pf, n);
      && (r.Ok? ==> |r.value.1.bits| == |k.bits| && |r.value.2.bits| == |u.bits|)
      && MapPages(m, dir, k, u, pf, n, cnt) ==
         if r.Stopped? then Stopped(r.why) else MapPages(r.value.0, dir, r.value.1, r.value.2, pf, n + 1, cnt - 1)
  {
    MapPageKeepsSizes(m, dir, k, u, pf, n);
    hide MapPage;
  }

  lemma KernelRunSplits(mm: MM, m1: Mem, k1: Pool, m: Mem, k: Pool, n: nat, cnt: nat)
    requires HEAP_BASE <= n && cnt >= 1 && n + cnt <= HEAP_BASE + |mm.kv.bits|
    ensures |KernelRun(mm, m1, k1, n, 1).kv.bits| == |mm.kv.bits|
    ensures KernelRun(KernelRun(mm, m1, k1, n, 1), m, k, n + 1, cnt - 1) == KernelRun(mm, m, k, n, cnt)
  {
    RunSplits(mm.kv.bits, n - HEAP_BASE, cnt);
  }

  lemma KernelRunNone(mm: MM, n: nat)
    requires MMInv(mm) && HEAP_BASE <= n <= HEAP_BASE + |mm.kv.bits|
    ensures KernelRunOk(mm, n, 0, Ok((mm.mem, mm.kpool, mm.upool)))
  {
    hide MMInv;
    assert KernelRun(mm, mm.mem, mm.kpool, n, 0) == mm;
    MappedNone(mm, mm, PfKernel, 0, n);
  }

  lemma KernelRunStep(mm: MM, n: nat, cnt: nat, r1: Outcome<(Mem, Pool, Pool)>, r: Outcome<(Mem, Pool, Pool)>)
    requires HEAP_BASE <= n && cnt >= 1 && n + cnt <= HEAP_BASE + |mm.kv.bits| && r1.Ok?
    requires KernelRunOk(mm, n, 1, r1) && |KernelRun(mm, r1.value.0, r1.value.1, n, 1).kv.bits| == |mm.kv.bits|
    requires KernelRunOk(KernelRun(mm, r1.value.0, r1.value.1, n, 1), n + 1, cnt - 1, r)
    ensures KernelRunOk(mm, n, cnt, r)
  {
    hide MMInv, Mapped, Free;
    if r.Ok? {
      var mm1 := KernelRun(mm, r1.value.0, r1.value.1, n, 1);
      KernelRunSplits(mm, r1.value.0, r1.value.1, r.value.0, r.value.1, n, cnt);
      MappedThen(mm, mm1, KernelRun(mm1, r.value.0, r.value.1, n + 1, cnt - 1), PfKernel, 0, n, cnt);
    }
  }

  lemma InvPools(mm: MM)
    requires MMInv(mm)
    ensures PoolsOk(mm)
  {
  }

  lemma MapPagesZero(m: Mem, dir: nat, k: Pool, u: Pool, pf: PoolFlag, n: nat)
    requires |k.bits| >= 1 && |u.bits| >= 1
    ensures MapPages(m, dir, k, u, pf, n, 0) == Ok((m, k, u))
  {
  }

  lemma {:induction false} MapKernelRun(mm: MM, n: nat, cnt: nat)
    requires MMInv(mm) && HEAP_BASE <= n && n + cnt <= HEAP_BASE + |mm.kv.bits| && KernelFree(mm.mem, n, cnt)
    ensures PoolsOk(mm) && KernelRunOk(mm, n, cnt, MapPages(mm.mem, mm.cr3, mm.kpool, mm.upool, PfKernel, n, cnt))
    decreases cnt
  {
    hide MMInv, MapPage, KernelFree, MapPages, KernelRunOk, KernelRun;
    InvPools(mm);
    if cnt == 0 {
      KernelRunNone(mm, n);
      MapPagesZero(mm.mem, mm.cr3, mm.kpool, mm.upool, PfKernel, n);
    } else {
      MapKernelFirst(mm, n, cnt);
      MapPagesStep(mm.mem, mm.cr3, mm.kpool, mm.upool, PfKernel, n, cnt);
      var r1 := MapPage(mm.mem, mm.cr3, mm.kpool, mm.upool, PfKernel, n);
      KernelRunShape(mm, n, cnt, r1);
      if r1.Ok? {
        var mm1 := KernelRun(mm, r1.value.0, r1.value.1, n, 1);
        MapKernelRun(mm1, n + 1, cnt - 1);
        var r := MapPages(mm1.mem, mm1.cr3, mm1.kpool, mm1.upool, PfKernel, n + 1, cnt - 1);
        KernelRunStep(mm, n, cnt, r1, r);
      }
    }
  }

  /** What one mapped page leaves for the rest of the run. */
  lemma KernelRunShape(mm: MM, n: nat, cnt: nat, r: Outcome<(Mem, Pool, Pool)>)
    requires HEAP_BASE <= n && cnt >= 1 && n + cnt <= HEAP_BASE + |mm.kv.bits| && KernelRunOk(mm, n, 1, r)
    ensures r.Ok? ==> var mm1 := KernelRun(mm, r.value.0, r.value.1, n, 1);
      && MMInv(mm1) && |mm1.kv.bits| == |mm.kv.bits| && mm1.cr3 == mm.cr3
      && r.value == (mm1.mem, mm1.kpool, mm1.upool)
    ensures r.Stopped? ==> r.why == PoolFull && KernelRunOk(mm, n, cnt, Stopped(PoolFull))
  {
    hide MMInv, Mapped, Free;
  }

  // ---------- runs of user pages ----------

  function UserRun(mm: MM, m: Mem, k: Pool, u: Pool, p: Pid, n: nat, cnt: nat): MM
    requires p in mm.procs && USER_BASE <= n && n + cnt <= USER_BASE + |mm.procs[p].vs.bits|
  {
    var pr := mm.procs[p];
    mm.(mem := m, kpool := k, upool := u,
        procs := mm.procs[p := pr.(vs := pr.vs.(bits := SetRun(pr.vs.bits, n - USER_BASE, cnt)))])
  }

  /** The run lies below kernel space and its bits are clear. */
  ghost predicate UserFree(mm: MM, p: Pid, n: nat, cnt: nat) {
    && p in mm.procs && USER_BASE <= n && n + cnt <= K_BASE && n + cnt <= USER_BASE + |mm.procs[p].vs.bits|
    && forall x: nat | n <= x < n + cnt :: !UserBit(mm.procs[p], x)
  }

  /** How many of the regions lo .. hi - 1 of process p have no page table. */
  function Missing(mm: MM, p: Pid, lo: nat, hi: nat): nat
    decreases hi - lo
  {
    if lo >= hi then 0 else (if UseFrame(mm, UTable(p, lo)) == None then 1 else 0) + Missing(mm, p, lo + 1, hi)
  }

  /** The tables that cnt pages from n on need and the process lacks. */
  function NewTables(mm: MM, p: Pid, n: nat, cnt: nat): nat {
    if cnt == 0 then 0 else Missing(mm, p, n / 1024, (n + cnt - 1) / 1024 + 1)
  }

  lemma {:induction false} MissingSame(mm: MM, mm1: MM, p: Pid, lo: nat, hi: nat)
    requires forall i: nat | lo <= i < hi :: UseFrame(mm1, UTable(p, i)).Some? == UseFrame(mm, UTable(p, i)).Some?
    ensures Missing(mm1, p, lo, hi) == Missing(mm, p, lo, hi)
    decreases hi - lo
  {
    hide UseFrame;
    if lo < hi { MissingSame(mm, mm1, p, lo + 1, hi); }
  }

  lemma NewTablesStep(mm: MM, mm1: MM, p: Pid, n: nat, cnt: nat)
    requires cnt >= 1 && UseFrame(mm1, UTable(p, n / 1024)).Some?
    requires forall i: nat | i != n / 1024 :: UseFrame(mm1, UTable(p, i)) == UseFrame(mm, UTable(p, i))
    ensures NewTables(mm, p, n, cnt) ==
      (if UseFrame(mm, UTable(p, n / 1024)) == None then 1 else 0) + NewTables(mm1, p, n + 1, cnt - 1)
  {
    hide UseFrame;
    var lo, hi := n / 1024, (n + cnt - 1) / 1024 + 1;
    MissingSame(mm, mm1, p, lo + 1, hi);
    if cnt == 1 {
      assert hi == lo + 1;
    } else {
      assert (n + 1 + (cnt - 1) - 1) / 1024 + 1 == hi;
      assert (n + 1) / 1024 == lo || (n + 1) / 1024 == lo + 1;
    }
  }

  /** A longer run needs no fewer tables. */
  lemma MoreTables(mm: MM, p: Pid, n: nat, cnt: nat)
    requires cnt >= 1
    ensures NewTables(mm, p, n, 1) <= NewTables(mm, p, n, cnt)
  {
    hide UseFrame;
    assert (n + 1 - 1) / 1024 + 1 == n / 1024 + 1 && Missing(mm, p, n / 1024 + 1, n / 1024 + 1) == 0;
  }

  /** The outcome of mapping a run of user pages. */
  ghost predicate UserRunOk(mm: MM, p: Pid, n: nat, cnt: nat, r: Outcome<(Mem, Pool, Pool)>)
    requires p in mm.procs && USER_BASE <= n && n + cnt <= USER_BASE + |mm.procs[p].vs.bits|
  {
    && (r.Stopped? ==> r.why == PoolFull && (Free(mm.upool) < cnt || Free(mm.kpool) < NewTables(mm, p, n, cnt)))
    && (r.Ok? ==>
          && |r.value.1.bits| == |mm.kpool.bits| && |r.value.2.bits| == |mm.upool.bits|
          && MMInv(UserRun(mm, r.value.0, r.value.1, r.value.2, p, n, cnt))
          && Mapped(mm, UserRun(mm, r.value.0, r.value.1, r.value.2, p, n, cnt), PfUser, p, n, cnt)
          && Free(mm.upool) == Free(r.value.2) + cnt
          && Free(mm.kpool) == Free(r.value.1) + NewTables(mm, p, n, cnt))
  }

  /** After one page the tables are those of before and the one of its region. */
  ghost predicate TableAdded(mm: MM, mm1: MM, p: Pid, i: nat) {
    && UseFrame(mm1, UTable(p, i)).Some?
    && forall j: nat | j != i :: UseFrame(mm1, UTable(p, j)) == UseFrame(mm, UTable(p, j))
  }

  lemma UserRunOne(mm: MM, m: Mem, k: Pool, u: Pool, p: Pid, n: nat)
    requires p in mm.procs && USER_BASE <= n && n < USER_BASE + |mm.procs[p].vs.bits|
    ensures UserRun(mm, m, k, u, p, n, 1) == mm.(mem := m, kpool := k, upool := u, procs := WithUserBit(mm, p, n))
  {
    var bits := mm.procs[p].vs.bits;
    assert SetRun(bits, n - USER_BASE, 1) == bits[n - USER_BASE := true];
  }

  lemma UserOneUses(mm: MM, mm1: MM, p: Pid, n: nat, f: nat, t: Option<nat>)
    requires UsesExtended(mm, mm1, NewUses(p, n, f, t)) && (t.Some? <==> UseFrame(mm, UTable(p, n / 1024)) == None)
    ensures Mapped(mm, mm1, PfUser, p, n, 1) && TableAdded(mm, mm1, p, n / 1024)
  {
    hide UseFrame;
    MappedOne(mm, mm1, PfUser, p, n, NewUses(p, n, f, t));
  }

  lemma OneTable(mm: MM, p: Pid, n: nat)
    requires p in mm.procs && n < K_BASE
    ensures NewTables(mm, p, n, 1) == if Present(Rd(mm.mem, DirOf(mm.mem, mm.procs[p]), n / 1024)) then 0 else 1
  {
    assert (n + 1 - 1) / 1024 + 1 == n / 1024 + 1;
    assert Missing(mm, p, n / 1024 + 1, n / 1024 + 1) == 0;
  }

  lemma MapUserFirst(mm: MM, p: Pid, n: nat, cnt: nat)
    requires MMInv(mm) && mm.cur == Some(p) && cnt >= 1 && UserFree(mm, p, n, cnt)
    ensures PoolsOk(mm)
    ensures var r := MapPage(mm.mem, mm.cr3, mm.kpool, mm.upool, PfUser, n);
      && UserRunOk(mm, p, n, 1, r)
      && (r.Ok? ==> TableAdded(mm, UserRun(mm, r.value.0, r.value.1, r.value.2, p, n, 1), p, n / 1024))
  {
    hide MMInv, MapPage, Palloc, UsesExtended, Mapped, TableAdded;
    InvPools(mm);
    MapUserWord(mm, p, n);
    PallocEffect(mm.kpool);
    PallocEffect(mm.upool);
    var r := MapPage(mm.mem, mm.cr3, mm.kpool, mm.upool, PfUser, n);
    OneTable(mm, p, n);
    hide Free, NewTables, Missing;
    if r.Ok? {
      MapUserKeeps(mm, p, n);
      UserRunOne(mm, r.value.0, r.value.1, r.value.2, p, n);
      var mm1 := UserRun(mm, r.value.0, r.value.1, r.value.2, p, n, 1);
      var f := Palloc(mm.upool).value.1;
      var t := if Present(Rd(mm.mem, DirOf(mm.mem, mm.procs[p]), n / 1024)) then None else Some(Palloc(mm.kpool).value.1);
      assert t.Some? <==> UseFrame(mm, UTable(p, n / 1024)) == None;
      UserOneUses(mm, mm1, p, n, f, t);
    }
  }

  lemma UserRunSplits(mm: MM, m1: Mem, k1: Pool, u1: Pool, m: Mem, k: Pool, u: Pool, p: Pid, n: nat, cnt: nat)
    requires p in mm.procs && USER_BASE <= n && cnt >= 1 && n + cnt <= USER_BASE + |mm.procs[p].vs.bits|
    ensures |UserRun(mm, m1, k1, u1, p, n, 1).procs[p].vs.bits| == |mm.procs[p].vs.bits|
    ensures UserRun(UserRun(mm, m1, k1, u1, p, n, 1), m, k, u, p, n + 1, cnt - 1) == UserRun(mm, m, k, u, p, n, cnt)
  {
    RunSplits(mm.procs[p].vs.bits, n - USER_BASE, cnt);
    var a, b := UserRun(UserRun(mm, m1, k1, u1, p, n, 1), m, k, u, p, n + 1, cnt - 1), UserRun(mm, m, k, u, p, n, cnt);
    assert a.procs == b.procs;
  }

  lemma UserRunStep(mm: MM, p: Pid, n: nat, cnt: nat, r1: Outcome<(Mem, Pool, Pool)>, r: Outcome<(Mem, Pool, Pool)>)
    requires p in mm.procs && USER_BASE <= n && cnt >= 1 && n + cnt <= USER_BASE + |mm.procs[p].vs.bits| && r1.Ok?
    requires UserRunOk(mm, p, n, 1, r1)
    requires var mm1 := UserRun(mm, r1.value.0, r1.value.1, r1.value.2, p, n, 1);
      && |mm1.procs[p].vs.bits| == |mm.procs[p].vs.bits| && TableAdded(mm, mm1, p, n / 1024)
      && UserRunOk(mm1, p, n + 1, cnt - 1, r)
    ensures UserRunOk(mm, p, n, cnt, r)
  {
    hide MMInv, Mapped, Free, UseFrame;
    var mm1 := UserRun(mm, r1.value.0, r1.value.1, r1.value.2, p, n, 1);
    NewTablesStep(mm, mm1, p, n, cnt);
    NewTablesStep(mm, mm1, p, n, 1);
    if r.Ok? {
      UserRunSplits(mm, r1.value.0, r1.value.1, r1.value.2, r.value.0, r.value.1, r.value.2, p, n, cnt);
      MappedThen(mm, mm1, UserRun(mm1, r.value.0, r.value.1, r.value.2, p, n + 1, cnt - 1), PfUser, p, n, cnt);
    }
  }

  lemma UserRunNone(mm: MM, p: Pid, n: nat)
    requires MMInv(mm) && p in mm.procs && USER_BASE <= n <= USER_BASE + |mm.procs[p].vs.bits|
    ensures UserRunOk(mm, p, n, 0, Ok((mm.mem, mm.kpool, mm.upool)))
  {
    hide MMInv, UseFrame;
    assert UserRun(mm, mm.mem, mm.kpool, mm.upool, p, n, 0) == mm by {
      assert mm.procs[p := mm.procs[p]] == mm.procs;
    }
    MappedNone(mm, mm, PfUser, p, n);
  }

  lemma UserRunShape(mm: MM, p: Pid, n: nat, cnt: nat, r: Outcome<(Mem, Pool, Pool)>)
    requires cnt >= 1 && UserFree(mm, p, n, cnt) && mm.cur == Some(p) && UserRunOk(mm, p, n, 1, r)
    ensures r.Ok? ==> var mm1 := UserRun(mm, r.value.0, r.value.1, r.value.2, p, n, 1);
      && MMInv(mm1) && UserFree(mm1, p, n + 1, cnt - 1) && mm1.cr3 == mm.cr3 && mm1.cur == mm.cur
      && |mm1.procs[p].vs.bits| == |mm.procs[p].vs.bits|
      && r.value == (mm1.mem, mm1.kpool, mm1.upool)
    ensures r.Stopped? ==> r.why == PoolFull && UserRunOk(mm, p, n, cnt, Stopped(PoolFull))
  {
    hide MMInv, Mapped, UseFrame, Free;
    MoreTables(mm, p, n, cnt);
    if r.Ok? {
      var mm1 := UserRun(mm, r.value.0, r.value.1, r.value.2, p, n, 1);
      forall x: nat | n + 1 <= x < n + cnt ensures !UserBit(mm1.procs[p], x) { assert !UserBit(mm.procs[p], x); }
    }
  }

  lemma {:induction false} MapUserRun(mm: MM, p: Pid, n: nat, cnt: nat)
    requires MMInv(mm) && mm.cur == Some(p) && UserFree(mm, p, n, cnt)
    ensures PoolsOk(mm) && UserRunOk(mm, p, n, cnt, MapPages(mm.mem, mm.cr3, mm.kpool, mm.upool, PfUser, n, cnt))
    decreases cnt
  {
    hide MMInv, MapPage, MapPages, UserRunOk, UserRun, TableAdded;
    InvPools(mm);
    if cnt == 0 {
      UserRunNone(mm, p, n);
      MapPagesZero(mm.mem, mm.cr3, mm.kpool, mm.upool, PfUser, n);
    } else {
      MapUserFirst(mm, p, n, cnt);
      MapPagesStep(mm.mem, mm.cr3, mm.kpool, mm.upool, PfUser, n, cnt);
      var r1 := MapPage(mm.mem, mm.cr3, mm.kpool, mm.upool, PfUser, n);
      UserRunShape(mm, p, n, cnt, r1);
      if r1.Ok? {
        var mm1 := UserRun(mm, r1.value.0, r1.value.1, r1.value.2, p, n, 1);
        MapUserRun(mm1, p, n + 1, cnt - 1);
        var r := MapPages(mm1.mem, mm1.cr3, mm1.kpool, mm1.upool, PfUser, n + 1, cnt - 1);
        UserRunStep(mm, p, n, cnt, r1, r);
      }
    }
  }
}
