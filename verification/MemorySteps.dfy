/**
 Mapping one page keeps the memory manager's invariant, for kernel pages and for user pages,
 with the page table in place or brought in.
 */
module MemorySteps {
  import opened Words
  import opened Paging
  import opened VirtualMemory
  import opened MemoryInv

  // ---------- bookkeeping of uses ----------

  /** The uses of mm' are those of mm and the new ones in nu. */
  ghost predicate UsesExtended(mm: MM, mm': MM, nu: map<Use, nat>) {
    && (forall u :: UseFrame(mm', u) == if u in nu then Some(nu[u]) else UseFrame(mm, u))
    && (forall u | u in nu :: UseFrame(mm, u) == None)
  }

  /** The frames of nu were free, differ from one another, and are now marked, each in its pool. */
  ghost predicate FramesTaken(mm: MM, mm': MM, nu: map<Use, nat>) {
    && (forall u | u in nu :: !Taken(mm.kpool, nu[u]) && !Taken(mm.upool, nu[u]) && TakenFor(mm', u, nu[u]))
    && (forall u, w | u in nu && w in nu && nu[u] == nu[w] :: u == w)
    && (forall f: nat | Taken(mm.kpool, f) :: Taken(mm'.kpool, f))
    && (forall f: nat | Taken(mm.upool, f) :: Taken(mm'.upool, f))
    && (forall f: nat | Taken(mm'.kpool, f) || Taken(mm'.upool, f) ::
          Taken(mm.kpool, f) || Taken(mm.upool, f) || exists u :: u in nu && nu[u] == f)
  }

  lemma UsesKeep(mm: MM, mm': MM, nu: map<Use, nat>)
    requires UsesOk(mm) && UsesExtended(mm, mm', nu) && FramesTaken(mm, mm', nu)
    ensures UsesOk(mm')
  {
    forall u | UseFrame(mm', u).Some? ensures TakenFor(mm', u, UseFrame(mm', u).value) {
      if u !in nu { assert UseFrame(mm, u) == UseFrame(mm', u); }
    }
    forall u, w | UseFrame(mm', u).Some? && UseFrame(mm', u) == UseFrame(mm', w) ensures u == w {
      UsesApart(mm, mm', nu, u, w);
    }
    forall f: nat | Taken(mm'.kpool, f) || Taken(mm'.upool, f) ensures exists u :: UseFrame(mm', u) == Some(f) {
      if Taken(mm.kpool, f) || Taken(mm.upool, f) {
        var u :| UseFrame(mm, u) == Some(f);
        assert UseFrame(mm', u) == Some(f);
      } else {
        var u :| u in nu && nu[u] == f;
        assert UseFrame(mm', u) == Some(f);
      }
    }
  }

  lemma UsedIsTaken(mm: MM, u: Use)
    requires UsesOk(mm) && UseFrame(mm, u).Some?
    ensures TakenFor(mm, u, UseFrame(mm, u).value)
  {
  }

  lemma UsesApart(mm: MM, mm': MM, nu: map<Use, nat>, u: Use, w: Use)
    requires UsesOk(mm) && UsesExtended(mm, mm', nu) && FramesTaken(mm, mm', nu)
    requires UseFrame(mm', u).Some? && UseFrame(mm', u) == UseFrame(mm', w)
    ensures u == w
  {
    if u in nu && w !in nu { UsedIsTaken(mm, w); assert false; }
    if u !in nu && w in nu { UsedIsTaken(mm, u); assert false; }
  }

  /** Two different uses have different frames. */
  lemma UsesDiffer(mm: MM, u: Use, w: Use)
    requires UsesOk(mm) && UseFrame(mm, u).Some? && UseFrame(mm, w).Some? && u != w
    ensures UseFrame(mm, u) != UseFrame(mm, w)
  {
  }

  lemma PoolsApart(mm: MM, f: nat)
    requires PoolsOk(mm)
    ensures InPool(mm.kpool, f) ==> !InPool(mm.upool, f) && POOL_BASE <= f < FRAMES
    ensures InPool(mm.upool, f) ==> !InPool(mm.kpool, f) && POOL_BASE <= f < FRAMES
  {
  }

  lemma DirUse(mm: MM, p: Pid)
    requires MMInv(mm) && p in mm.procs
    ensures ProcShape(mm, mm.procs[p]) && DirOk(mm.mem, mm.procs[p])
    ensures UseFrame(mm, KPage(mm.procs[p].pgdir / 0x1000)) == Some(DirOf(mm.mem, mm.procs[p]))
    ensures Taken(mm.kpool, DirOf(mm.mem, mm.procs[p])) && POOL_BASE <= DirOf(mm.mem, mm.procs[p]) < FRAMES
  {
    assert ProcShape(mm, mm.procs[p]) && DirOk(mm.mem, mm.procs[p]);
    assert UseFrame(mm, KPage(mm.procs[p].pgdir / 0x1000)) == Some(DirOf(mm.mem, mm.procs[p]));
    UsedIsTaken(mm, KPage(mm.procs[p].pgdir / 0x1000));
  }

  /** A table frame belongs to the kernel pool and is no directory. */
  lemma TableUse(mm: MM, p: Pid, i: nat, q: Pid)
    requires MMInv(mm) && p in mm.procs && q in mm.procs && UseFrame(mm, UTable(p, i)).Some?
    ensures var t := UseFrame(mm, UTable(p, i)).value;
      Taken(mm.kpool, t) && POOL_BASE <= t < FRAMES && t != DirOf(mm.mem, mm.procs[q])
  {
    DirUse(mm, q);
    UsedIsTaken(mm, UTable(p, i));
    UsesDiffer(mm, UTable(p, i), KPage(mm.procs[q].pgdir / 0x1000));
  }

  // ---------- a kernel page ----------

  /** MapPage at a kernel heap page writes one word of a shared table, whatever directory is active. */
  lemma MapKernelWord(mm: MM, n: nat)
    requires MMInv(mm) && HEAP_BASE <= n < HEAP_BASE + |mm.kv.bits| && !Present(KWord(mm.mem, n))
    ensures var r := MapPage(mm.mem, mm.cr3, mm.kpool, mm.upool, PfKernel, n);
      && (r.Stopped? ==> r.why == PoolFull && Palloc(mm.kpool).Stopped?)
      && (r.Ok? ==> Palloc(mm.kpool).Ok? && var (k1, f) := Palloc(mm.kpool).value;
            r.value == (Wr(mm.mem, KTableOf(n), n % 1024, Entry(f)), k1, mm.upool))
  {
    ActiveIsDir(mm);
    DirFacts(mm, mm.cr3);
    PallocEffect(mm.kpool);
    hide KernelPages, ProcsOk, UsesOk, KernelDir;
    KernelPageOf(mm.mem, mm.cr3, n);
    if Palloc(mm.kpool).Ok? {
      AddToTable(mm.mem, mm.cr3, Palloc(mm.kpool).value.0, PageAddr(n), Palloc(mm.kpool).value.1);
    }
  }

  /** A word of a kernel table changes; the directories, which live in pool frames, do not. */
  lemma KernelWordKeeps(mm: MM, m': Mem, n: nat, w: Word)
    requires MMInv(mm) && HEAP_BASE <= n < WINDOW && !Present(KWord(mm.mem, n)) && m' == Wr(mm.mem, KTableOf(n), n % 1024, w)
    ensures forall x | K_BASE <= x < WINDOW :: KWord(m', x) == if x == n then w else KWord(mm.mem, x)
    ensures KernelDir(m')
    ensures forall p | p in mm.procs :: DirOf(m', mm.procs[p]) == DirOf(mm.mem, mm.procs[p])
    ensures forall f: nat, i: nat | POOL_BASE <= f :: Rd(m', f, i) == Rd(mm.mem, f, i)
  {
    hide UsesOk, KernelPages, DirOk;
    assert K_TAB <= KTableOf(n) < POOL_BASE;
    forall i: nat ensures Rd(m', K_DIR, i) == Rd(mm.mem, K_DIR, i) {}
    forall x | K_BASE <= x < WINDOW ensures KWord(m', x) == if x == n then w else KWord(mm.mem, x) {
      if KTableOf(x) == KTableOf(n) && x % 1024 == n % 1024 { assert x / 1024 == n / 1024; }
    }
    forall p | p in mm.procs ensures DirOf(m', mm.procs[p]) == DirOf(mm.mem, mm.procs[p]) {
      assert ProcShape(mm, mm.procs[p]);
      assert KWord(m', mm.procs[p].pgdir / 0x1000) == KWord(mm.mem, mm.procs[p].pgdir / 0x1000);
    }
  }

  lemma PageWordSame(m: Mem, m': Mem, d: nat, n: nat)
    requires Rd(m', d, n / 1024) == Rd(m, d, n / 1024)
    requires Present(Rd(m, d, n / 1024)) ==> Rd(m', FrameOf(Rd(m, d, n / 1024)), n % 1024) == Rd(m, FrameOf(Rd(m, d, n / 1024)), n % 1024)
    ensures PageWord(m', d, n) == PageWord(m, d, n)
  {
  }

  /** The user half of a process is as before if its directory and its tables are. */
  lemma UserHalfSame(mm: MM, m': Mem, p: Pid, n: nat)
    requires MMInv(mm) && p in mm.procs && n < K_BASE
    requires forall f: nat, i: nat | POOL_BASE <= f :: Rd(m', f, i) == Rd(mm.mem, f, i)
    ensures PageWord(m', DirOf(mm.mem, mm.procs[p]), n) == PageWord(mm.mem, DirOf(mm.mem, mm.procs[p]), n)
  {
    var d := DirOf(mm.mem, mm.procs[p]);
    DirUse(mm, p);
    if Present(Rd(mm.mem, d, n / 1024)) {
      assert UseFrame(mm, UTable(p, n / 1024)) == Some(FrameOf(Rd(mm.mem, d, n / 1024)));
      TableUse(mm, p, n / 1024, p);
    }
    hide MMInv;
    PageWordSame(mm.mem, m', d, n);
  }

  /** All procs still fit after kernel-table writes. */
  lemma ProcsAfterKernelWord(mm: MM, mm': MM)
    requires MMInv(mm) && mm'.procs == mm.procs && KernelDir(mm'.mem)
    requires forall p | p in mm.procs :: DirOf(mm'.mem, mm.procs[p]) == DirOf(mm.mem, mm.procs[p])
    requires forall f: nat, i: nat | POOL_BASE <= f :: Rd(mm'.mem, f, i) == Rd(mm.mem, f, i)
    requires forall n | K_BASE <= n < WINDOW && Present(KWord(mm.mem, n)) :: KWord(mm'.mem, n) == KWord(mm.mem, n)
    ensures ProcsOk(mm')
  {
    forall p | p in mm'.procs ensures ProcShape(mm', mm'.procs[p]) && DirOk(mm'.mem, mm'.procs[p]) {
      DirUse(mm, p);
      var d := DirOf(mm.mem, mm.procs[p]);
      forall n | 0 <= n < K_BASE ensures PageWord(mm'.mem, d, n) == PageWord(mm.mem, d, n) {
        UserHalfSame(mm, mm'.mem, p, n);
      }
      hide UsesOk, KernelPages, ProcsOk;
      forall i | 768 <= i < 1023 ensures Rd(mm'.mem, d, i) == Rd(mm'.mem, K_DIR, i) {
        assert Rd(mm.mem, d, i) == Rd(mm.mem, K_DIR, i);
      }
    }
  }

  function MapOneKernel(mm: MM, n: nat, f: nat, k1: Pool): MM
    requires HEAP_BASE <= n < HEAP_BASE + |mm.kv.bits|
  {
    mm.(mem := Wr(mm.mem, KTableOf(n), n % 1024, Entry(f)), kpool := k1, kv := mm.kv.(bits := mm.kv.bits[n - HEAP_BASE := true]))
  }

  lemma PagesAfterKernelWord(mm: MM, mm': MM, n: nat, f: nat)
    requires MMInv(mm) && HEAP_BASE <= n < HEAP_BASE + |mm.kv.bits| && n < WINDOW && f < FRAMES
    requires mm'.kv == mm.kv.(bits := mm.kv.bits[n - HEAP_BASE := true])
    requires forall x | K_BASE <= x < WINDOW :: KWord(mm'.mem, x) == if x == n then Entry(f) else KWord(mm.mem, x)
    ensures KernelPages(mm'.mem, mm'.kv)
  {
    hide UsesOk, ProcsOk;
    forall x | K_BASE <= x < WINDOW ensures KWordOk(mm'.mem, mm'.kv, x) { assert KWordOk(mm.mem, mm.kv, x); }
  }

  lemma MapKernelKeeps(mm: MM, n: nat)
    requires MMInv(mm) && HEAP_BASE <= n < HEAP_BASE + |mm.kv.bits| && !Present(KWord(mm.mem, n)) && Palloc(mm.kpool).Ok?
    ensures var (k1, f) := Palloc(mm.kpool).value;
      && MMInv(MapOneKernel(mm, n, f, k1))
      && UsesExtended(mm, MapOneKernel(mm, n, f, k1), map[KPage(n) := f])
  {
    hide Palloc, KernelPages, ProcsOk, KernelDir, UsesOk;
    PallocEffect(mm.kpool);
    var (k1, f) := Palloc(mm.kpool).value;
    var mm' := MapOneKernel(mm, n, f, k1);
    PoolsApart(mm, f);
    KernelWordKeeps(mm, mm'.mem, n, Entry(f));
    PagesAfterKernelWord(mm, mm', n, f);
    ProcsAfterKernelWord(mm, mm');
    var nu := map[KPage(n) := f];
    assert UsesExtended(mm, mm', nu) by {
      forall u ensures UseFrame(mm', u) == if u in nu then Some(nu[u]) else UseFrame(mm, u) {
        KernelUseSame(mm, mm', n, f, u);
      }
    }
    UsesKeep(mm, mm', nu) by {
      assert FramesTaken(mm, mm', nu) by { OneTaken(mm, mm', KPage(n), f); }
    }
    assert PoolsOk(mm');
  }

  lemma KernelUseSame(mm: MM, mm': MM, n: nat, f: nat, u: Use)
    requires MMInv(mm) && HEAP_BASE <= n < WINDOW && f < FRAMES && mm'.procs == mm.procs
    requires forall x | K_BASE <= x < WINDOW :: KWord(mm'.mem, x) == if x == n then Entry(f) else KWord(mm.mem, x)
    requires forall p | p in mm.procs :: DirOf(mm'.mem, mm.procs[p]) == DirOf(mm.mem, mm.procs[p])
    requires forall g: nat, i: nat | POOL_BASE <= g :: Rd(mm'.mem, g, i) == Rd(mm.mem, g, i)
    ensures UseFrame(mm', u) == if u == KPage(n) then Some(f) else UseFrame(mm, u)
  {
    match u {
      case KPage(x) =>
      case UTable(p, i) => if p in mm.procs { DirUse(mm, p); }
      case UPage(p, x) => if p in mm.procs && x < K_BASE { UserHalfSame(mm, mm'.mem, p, x); }
    }
  }

  /** One frame moved from free to taken, in the pool its use asks for. */
  lemma OneTaken(mm: MM, mm': MM, u: Use, f: nat)
    requires !Taken(mm.kpool, f) && !Taken(mm.upool, f) && PoolsOk(mm)
    requires u.UPage? ==> mm'.kpool == mm.kpool && forall g: nat :: Taken(mm'.upool, g) <==> Taken(mm.upool, g) || g == f
    requires !u.UPage? ==> mm'.upool == mm.upool && forall g: nat :: Taken(mm'.kpool, g) <==> Taken(mm.kpool, g) || g == f
    ensures FramesTaken(mm, mm', map[u := f])
  {
    var nu := map[u := f];
    assert u in nu && nu[u] == f;
  }

  // ---------- a user page ----------

  /** The effect on memory of mapping page n of process p to f, with a new table t or without. */
  ghost predicate UserStep(mm: MM, m': Mem, p: Pid, n: nat, f: nat, t: Option<nat>) {
    && (forall g: nat, i: nat | g < POOL_BASE :: Rd(m', g, i) == Rd(mm.mem, g, i))
    && (forall q, i: nat | q in mm.procs :: Rd(m', DirOf(mm.mem, mm.procs[q]), i) ==
          if q == p && t.Some? && i == n / 1024 then Entry(t.value) else Rd(mm.mem, DirOf(mm.mem, mm.procs[q]), i))
    && (forall q, x: nat | q in mm.procs && x < K_BASE :: PageWord(m', DirOf(mm.mem, mm.procs[q]), x) ==
          if q == p && x == n then Entry(f) else PageWord(mm.mem, DirOf(mm.mem, mm.procs[q]), x))
  }

  /** A frame that is the table of region i of q, if the directory entry is present. */
  lemma TableOf(mm: MM, q: Pid, i: nat)
    requires MMInv(mm) && q in mm.procs && i < 768 && Present(Rd(mm.mem, DirOf(mm.mem, mm.procs[q]), i))
    ensures var t := FrameOf(Rd(mm.mem, DirOf(mm.mem, mm.procs[q]), i));
      UseFrame(mm, UTable(q, i)) == Some(t) && Taken(mm.kpool, t) && POOL_BASE <= t < FRAMES
  {
    TableUse(mm, q, i, q);
  }

  /** With the table in place. */
  lemma UserWordStep(mm: MM, p: Pid, n: nat, f: nat)
    requires MMInv(mm) && p in mm.procs && n < K_BASE && f < FRAMES && Present(Rd(mm.mem, DirOf(mm.mem, mm.procs[p]), n / 1024))
    ensures var t := FrameOf(Rd(mm.mem, DirOf(mm.mem, mm.procs[p]), n / 1024));
      UserStep(mm, Wr(mm.mem, t, n % 1024, Entry(f)), p, n, f, None)
  {
    var t := FrameOf(Rd(mm.mem, DirOf(mm.mem, mm.procs[p]), n / 1024));
    var m' := Wr(mm.mem, t, n % 1024, Entry(f));
    TableOf(mm, p, n / 1024);
    forall q, i: nat | q in mm.procs ensures Rd(m', DirOf(mm.mem, mm.procs[q]), i) == Rd(mm.mem, DirOf(mm.mem, mm.procs[q]), i) {
      TableUse(mm, p, n / 1024, q);
    }
    forall q, x: nat | q in mm.procs && x < K_BASE
      ensures PageWord(m', DirOf(mm.mem, mm.procs[q]), x) ==
        if q == p && x == n then Entry(f) else PageWord(mm.mem, DirOf(mm.mem, mm.procs[q]), x)
    {
      TableUse(mm, p, n / 1024, q);
      UserWordPage(mm, p, n, f, q, x);
    }
  }

  lemma UserWordPage(mm: MM, p: Pid, n: nat, f: nat, q: Pid, x: nat)
    requires MMInv(mm) && p in mm.procs && n < K_BASE && f < FRAMES && Present(Rd(mm.mem, DirOf(mm.mem, mm.procs[p]), n / 1024))
    requires q in mm.procs && x < K_BASE
    requires FrameOf(Rd(mm.mem, DirOf(mm.mem, mm.procs[p]), n / 1024)) != DirOf(mm.mem, mm.procs[q])
    ensures var t := FrameOf(Rd(mm.mem, DirOf(mm.mem, mm.procs[p]), n / 1024));
      PageWord(Wr(mm.mem, t, n % 1024, Entry(f)), DirOf(mm.mem, mm.procs[q]), x) ==
        if q == p && x == n then Entry(f) else PageWord(mm.mem, DirOf(mm.mem, mm.procs[q]), x)
  {
    hide UsesOk, KernelPages, ProcsOk, KernelDir, PoolsOk;
    var d := DirOf(mm.mem, mm.procs[q]);
    TableOf(mm, p, n / 1024);
    if Present(Rd(mm.mem, d, x / 1024)) {
      TableOf(mm, q, x / 1024);
      if UTable(q, x / 1024) != UTable(p, n / 1024) { UsesDiffer(mm, UTable(q, x / 1024), UTable(p, n / 1024)); }
    }
  }

  /** With a new table t taken from the kernel pool. */
  lemma NewTableRead(m: Mem, d: nat, n: nat, f: nat, t: nat, g: nat, i: nat)
    ensures Rd(Wr(Clear(Wr(m, d, n / 1024, Entry(t)), t), t, n % 1024, Entry(f)), g, i) == NewTableWord(m, d, n, f, t, g, i)
  {
    RdClear(Wr(m, d, n / 1024, Entry(t)), t, g, i);
  }

  lemma NewTableStep(mm: MM, p: Pid, n: nat, f: nat, t: nat)
    requires MMInv(mm) && p in mm.procs && n < K_BASE && f < FRAMES && !Present(Rd(mm.mem, DirOf(mm.mem, mm.procs[p]), n / 1024))
    requires InPool(mm.kpool, t) && !Taken(mm.kpool, t)
    ensures UserStep(mm, Wr(Clear(Wr(mm.mem, DirOf(mm.mem, mm.procs[p]), n / 1024, Entry(t)), t), t, n % 1024, Entry(f)), p, n, f, Some(t))
  {
    hide Wr, Clear, KernelPages, ProcsOk, UsesOk, KernelDir, DirOk;
    var d := DirOf(mm.mem, mm.procs[p]);
    var m' := Wr(Clear(Wr(mm.mem, d, n / 1024, Entry(t)), t), t, n % 1024, Entry(f));
    DirUse(mm, p);
    PoolsApart(mm, t);
    forall g: nat, i: nat ensures Rd(m', g, i) == NewTableWord(mm.mem, d, n, f, t, g, i) {
      NewTableRead(mm.mem, d, n, f, t, g, i);
    }
    forall q, i: nat | q in mm.procs
      ensures Rd(m', DirOf(mm.mem, mm.procs[q]), i) ==
        if q == p && i == n / 1024 then Entry(t) else Rd(mm.mem, DirOf(mm.mem, mm.procs[q]), i)
    {
      DirUse(mm, q);
      if p != q { DirsDiffer(mm, p, q); }
    }
    forall q, x: nat | q in mm.procs && x < K_BASE
      ensures PageWord(m', DirOf(mm.mem, mm.procs[q]), x) ==
        if q == p && x == n then Entry(f) else PageWord(mm.mem, DirOf(mm.mem, mm.procs[q]), x)
    {
      NewTablePage(mm, m', p, n, f, t, q, x);
    }
  }

  function NewTableWord(m: Mem, d: nat, n: nat, f: nat, t: nat, g: nat, i: nat): Word {
    if g == t then (if i == n % 1024 then Entry(f) else 0)
    else if g == d && i == n / 1024 then Entry(t)
    else Rd(m, g, i)
  }

  lemma DirsDiffer(mm: MM, p: Pid, q: Pid)
    requires MMInv(mm) && p in mm.procs && q in mm.procs && p != q
    ensures DirOf(mm.mem, mm.procs[p]) != DirOf(mm.mem, mm.procs[q])
  {
    DirUse(mm, p);
    DirUse(mm, q);
    var a, b := mm.procs[p].pgdir, mm.procs[q].pgdir;
    assert a != b && a / 0x1000 != b / 0x1000;
    UsesDiffer(mm, KPage(a / 0x1000), KPage(b / 0x1000));
  }

  lemma NewTablePage(mm: MM, m': Mem, p: Pid, n: nat, f: nat, t: nat, q: Pid, x: nat)
    requires MMInv(mm) && p in mm.procs && n < K_BASE && f < FRAMES && t < FRAMES
    requires !Present(Rd(mm.mem, DirOf(mm.mem, mm.procs[p]), n / 1024))
    requires InPool(mm.kpool, t) && !Taken(mm.kpool, t) && q in mm.procs && x < K_BASE
    requires forall g: nat, i: nat :: Rd(m', g, i) == NewTableWord(mm.mem, DirOf(mm.mem, mm.procs[p]), n, f, t, g, i)
    ensures PageWord(m', DirOf(mm.mem, mm.procs[q]), x) ==
        if q == p && x == n then Entry(f) else PageWord(mm.mem, DirOf(mm.mem, mm.procs[q]), x)
  {
    hide UsesOk, KernelPages, ProcsOk, KernelDir, PoolsOk, DirOk;
    var d, e := DirOf(mm.mem, mm.procs[p]), DirOf(mm.mem, mm.procs[q]);
    DirUse(mm, q);
    if p != q { DirsDiffer(mm, p, q); }
    if Present(Rd(mm.mem, e, x / 1024)) {
      TableOf(mm, q, x / 1024);
      TableUse(mm, q, x / 1024, p);
    }
    assert Rd(m', e, x / 1024) == if q == p && x / 1024 == n / 1024 then Entry(t) else Rd(mm.mem, e, x / 1024);
  }

  function WithUserBit(mm: MM, p: Pid, n: nat): map<Pid, Proc>
    requires p in mm.procs && USER_BASE <= n && n - USER_BASE < |mm.procs[p].vs.bits|
  {
    var pr := mm.procs[p];
    mm.procs[p := pr.(vs := pr.vs.(bits := pr.vs.bits[n - USER_BASE := true]))]
  }

  /** Everything outside the user half of p reads as before. */
  lemma UserStepKernel(mm: MM, mm': MM, p: Pid, n: nat, f: nat, t: Option<nat>)
    requires MMInv(mm) && p in mm.procs && USER_BASE <= n < K_BASE && UserStep(mm, mm'.mem, p, n, f, t)
    requires n - USER_BASE < |mm.procs[p].vs.bits| && mm'.procs == WithUserBit(mm, p, n)
    requires mm'.kv == mm.kv
    ensures KernelDir(mm'.mem) && KernelPages(mm'.mem, mm'.kv)
    ensures forall x | K_BASE <= x < WINDOW :: KWord(mm'.mem, x) == KWord(mm.mem, x)
    ensures forall q | q in mm.procs :: q in mm'.procs && mm'.procs[q].pgdir == mm.procs[q].pgdir
    ensures forall q | q in mm.procs :: DirOf(mm'.mem, mm'.procs[q]) == DirOf(mm.mem, mm.procs[q])
  {
    hide UsesOk, DirOk;
    forall i: nat ensures Rd(mm'.mem, K_DIR, i) == Rd(mm.mem, K_DIR, i) {}
    forall x | K_BASE <= x < WINDOW ensures KWord(mm'.mem, x) == KWord(mm.mem, x) && KWordOk(mm'.mem, mm'.kv, x) {
      assert KTableOf(x) < POOL_BASE;
      assert KWordOk(mm.mem, mm.kv, x);
    }
    hide KernelPages, KernelDir;
    forall q | q in mm.procs ensures DirOf(mm'.mem, mm'.procs[q]) == DirOf(mm.mem, mm.procs[q]) {
      assert ProcShape(mm, mm.procs[q]);
      assert KWord(mm'.mem, mm.procs[q].pgdir / 0x1000) == KWord(mm.mem, mm.procs[q].pgdir / 0x1000);
    }
  }

  lemma UserStepProcs(mm: MM, mm': MM, p: Pid, n: nat, f: nat, t: Option<nat>)
    requires MMInv(mm) && p in mm.procs && USER_BASE <= n < K_BASE && f < FRAMES && UserStep(mm, mm'.mem, p, n, f, t)
    requires t.Some? ==> t.value < FRAMES
    requires n - USER_BASE < |mm.procs[p].vs.bits| && mm'.procs == WithUserBit(mm, p, n)
    requires mm'.kv == mm.kv
    ensures ProcsOk(mm')
  {
    hide MMInv, UserStep, DirOk, ProcShape, KernelDir, KernelPages;
    UserStepKernel(mm, mm', p, n, f, t);
    forall q | q in mm'.procs ensures ProcShape(mm', mm'.procs[q]) && DirOk(mm'.mem, mm'.procs[q]) {
      UserStepProc(mm, mm', p, n, f, t, q);
    }
    forall q, r | q in mm'.procs && r in mm'.procs && q != r ensures mm'.procs[q].pgdir != mm'.procs[r].pgdir {
      PgdirsDiffer(mm, q, r);
    }
  }

  lemma PgdirsDiffer(mm: MM, q: Pid, r: Pid)
    requires MMInv(mm) && q in mm.procs && r in mm.procs && q != r
    ensures mm.procs[q].pgdir != mm.procs[r].pgdir
  {
  }

  lemma UserStepProc(mm: MM, mm': MM, p: Pid, n: nat, f: nat, t: Option<nat>, q: Pid)
    requires MMInv(mm) && p in mm.procs && q in mm.procs && USER_BASE <= n < K_BASE && f < FRAMES && UserStep(mm, mm'.mem, p, n, f, t)
    requires t.Some? ==> t.value < FRAMES
    requires n - USER_BASE < |mm.procs[p].vs.bits| && mm'.procs == WithUserBit(mm, p, n)
    requires mm'.kv == mm.kv
    ensures q in mm'.procs && ProcShape(mm', mm'.procs[q]) && DirOk(mm'.mem, mm'.procs[q])
  {
    hide MMInv, KernelDir, KernelPages;
    UserStepKernel(mm, mm', p, n, f, t);
    DirUse(mm, q);
    var d := DirOf(mm.mem, mm.procs[q]);
    assert KWord(mm'.mem, mm.procs[q].pgdir / 0x1000) == KWord(mm.mem, mm.procs[q].pgdir / 0x1000);
    forall i | 768 <= i < 1023 ensures Rd(mm'.mem, d, i) == Rd(mm'.mem, K_DIR, i) {
      assert Rd(mm.mem, d, i) == Rd(mm.mem, K_DIR, i);
    }
    forall x | 0 <= x < K_BASE
      ensures (PageFrame(mm'.mem, d, x).Some? <==> UserBit(mm'.procs[q], x)) && Clean(PageWord(mm'.mem, d, x))
    {
      assert (PageFrame(mm.mem, d, x).Some? <==> UserBit(mm.procs[q], x)) && Clean(PageWord(mm.mem, d, x));
    }
  }

  function NewUses(p: Pid, n: nat, f: nat, t: Option<nat>): map<Use, nat> {
    match t
    case None => map[UPage(p, n) := f]
    case Some(g) => map[UPage(p, n) := f, UTable(p, n / 1024) := g]
  }

  lemma UserUnmapped(mm: MM, p: Pid, n: nat)
    requires MMInv(mm) && p in mm.procs && n < K_BASE && !UserBit(mm.procs[p], n)
    ensures PageFrame(mm.mem, DirOf(mm.mem, mm.procs[p]), n) == None
  {
    DirUse(mm, p);
  }

  lemma UserStepUses(mm: MM, mm': MM, p: Pid, n: nat, f: nat, t: Option<nat>)
    requires MMInv(mm) && p in mm.procs && USER_BASE <= n < K_BASE && f < FRAMES && UserStep(mm, mm'.mem, p, n, f, t)
    requires n - USER_BASE < |mm.procs[p].vs.bits| && mm'.procs == WithUserBit(mm, p, n)
    requires mm'.kv == mm.kv && !UserBit(mm.procs[p], n)
    requires t.Some? ==> t.value < FRAMES && !Present(Rd(mm.mem, DirOf(mm.mem, mm.procs[p]), n / 1024))
    ensures UsesExtended(mm, mm', NewUses(p, n, f, t))
  {
    hide MMInv, DirOk, KernelDir, KernelPages, ProcShape;
    UserStepKernel(mm, mm', p, n, f, t);
    UserUnmapped(mm, p, n);
    var nu := NewUses(p, n, f, t);
    forall u ensures UseFrame(mm', u) == if u in nu then Some(nu[u]) else UseFrame(mm, u) {
      match u {
        case KPage(x) =>
          if HEAP_BASE <= x < WINDOW { assert KWord(mm'.mem, x) == KWord(mm.mem, x); }
        case UTable(q, i) =>
        case UPage(q, x) =>
      }
    }
  }

  lemma UserStepKeeps(mm: MM, mm': MM, p: Pid, n: nat, f: nat, t: Option<nat>)
    requires MMInv(mm) && p in mm.procs && USER_BASE <= n < K_BASE && f < FRAMES && UserStep(mm, mm'.mem, p, n, f, t)
    requires !UserBit(mm.procs[p], n)
    requires n - USER_BASE < |mm.procs[p].vs.bits| && mm'.procs == WithUserBit(mm, p, n)
    requires mm'.kv == mm.kv && mm'.cr3 == mm.cr3 && mm'.cur == mm.cur && PoolsOk(mm')
    requires t.Some? ==> t.value < FRAMES && !Present(Rd(mm.mem, DirOf(mm.mem, mm.procs[p]), n / 1024))
    requires FramesTaken(mm, mm', NewUses(p, n, f, t))
    ensures MMInv(mm') && UsesExtended(mm, mm', NewUses(p, n, f, t))
  {
    hide UsesOk, UsesExtended, FramesTaken, UserStep, DirOk;
    UserStepKernel(mm, mm', p, n, f, t);
    UserStepProcs(mm, mm', p, n, f, t);
    UserStepUses(mm, mm', p, n, f, t);
    UsesKeep(mm, mm', NewUses(p, n, f, t));
    hide ProcsOk, KernelPages, KernelDir;
  }

  /** The word or words MapPage writes for a user page of the running process. */
  lemma MapUserWord(mm: MM, p: Pid, n: nat)
    requires MMInv(mm) && mm.cur == Some(p) && USER_BASE <= n < K_BASE && !UserBit(mm.procs[p], n)
    ensures var r := MapPage(mm.mem, mm.cr3, mm.kpool, mm.upool, PfUser, n);
      var d := DirOf(mm.mem, mm.procs[p]);
      && (r.Stopped? ==> r.why == PoolFull && (Palloc(mm.upool).Stopped? || (!Present(Rd(mm.mem, d, n / 1024)) && Palloc(mm.kpool).Stopped?)))
      && (r.Ok? ==> Palloc(mm.upool).Ok? && var (u1, f) := Palloc(mm.upool).value;
          if Present(Rd(mm.mem, d, n / 1024))
          then r.value == (Wr(mm.mem, FrameOf(Rd(mm.mem, d, n / 1024)), n % 1024, Entry(f)), mm.kpool, u1)
          else Palloc(mm.kpool).Ok? && var (k1, t) := Palloc(mm.kpool).value;
            r.value == (Wr(Clear(Wr(mm.mem, d, n / 1024, Entry(t)), t), t, n % 1024, Entry(f)), k1, u1))
  {
    hide KernelPages, ProcsOk, UsesOk, KernelDir, DirOk, Palloc, PageTableAdd;
    var d := DirOf(mm.mem, mm.procs[p]);
    DirUse(mm, p);
    ActiveIsDir(mm);
    DirFacts(mm, mm.cr3);
    PallocEffect(mm.kpool);
    PallocEffect(mm.upool);
    UserUnmapped(mm, p, n);
    if Palloc(mm.upool).Ok? {
      var f := Palloc(mm.upool).value.1;
      if Present(Rd(mm.mem, d, n / 1024)) {
        AddToTable(mm.mem, mm.cr3, mm.kpool, PageAddr(n), f);
      } else {
        if Palloc(mm.kpool).Ok? { PoolsApart(mm, Palloc(mm.kpool).value.1); }
        AddNewTable(mm.mem, mm.cr3, mm.kpool, PageAddr(n), f);
      }
    }
  }

  lemma TwoTaken(mm: MM, mm': MM, p: Pid, n: nat, f: nat, t: Option<nat>)
    requires PoolsOk(mm) && InPool(mm.upool, f) && !Taken(mm.upool, f)
    requires forall g: nat :: Taken(mm'.upool, g) <==> Taken(mm.upool, g) || g == f
    requires t == None ==> mm'.kpool == mm.kpool
    requires t.Some? ==> InPool(mm.kpool, t.value) && !Taken(mm.kpool, t.value)
    requires t.Some? ==> forall g: nat :: Taken(mm'.kpool, g) <==> Taken(mm.kpool, g) || g == t.value
    ensures FramesTaken(mm, mm', NewUses(p, n, f, t))
  {
    PoolsApart(mm, f);
    var nu := NewUses(p, n, f, t);
    assert UPage(p, n) in nu && nu[UPage(p, n)] == f;
    if t.Some? {
      PoolsApart(mm, t.value);
      assert UTable(p, n / 1024) in nu && nu[UTable(p, n / 1024)] == t.value;
    }
  }

  lemma MapUserKeeps(mm: MM, p: Pid, n: nat)
    requires MMInv(mm) && mm.cur == Some(p) && USER_BASE <= n < K_BASE && !UserBit(mm.procs[p], n)
    requires MapPage(mm.mem, mm.cr3, mm.kpool, mm.upool, PfUser, n).Ok?
    ensures n - USER_BASE < |mm.procs[p].vs.bits|
    ensures var (m', k', u') := MapPage(mm.mem, mm.cr3, mm.kpool, mm.upool, PfUser, n).value;
      var mm' := mm.(mem := m', kpool := k', upool := u', procs := WithUserBit(mm, p, n));
      var f := Palloc(mm.upool).value.1;
      var t := if Present(Rd(mm.mem, DirOf(mm.mem, mm.procs[p]), n / 1024)) then None else Some(Palloc(mm.kpool).value.1);
      MMInv(mm') && UsesExtended(mm, mm', NewUses(p, n, f, t))
  {
    hide MapPage, Palloc, UsesOk, KernelPages, ProcsOk, KernelDir, UserStep, DirOk;
    DirUse(mm, p);
    MapUserWord(mm, p, n);
    PallocEffect(mm.kpool);
    PallocEffect(mm.upool);
    var (m', k', u') := MapPage(mm.mem, mm.cr3, mm.kpool, mm.upool, PfUser, n).value;
    var mm' := mm.(mem := m', kpool := k', upool := u', procs := WithUserBit(mm, p, n));
    var f := Palloc(mm.upool).value.1;
    PoolsApart(mm, f);
    hide Taken;
    var d := DirOf(mm.mem, mm.procs[p]);
    if Present(Rd(mm.mem, d, n / 1024)) {
      UserWordStep(mm, p, n, f);
      TwoTaken(mm, mm', p, n, f, None);
      UserStepKeeps(mm, mm', p, n, f, None);
    } else {
      var t := Palloc(mm.kpool).value.1;
      PoolsApart(mm, t);
      NewTableStep(mm, p, n, f, t);
      TwoTaken(mm, mm', p, n, f, Some(t));
      UserStepKeeps(mm, mm', p, n, f, Some(t));
    }
  }
}
