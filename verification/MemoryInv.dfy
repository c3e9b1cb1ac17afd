/**
 The invariant of the memory manager: what the page tables contain, and who uses each frame.
 */
module MemoryInv {
  import opened Words
  import opened Paging
  import opened VirtualMemory

  // ---------- reading the tables page by page ----------

  function FrameIf(w: Word): Option<nat> { if Present(w) then Some(FrameOf(w)) else None }

  /** The table entry of page n in a directory, zero without a table. */
  function PageWord(m: Mem, dir: nat, n: nat): Word {
    var pde := Rd(m, dir, n / 1024);
    if !Present(pde) then 0 else Rd(m, FrameOf(pde), n % 1024)
  }

  /** The frame that page n maps to in a directory. */
  function PageFrame(m: Mem, dir: nat, n: nat): Option<nat> { FrameIf(PageWord(m, dir, n)) }

  /** An entry as the kernel writes them, or none. */
  predicate Clean(w: Word) { w == 0 || w == Entry(FrameOf(w)) }

  lemma WalkByPage(m: Mem, dir: nat, v: Word)
    ensures Walk(m, dir, v) ==
      match PageFrame(m, dir, v / 0x1000) case None => None case Some(f) => Some(AddrIn(f, Offset(v)))
  {
    assert v / 0x1000 / 1024 == PdeIdx(v);
  }

  /** The kernel table that holds page n, and its word there. */
  function KTableOf(n: nat): nat
    requires K_BASE <= n
  {
    K_TAB + (n / 1024 - 768)
  }

  function KWord(m: Mem, n: nat): Word
    requires K_BASE <= n
  {
    Rd(m, KTableOf(n), n % 1024)
  }

  /** The frame of a process's page directory. */
  function DirOf(m: Mem, pr: Proc): nat {
    var n := pr.pgdir / 0x1000;
    if n < K_BASE then 0 else FrameOf(KWord(m, n))
  }

  // ---------- what a frame is used for ----------

  datatype Use = KPage(n: nat) | UTable(p: Pid, i: nat) | UPage(p: Pid, n: nat)

  function UseFrame(mm: MM, u: Use): Option<nat> {
    match u
    case KPage(n) => if HEAP_BASE <= n < WINDOW then FrameIf(KWord(mm.mem, n)) else None
    case UTable(p, i) =>
      if p in mm.procs && i < 768 then FrameIf(Rd(mm.mem, DirOf(mm.mem, mm.procs[p]), i)) else None
    case UPage(p, n) =>
      if p in mm.procs && n < K_BASE then PageFrame(mm.mem, DirOf(mm.mem, mm.procs[p]), n) else None
  }

  predicate TakenFor(mm: MM, u: Use, f: nat) {
    if u.UPage? then Taken(mm.upool, f) else Taken(mm.kpool, f)
  }

  // ---------- the parts of the invariant ----------

  /** The boot directory: entries 0 and 768 share one table, 769 .. 1022 have their own, 1023 is
      the directory itself. */
  ghost predicate KernelDir(m: Mem) {
    && Rd(m, K_DIR, 0) == Entry(K_TAB)
    && (forall i | 1 <= i < 768 :: Rd(m, K_DIR, i) == 0)
    && (forall i | 768 <= i < 1023 :: Rd(m, K_DIR, i) == Entry(K_TAB + i - 768))
    && Rd(m, K_DIR, 1023) == Entry(K_DIR)
  }

  /** The word for kernel page n is what the heap bitmap says. */
  predicate KWordOk(m: Mem, kv: VSpace, n: nat)
    requires K_BASE <= n
  {
    var w := KWord(m, n);
    var h := n - HEAP_BASE;
    if n < HEAP_BASE then w == Entry(n - K_BASE)
    else
      && Clean(w)
      && (h >= |kv.bits| ==> w == 0)
      && (h < |kv.bits| && Present(w) ==> kv.bits[h])
      && (h < |kv.bits| - 1 && kv.bits[h] ==> Present(w))
  }

  ghost predicate KernelPages(m: Mem, kv: VSpace) {
    forall n | K_BASE <= n < WINDOW :: KWordOk(m, kv, n)
  }

  predicate UserBit(pr: Proc, n: nat) {
    USER_BASE <= n && n - USER_BASE < |pr.vs.bits| && pr.vs.bits[n - USER_BASE]
  }

  /** One directory: the kernel half is the boot directory's, the last entry is itself, and the
      user half maps exactly the pages whose bits are set. */
  ghost predicate DirOk(m: Mem, pr: Proc) {
    var d := DirOf(m, pr);
    && Rd(m, d, 1023) == Entry(d)
    && (forall i | 768 <= i < 1023 :: Rd(m, d, i) == Rd(m, K_DIR, i))
    && (forall i | 0 <= i < 768 :: Clean(Rd(m, d, i)))
    && (forall n | 0 <= n < K_BASE :: PageFrame(m, d, n).Some? <==> UserBit(pr, n))
    && (forall n | 0 <= n < K_BASE :: Clean(PageWord(m, d, n)))
  }

  predicate ProcShape(mm: MM, pr: Proc) {
    && pr.vs.base == USER_BASE && |pr.vs.bits| == USER_PAGES + 1
    && pr.pgdir % 0x1000 == 0 && HEAP_BASE <= pr.pgdir / 0x1000 < WINDOW
    && Present(KWord(mm.mem, pr.pgdir / 0x1000))
  }

  ghost predicate ProcsOk(mm: MM) {
    && (forall p | p in mm.procs :: ProcShape(mm, mm.procs[p]) && DirOk(mm.mem, mm.procs[p]))
    && (forall p, q | p in mm.procs && q in mm.procs && p != q :: mm.procs[p].pgdir != mm.procs[q].pgdir)
  }

  /** Every used frame is marked in its pool, no frame is used twice, and every marked frame is used. */
  ghost predicate UsesOk(mm: MM) {
    && (forall u :: UseFrame(mm, u).Some? ==> TakenFor(mm, u, UseFrame(mm, u).value))
    && (forall u, w :: UseFrame(mm, u).Some? && UseFrame(mm, u) == UseFrame(mm, w) ==> u == w)
    && (forall f: nat | Taken(mm.kpool, f) || Taken(mm.upool, f) :: exists u :: UseFrame(mm, u) == Some(f))
  }

  /** The two pools lie above the boot tables, one after the other, and the heap has a page for every frame
      of the kernel pool. */
  predicate PoolsOk(mm: MM) {
    && |mm.kpool.bits| >= 1 && |mm.upool.bits| >= 1
    && mm.kpool.start == POOL_BASE
    && mm.kpool.start + PoolSize(mm.kpool) <= mm.upool.start
    && mm.upool.start + PoolSize(mm.upool) <= FRAMES
    && mm.kv.base == HEAP_BASE && |mm.kv.bits| == |mm.kpool.bits| && HEAP_BASE + |mm.kv.bits| <= WINDOW
  }

  /** CR3 holds the directory of whoever runs. */
  predicate Cr3Ok(mm: MM) {
    match mm.cur
    case None => mm.cr3 == K_DIR
    case Some(p) => p in mm.procs && mm.cr3 == DirOf(mm.mem, mm.procs[p])
  }

  ghost predicate MMInv(mm: MM) {
    && PoolsOk(mm) && KernelDir(mm.mem) && KernelPages(mm.mem, mm.kv)
    && ProcsOk(mm) && UsesOk(mm) && Cr3Ok(mm)
  }

  // ---------- consequences used everywhere ----------

  lemma InvSized(mm: MM)
    requires MMInv(mm)
    ensures Sized(mm)
  {
    forall p | p in mm.procs ensures |mm.procs[p].vs.bits| >= 1 { assert ProcShape(mm, mm.procs[p]); }
  }

  /** Every directory that can be active: the boot directory and those of the processes. */
  ghost predicate IsDir(mm: MM, d: nat) {
    d == K_DIR || exists p :: p in mm.procs && d == DirOf(mm.mem, mm.procs[p])
  }

  lemma ActiveIsDir(mm: MM)
    requires MMInv(mm)
    ensures IsDir(mm, mm.cr3)
  {
  }

  lemma DirFacts(mm: MM, d: nat)
    requires MMInv(mm) && IsDir(mm, d)
    ensures SelfMap(mm.mem, d) && d < FRAMES
    ensures forall i | 768 <= i < 1023 :: Rd(mm.mem, d, i) == Entry(K_TAB + i - 768)
    ensures d == K_DIR || Taken(mm.kpool, d)
  {
    if d != K_DIR {
      var p :| p in mm.procs && d == DirOf(mm.mem, mm.procs[p]);
      assert ProcShape(mm, mm.procs[p]) && DirOk(mm.mem, mm.procs[p]);
      var u := KPage(mm.procs[p].pgdir / 0x1000);
      assert UseFrame(mm, u) == Some(d);
      hide UsesOk, KernelPages;
      forall i | 768 <= i < 1023 ensures Rd(mm.mem, d, i) == Entry(K_TAB + i - 768) {
        assert Rd(mm.mem, d, i) == Rd(mm.mem, K_DIR, i);
      }
    }
  }

  /** Theorem: every directory maps every kernel address below the window as the boot directory does. */
  lemma KernelHalfShared(mm: MM, d: nat, v: Word)
    requires MMInv(mm) && IsDir(mm, d) && 0xc000_0000 <= v < 0xffc0_0000
    ensures Walk(mm.mem, d, v) == Walk(mm.mem, K_DIR, v)
    ensures Walk(mm.mem, d, v) == (match FrameIf(KWord(mm.mem, v / 0x1000)) case None => None case Some(f) => Some(AddrIn(f, Offset(v))))
  {
    DirFacts(mm, d);
    DirFacts(mm, K_DIR);
    hide MMInv;
    KernelPageOf(mm.mem, d, v / 0x1000);
    KernelPageOf(mm.mem, K_DIR, v / 0x1000);
    WalkByPage(mm.mem, d, v);
    WalkByPage(mm.mem, K_DIR, v);
  }

  lemma KernelPageOf(m: Mem, d: nat, n: nat)
    requires K_BASE <= n < WINDOW && forall i | 768 <= i < 1023 :: Rd(m, d, i) == Entry(K_TAB + i - 768)
    ensures PageFrame(m, d, n) == FrameIf(KWord(m, n))
    ensures Present(Rd(m, d, n / 1024)) && FrameOf(Rd(m, d, n / 1024)) == KTableOf(n)
  {
    assert 768 <= n / 1024 < 1023;
  }
}
