/**
 Two-level page tables in physical memory, the walk the MMU makes through them (Intel SDM
 volume 3A, "32-Bit Paging"), and the kernel code that edits them through the recursive
 mapping in the last directory entry.

 Physical memory is made of 32-bit words, named by frame number and index inside the frame;
 a word never written reads as zero.  The masks and shifts of the code are written as
 division and remainder by powers of two.
 */
module Paging {
  import opened Words
  import opened Bitmap

  const FRAMES: nat := 0x10_0000

  /** Why the machine stops: a failed ASSERT, a PANIC, or a page fault in the kernel.  OutsideBitmap
      is where the model ends and the code goes on to write next to a bitmap. */
  datatype Stop = PteRepeat | TableNotClear | PoolFull | PageFault | BadCount | BadIndex | OutsideBitmap
                | WrongSpace | BadStart | NoSpace

  datatype Outcome<+T> = Ok(value: T) | Stopped(why: Stop) {
    predicate IsFailure() { Stopped? }
    function PropagateFailure<U>(): Outcome<U>
      requires Stopped?
    {
      Stopped(why)
    }
    function Extract(): T
      requires Ok?
    {
      value
    }
  }

  datatype Cell = Cell(frame: nat, idx: nat)
  type Mem = map<Cell, Word>

  function Rd(m: Mem, f: nat, i: nat): Word {
    if Cell(f, i) in m then m[Cell(f, i)] else 0
  }

  function Wr(m: Mem, f: nat, i: nat, w: Word): Mem { m[Cell(f, i) := w] }

  /** Clear a whole frame. */
  function Clear(m: Mem, f: nat): Mem {
    map c | c in m && c.frame != f :: m[c]
  }

  lemma RdWr(m: Mem, f: nat, i: nat, w: Word, g: nat, j: nat)
    ensures Rd(Wr(m, f, i, w), g, j) == if g == f && j == i then w else Rd(m, g, j)
  {
  }

  lemma RdClear(m: Mem, f: nat, g: nat, j: nat)
    ensures Rd(Clear(m, f), g, j) == if g == f then 0 else Rd(m, g, j)
  {
  }

  // ---------- addresses and entries ----------

  function PdeIdx(v: Word): nat { v / 0x40_0000 }
  function PteIdx(v: Word): nat { v / 0x1000 % 0x400 }
  function Offset(v: Word): nat { v % 0x1000 }

  predicate Present(w: Word) { w % 2 == 1 }
  predicate Writable(w: Word) { w / 2 % 2 == 1 }
  predicate ForUser(w: Word) { w / 4 % 2 == 1 }
  function FrameOf(w: Word): (f: nat)
    ensures f < FRAMES
  {
    w / 0x1000
  }

  /** A present, writable, user-accessible entry for a frame. */
  function Entry(f: nat): (w: Word)
    ensures Present(w) && (f < FRAMES ==> FrameOf(w) == f)
  {
    f % FRAMES * 0x1000 + 7
  }

  /** The attribute bits the kernel sets: present, writable, for user mode, and no other. */
  lemma EntryBits(f: nat)
    ensures Present(Entry(f)) && Writable(Entry(f)) && ForUser(Entry(f)) && Entry(f) % 0x1000 < 8
  {
  }

  /** The address of byte `off` of frame f. */
  function AddrIn(f: nat, off: nat): (w: Word)
    requires f < FRAMES && off < 0x1000
    ensures w / 0x1000 == f && w % 0x1000 == off
  {
    f * 0x1000 + off
  }

  // ---------- the MMU ----------

  function Pde(m: Mem, dir: nat, v: Word): Word { Rd(m, dir, PdeIdx(v)) }

  function Walk(m: Mem, dir: nat, v: Word): Option<Word> {
    var pde := Pde(m, dir, v);
    if !Present(pde) then None
    else
      var pte := Rd(m, FrameOf(pde), PteIdx(v));
      if !Present(pte) then None else Some(AddrIn(FrameOf(pte), Offset(v)))
  }

  /** What one entry permits to user mode (Intel SDM volume 3A, "Access Rights"). */
  predicate Permits(w: Word, write: bool) { Present(w) && ForUser(w) && (write ==> Writable(w)) }

  /** User mode may read, or write, at v: both entries of the walk permit it. */
  predicate UserMay(m: Mem, dir: nat, v: Word, write: bool) {
    Permits(Pde(m, dir, v), write) && Permits(Rd(m, FrameOf(Pde(m, dir, v)), PteIdx(v)), write)
  }

  /** The cell that the walk of v reads as its table entry, if it gets that far. */
  function PteCell(m: Mem, dir: nat, v: Word): Option<Cell> {
    var pde := Pde(m, dir, v);
    if !Present(pde) then None else Some(Cell(FrameOf(pde), PteIdx(v)))
  }

  function Load(m: Mem, dir: nat, v: Word): Outcome<Word> {
    match Walk(m, dir, v)
    case None => Stopped(PageFault)
    case Some(pa) => Ok(Rd(m, pa / 0x1000, pa % 0x1000 / 4))
  }

  function Store(m: Mem, dir: nat, v: Word, w: Word): Outcome<Mem> {
    match Walk(m, dir, v)
    case None => Stopped(PageFault)
    case Some(pa) => Ok(Wr(m, pa / 0x1000, pa % 0x1000 / 4, w))
  }

  /** memset of the page v lies in. */
  function ClearPage(m: Mem, dir: nat, v: Word): Outcome<Mem> {
    match Walk(m, dir, v)
    case None => Stopped(PageFault)
    case Some(pa) => Ok(Clear(m, pa / 0x1000))
  }

  // ---------- the recursive mapping ----------

  predicate SelfMap(m: Mem, dir: nat) {
    dir < FRAMES && Present(Rd(m, dir, 1023)) && FrameOf(Rd(m, dir, 1023)) == dir
  }

  function PtePtr(v: Word): (p: Word)
    ensures PdeIdx(p) == 1023 && PteIdx(p) == PdeIdx(v) && Offset(p) == PteIdx(v) * 4 && Offset(p) / 4 == PteIdx(v)
  {
    0xffc0_0000 + PdeIdx(v) * 0x1000 + PteIdx(v) * 4
  }

  function PdePtr(v: Word): (p: Word)
    ensures PdeIdx(p) == 1023 && PteIdx(p) == 1023 && Offset(p) == PdeIdx(v) * 4 && Offset(p) / 4 == PdeIdx(v)
  {
    0xffff_f000 + PdeIdx(v) * 4
  }

  function AddrV2P(m: Mem, dir: nat, v: Word): Outcome<Word> {
    var pte :- Load(m, dir, PtePtr(v));
    Ok(AddrIn(FrameOf(pte), Offset(v)))
  }

  /** Theorem: through the recursive mapping pde_ptr(v) and pte_ptr(v) name exactly the words
      the MMU reads for v, the latter as soon as v's directory entry is present. */
  lemma SelfMapCorrect(m: Mem, dir: nat, v: Word)
    requires SelfMap(m, dir)
    ensures Walk(m, dir, PdePtr(v)) == Some(AddrIn(dir, PdeIdx(v) * 4))
    ensures Present(Pde(m, dir, v)) ==> Walk(m, dir, PtePtr(v)) == Some(AddrIn(FrameOf(Pde(m, dir, v)), PteIdx(v) * 4))
    ensures !Present(Pde(m, dir, v)) ==> Walk(m, dir, PtePtr(v)) == None
    ensures Load(m, dir, PdePtr(v)) == Ok(Pde(m, dir, v))
    ensures Present(Pde(m, dir, v)) ==> Load(m, dir, PtePtr(v)) == Ok(Rd(m, FrameOf(Pde(m, dir, v)), PteIdx(v)))
  {
    assert PteIdx(v) * 4 % 0x1000 / 4 == PteIdx(v);
    assert PdeIdx(v) * 4 % 0x1000 / 4 == PdeIdx(v);
  }

  /** Theorem: addr_v2p agrees with the MMU on every mapped address. */
  lemma AddrV2PCorrect(m: Mem, dir: nat, v: Word)
    requires SelfMap(m, dir) && Walk(m, dir, v).Some?
    ensures AddrV2P(m, dir, v) == Ok(Walk(m, dir, v).value)
  {
    SelfMapCorrect(m, dir, v);
  }

  // ---------- physical pools ----------

  /** A pool of frames start, start + 1, ...: one bit each, then the guard bit. */
  datatype Pool = Pool(start: nat, bits: seq<bool>)

  function PoolSize(p: Pool): nat { if |p.bits| == 0 then 0 else |p.bits| - 1 }

  /** The frame belongs to the pool. */
  predicate InPool(p: Pool, f: nat) { p.start <= f < p.start + PoolSize(p) }

  /** The frame belongs to the pool and is handed out. */
  predicate Taken(p: Pool, f: nat) { InPool(p, f) && p.bits[f - p.start] }

  function Palloc(p: Pool): Outcome<(Pool, nat)>
    requires |p.bits| >= 1
  {
    match Scan(p.bits, 1)
    case Found(i) => if i < |p.bits| then Ok((p.(bits := p.bits[i := true]), p.start + i)) else Stopped(PoolFull)
    case _ => Stopped(PoolFull)
  }

  function CountClear(v: seq<bool>): nat {
    if v == [] then 0 else (if v[0] then 0 else 1) + CountClear(v[1..])
  }

  /** How many frames of the pool are left. */
  function Free(p: Pool): nat { if |p.bits| == 0 then 0 else CountClear(p.bits[..|p.bits| - 1]) }

  lemma {:induction false} CountClearUpdate(v: seq<bool>, i: nat)
    requires i < |v| && !v[i]
    ensures CountClear(v) == CountClear(v[i := true]) + 1
  {
    if i == 0 {
      assert v[i := true][1..] == v[1..];
    } else {
      assert v[i := true][1..] == v[1..][i - 1 := true];
      CountClearUpdate(v[1..], i - 1);
    }
  }

  lemma {:induction false} CountClearNone(v: seq<bool>)
    ensures CountClear(v) == 0 <==> forall i | 0 <= i < |v| :: v[i]
  {
    if v != [] {
      CountClearNone(v[1..]);
      assert forall i | 0 < i < |v| :: v[i] == v[1..][i - 1];
    }
  }

  /** palloc hands out the lowest free frame of the pool and marks exactly that one, or stops
      the machine exactly when no frame is free. */
  lemma PallocEffect(p: Pool)
    requires |p.bits| >= 1
    ensures Palloc(p).Stopped? <==> forall f: nat | InPool(p, f) :: Taken(p, f)
    ensures Palloc(p).Stopped? ==> Palloc(p).why == PoolFull
    ensures Palloc(p).Ok? ==> var (p', f) := Palloc(p).value;
      && p'.start == p.start && |p'.bits| == |p.bits| && InPool(p, f) && !Taken(p, f)
      && (forall g: nat :: Taken(p', g) <==> Taken(p, g) || g == f)
      && (forall g: nat | InPool(p, g) && g < f :: Taken(p, g))
      && Free(p) == Free(p') + 1
    ensures Palloc(p).Stopped? <==> Free(p) == 0
  {
    var body := p.bits[..|p.bits| - 1];
    FirstRunIsFirst(body, 1, 0);
    CountClearNone(body);
    var r := FirstRun(body, 1, 0);
    if r.Found? {
      assert !body[r.start] && body[r.start] == p.bits[r.start];
      assert p.bits[r.start := true][..|p.bits| - 1] == body[r.start := true];
      CountClearUpdate(body, r.start);
      assert !Taken(p, p.start + r.start);
      forall g: nat | InPool(p, g) && g < p.start + r.start ensures Taken(p, g) {
        assert !FreeRun(body, g - p.start, 1) && body[g - p.start] == p.bits[g - p.start];
      }
    } else {
      forall i | 0 <= i < |body| ensures body[i] { assert !FreeRun(body, i, 1); }
      forall g: nat | InPool(p, g) ensures Taken(p, g) {
        assert !FreeRun(body, g - p.start, 1) && body[g - p.start] == p.bits[g - p.start];
      }
    }
  }

  // ---------- page_table_add ----------

  function PageTableAdd(m: Mem, dir: nat, kpool: Pool, v: Word, f: nat): Outcome<(Mem, Pool)>
    requires |kpool.bits| >= 1
  {
    var pde :- Load(m, dir, PdePtr(v));
    if Present(pde) then
      var pte :- Load(m, dir, PtePtr(v));
      if Present(pte) then Stopped(PteRepeat)
      else
        var m1 :- Store(m, dir, PtePtr(v), Entry(f));
        Ok((m1, kpool))
    else
      var (kpool1, t) :- Palloc(kpool);
      var m1 :- Store(m, dir, PdePtr(v), Entry(t));
      var m2 :- ClearPage(m1, dir, PtePtr(v));
      var pte :- Load(m2, dir, PtePtr(v));
      if Present(pte) then Stopped(TableNotClear)
      else
        var m3 :- Store(m2, dir, PtePtr(v), Entry(f));
        Ok((m3, kpool1))
  }

  /** The branch with the table in place: one word changes, and only an already mapped page stops it. */
  lemma AddToTable(m: Mem, dir: nat, kpool: Pool, v: Word, f: nat)
    requires |kpool.bits| >= 1 && SelfMap(m, dir) && Present(Pde(m, dir, v))
    ensures var t := FrameOf(Pde(m, dir, v));
      PageTableAdd(m, dir, kpool, v, f) ==
      if Present(Rd(m, t, PteIdx(v))) then Stopped(PteRepeat) else Ok((Wr(m, t, PteIdx(v), Entry(f)), kpool))
  {
    hide Load, Store;
    SelfMapCorrect(m, dir, v);
    WindowWrites(m, dir, v, Entry(f));
  }

  /** Writes through the recursive mapping go to the words the MMU reads for v. */
  lemma WindowWrites(m: Mem, dir: nat, v: Word, w: Word)
    requires SelfMap(m, dir)
    ensures Store(m, dir, PdePtr(v), w) == Ok(Wr(m, dir, PdeIdx(v), w))
    ensures Present(Pde(m, dir, v)) ==>
      && Store(m, dir, PtePtr(v), w) == Ok(Wr(m, FrameOf(Pde(m, dir, v)), PteIdx(v), w))
      && ClearPage(m, dir, PtePtr(v)) == Ok(Clear(m, FrameOf(Pde(m, dir, v))))
  {
    hide Load, Walk, PdePtr, PtePtr, PdeIdx, PteIdx, AddrIn, Wr, Clear;
    SelfMapCorrect(m, dir, v);
    IndexBounds(v);
    WordIndex(PteIdx(v));
    WordIndex(PdeIdx(v));
  }

  lemma IndexBounds(v: Word)
    ensures PdeIdx(v) < 1024 && PteIdx(v) < 1024
  {
  }

  lemma WordIndex(i: nat)
    requires i < 1024
    ensures i * 4 < 0x1000 && i * 4 % 0x1000 / 4 == i
  {
  }

  /** The branch that brings in a new table: it is linked, cleared and given the one entry. */
  lemma AddNewTable(m: Mem, dir: nat, kpool: Pool, v: Word, f: nat)
    requires |kpool.bits| >= 1 && SelfMap(m, dir) && !Present(Pde(m, dir, v)) && PdeIdx(v) != 1023
    requires Palloc(kpool).Ok? ==> Palloc(kpool).value.1 < FRAMES && Palloc(kpool).value.1 != dir
    ensures Palloc(kpool).Stopped? ==> PageTableAdd(m, dir, kpool, v, f) == Stopped(PoolFull)
    ensures Palloc(kpool).Ok? ==> var (kpool1, t) := Palloc(kpool).value;
      PageTableAdd(m, dir, kpool, v, f) ==
      Ok((Wr(Clear(Wr(m, dir, PdeIdx(v), Entry(t)), t), t, PteIdx(v), Entry(f)), kpool1))
  {
    hide Palloc, Walk, Load, Store, ClearPage, Wr, Clear;
    SelfMapCorrect(m, dir, v);
    PallocEffect(kpool);
    if Palloc(kpool).Ok? {
      var (kpool1, t) := Palloc(kpool).value;
      var m1 := Wr(m, dir, PdeIdx(v), Entry(t));
      RdWr(m, dir, PdeIdx(v), Entry(t), dir, 1023);
      RdWr(m, dir, PdeIdx(v), Entry(t), dir, PdeIdx(v));
      WindowWrites(m, dir, v, Entry(t));
      WindowWrites(m1, dir, v, Entry(t));
      var m2 := Clear(m1, t);
      RdClear(m1, t, dir, 1023);
      RdClear(m1, t, dir, PdeIdx(v));
      RdClear(m1, t, t, PteIdx(v));
      SelfMapCorrect(m2, dir, v);
      WindowWrites(m2, dir, v, Entry(f));
    }
  }

  lemma EntryPermits(f: nat, write: bool)
    ensures Permits(Entry(f), write)
  {
    EntryBits(f);
  }

  /** Theorem: a page that was added may be read and written from user mode exactly as far as the directory
      entry in place permits; with a new table always. */
  lemma AddRights(m: Mem, dir: nat, kpool: Pool, v: Word, f: nat, write: bool)
    requires |kpool.bits| >= 1 && SelfMap(m, dir) && PdeIdx(v) != 1023
    requires !Present(Pde(m, dir, v)) && Palloc(kpool).Ok? ==> Palloc(kpool).value.1 < FRAMES && Palloc(kpool).value.1 != dir
    ensures PageTableAdd(m, dir, kpool, v, f).Ok? ==>
      (UserMay(PageTableAdd(m, dir, kpool, v, f).value.0, dir, v, write) <==> (Present(Pde(m, dir, v)) ==> Permits(Pde(m, dir, v), write)))
  {
    hide PageTableAdd, Palloc, Permits, Wr, Clear, Entry;
    EntryPermits(f, write);
    if Present(Pde(m, dir, v)) {
      AddToTable(m, dir, kpool, v, f);
      var t := FrameOf(Pde(m, dir, v));
      RdWr(m, t, PteIdx(v), Entry(f), dir, PdeIdx(v));
      RdWr(m, t, PteIdx(v), Entry(f), t, PteIdx(v));
    } else if Palloc(kpool).Ok? {
      AddNewTable(m, dir, kpool, v, f);
      var t := Palloc(kpool).value.1;
      EntryPermits(t, write);
      var m1 := Wr(m, dir, PdeIdx(v), Entry(t));
      RdWr(m, dir, PdeIdx(v), Entry(t), dir, PdeIdx(v));
      RdClear(m1, t, dir, PdeIdx(v));
      RdWr(Clear(m1, t), t, PteIdx(v), Entry(f), dir, PdeIdx(v));
      RdWr(Clear(m1, t), t, PteIdx(v), Entry(f), t, PteIdx(v));
    } else {
      AddNewTable(m, dir, kpool, v, f);
    }
  }

  /** Theorem: with the table in place, v then walks to f, and any address in any directory
      (other than the table itself taken for a directory) walks as before unless its walk ends
      in the word that was written, in which case it walks to f as well. */
  lemma AddToTableWalk(m: Mem, dir: nat, kpool: Pool, v: Word, f: nat, e: nat, x: Word)
    requires |kpool.bits| >= 1 && SelfMap(m, dir) && Present(Pde(m, dir, v)) && f < FRAMES
    requires !Present(Rd(m, FrameOf(Pde(m, dir, v)), PteIdx(v)))
    ensures PageTableAdd(m, dir, kpool, v, f).Ok?
    ensures var m' := PageTableAdd(m, dir, kpool, v, f).value.0;
      && Walk(m', dir, v) == Some(AddrIn(f, Offset(v)))
      && (e != FrameOf(Pde(m, dir, v)) ==>
            Walk(m', e, x) == if PteCell(m, e, x) == PteCell(m, dir, v) then Some(AddrIn(f, Offset(x))) else Walk(m, e, x))
  {
    AddToTable(m, dir, kpool, v, f);
  }

  /** Theorem: with a new table t that nothing refers to yet, v then walks to f, the rest of v's
      4 MB region is unmapped as before, the window page of the new table appears, and every
      other address in every directory walks as before. */
  lemma AddNewTableWalk(m: Mem, dir: nat, kpool: Pool, v: Word, f: nat, e: nat, x: Word)
    requires |kpool.bits| >= 1 && SelfMap(m, dir) && !Present(Pde(m, dir, v)) && PdeIdx(v) != 1023 && f < FRAMES
    requires Palloc(kpool).Ok? && Palloc(kpool).value.1 < FRAMES && Palloc(kpool).value.1 != dir
    requires e != Palloc(kpool).value.1 && (Present(Pde(m, e, x)) ==> FrameOf(Pde(m, e, x)) != Palloc(kpool).value.1)
    ensures PageTableAdd(m, dir, kpool, v, f).Ok?
    ensures var m', t := PageTableAdd(m, dir, kpool, v, f).value.0, Palloc(kpool).value.1;
      && Walk(m', dir, v) == Some(AddrIn(f, Offset(v)))
      && Walk(m', e, x) ==
         if e == dir && PdeIdx(x) == PdeIdx(v) then (if PteIdx(x) == PteIdx(v) then Some(AddrIn(f, Offset(x))) else None)
         else if PteCell(m, e, x) == Some(Cell(dir, PdeIdx(v))) then Some(AddrIn(t, Offset(x)))
         else Walk(m, e, x)
  {
    AddNewTable(m, dir, kpool, v, f);
    var t := Palloc(kpool).value.1;
    var m1 := Wr(m, dir, PdeIdx(v), Entry(t));
    var m2 := Clear(m1, t);
    RdClear(m1, t, e, PdeIdx(x));
    RdClear(m1, t, dir, PdeIdx(v));
    RdClear(m1, t, FrameOf(Pde(m2, e, x)), PteIdx(x));
    RdClear(m1, t, t, PteIdx(x));
  }
}
