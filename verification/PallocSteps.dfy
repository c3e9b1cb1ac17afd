/**
 palloc in the steps at which an interrupt can come: one look at a byte or a bit of the bitmap, the
 load and the store of the byte in which the bit is marked.  A scan can then be overtaken by the
 marks of others, and its loop over the bits of a byte can run past the eighth.
 */
module PallocSteps {
  import opened Bitmap

  type Tid = nat

  /** Where a call stands: before byte k, before bit j of byte k, having decided for bit i, and having
      loaded the byte that holds it. */
  datatype Phase = AtByte(k: nat) | AtBit(k: nat, j: nat) | Decided(i: nat) | Loaded(i: nat, byte: seq<bool>)

  /** The bits of the bitmap's len bytes and of the byte behind them, the calls under way, and the
      indices handed out. */
  datatype Calls = Calls(len: nat, bits: seq<bool>, at: map<Tid, Phase>, given: seq<nat>)

  datatype Op = Begin(t: Tid) | Go(t: Tid)

  predicate Wide(s: Calls) { |s.bits| == 8 * s.len + 8 }

  function ByteAt(s: Calls, k: nat): seq<bool>
    requires Wide(s) && k <= s.len
  {
    s.bits[8 * k..8 * k + 8]
  }

  predicate FullAt(s: Calls, k: nat)
    requires Wide(s) && k <= s.len
  {
    var w := ByteAt(s, k); forall j | 0 <= j < 8 :: w[j]
  }

  /** The point makes sense, and the scan has not come to the ASSERT behind the last byte. */
  predicate InRange(s: Calls, p: Phase) {
    match p
    case AtByte(k) => k < s.len
    case AtBit(k, j) => k < s.len && j <= 8
    case Decided(i) => i <= 8 * s.len
    case Loaded(i, byte) => i <= 8 * s.len && |byte| == 8
  }

  predicate Enabled(s: Calls, op: Op) {
    Wide(s) && match op case Begin(t) => t !in s.at case Go(t) => t in s.at && InRange(s, s.at[t])
  }

  /** The loop over the bits ends at a clear bit, or past the last one, where the mask is zero. */
  predicate Ends(s: Calls, p: Phase)
    requires Wide(s)
  {
    p.AtBit? && InRange(s, p) && (p.j == 8 || !s.bits[8 * p.k + p.j])
  }

  function Stored(s: Calls, i: nat, byte: seq<bool>): seq<bool>
    requires Wide(s) && i <= 8 * s.len && |byte| == 8
  {
    s.bits[..8 * (i / 8)] + byte[i % 8 := true] + s.bits[8 * (i / 8) + 8..]
  }

  function Step(s: Calls, op: Op): Calls
    requires Enabled(s, op)
  {
    match op
    case Begin(t) => s.(at := s.at[t := AtByte(0)])
    case Go(t) =>
      match s.at[t]
      case AtByte(k) => s.(at := s.at[t := if FullAt(s, k) then AtByte(k + 1) else AtBit(k, 0)])
      case AtBit(k, j) => s.(at := s.at[t := if Ends(s, s.at[t]) then Decided(8 * k + j) else AtBit(k, j + 1)])
      case Decided(i) => s.(at := s.at[t := Loaded(i, ByteAt(s, i / 8))])
      case Loaded(i, byte) => s.(bits := Stored(s, i, byte), at := s.at - {t}, given := s.given + [i])
  }

  /** The run is possible and every call in it returns. */
  predicate Completes(s: Calls, ops: seq<Op>)
    decreases |ops|
  {
    if ops == [] then s.at == map[] else Enabled(s, ops[0]) && Completes(Step(s, ops[0]), ops[1..])
  }

  function Exec(s: Calls, ops: seq<Op>): Calls
    requires Completes(s, ops)
    decreases |ops|
  {
    if ops == [] then s else Exec(Step(s, ops[0]), ops[1..])
  }

  // ---------- when the last part of a call is not disturbed ----------

  /** From its decision to its store. */
  predicate InWindow(p: Phase) { p.Decided? || p.Loaded? }

  /** The step decides, loads or stores. */
  predicate Acts(s: Calls, op: Op)
    requires Enabled(s, op)
  {
    op.Go? && (InWindow(s.at[op.t]) || Ends(s, s.at[op.t]))
  }

  /** Nobody decides, loads or stores while another is between its decision and its store; scanning is
      free. */
  ghost predicate Guarded(s: Calls, ops: seq<Op>)
    requires Completes(s, ops)
    decreases |ops|
  {
    ops != [] ==>
      && (Acts(s, ops[0]) ==> forall t | t in s.at && t != ops[0].t :: !InWindow(s.at[t]))
      && Guarded(Step(s, ops[0]), ops[1..])
  }

  /** A scan that runs past the eighth bit of its byte finds the next bit clear and inside the bitmap. */
  predicate Tidy(s: Calls, ops: seq<Op>)
    requires Completes(s, ops)
    decreases |ops|
  {
    ops != [] ==> TidyStep(s, ops[0]) && Tidy(Step(s, ops[0]), ops[1..])
  }

  predicate TidyStep(s: Calls, op: Op)
    requires Enabled(s, op)
  {
    op.Go? && s.at[op.t].AtBit? && s.at[op.t].j == 8 ==> var i := 8 * s.at[op.t].k + 8; i < 8 * s.len && !s.bits[i]
  }

  ghost predicate Distinct(xs: seq<nat>) {
    forall i, j | 0 <= i < j < |xs| :: xs[i] != xs[j]
  }

  /** What palloc is for: frames of the pool that were free, each handed out once. */
  ghost predicate Sound(len: nat, bits: seq<bool>, given: seq<nat>) {
    Distinct(given) && forall x | x in given :: x < 8 * len && x < |bits| && !bits[x]
  }

  // ---------- what a guarded run keeps ----------

  /** A bit is set if it was from the start, or its index was handed out. */
  ghost predicate BitsOk(s: Calls, bits: seq<bool>) {
    Wide(s) && |bits| == |s.bits| && forall x | 0 <= x < |bits| :: s.bits[x] <==> bits[x] || x in s.given
  }

  /** At most one call is in its window; the byte it loaded is still what memory holds. */
  ghost predicate WindowOk(s: Calls)
    requires Wide(s)
  {
    && (forall t, u | t in s.at && u in s.at && InWindow(s.at[t]) && InWindow(s.at[u]) :: t == u)
    && (forall t | t in s.at && InWindow(s.at[t]) :: s.at[t].i <= 8 * s.len)
    && (forall t | t in s.at && s.at[t].Loaded? :: s.at[t].byte == ByteAt(s, s.at[t].i / 8))
  }

  /** The index a call has decided for is still free. */
  ghost predicate WindowFree(s: Calls) {
    forall t | t in s.at && InWindow(s.at[t]) :: s.at[t].i < 8 * s.len && s.at[t].i < |s.bits| && !s.bits[s.at[t].i]
  }

  lemma StoredBits(s: Calls, i: nat)
    requires Wide(s) && i <= 8 * s.len
    ensures Stored(s, i, ByteAt(s, i / 8)) == s.bits[i := true]
  {
    var k, w := i / 8, ByteAt(s, i / 8);
    assert i == 8 * k + i % 8;
    forall x | 0 <= x < |s.bits| ensures Stored(s, i, w)[x] == s.bits[i := true][x] {
      if 8 * k <= x < 8 * k + 8 { assert w[x - 8 * k] == s.bits[x]; }
    }
  }

  lemma StepKeeps(s: Calls, op: Op, bits: seq<bool>)
    requires Enabled(s, op) && BitsOk(s, bits) && WindowOk(s)
    requires Acts(s, op) ==> forall t | t in s.at && t != op.t :: !InWindow(s.at[t])
    ensures Wide(Step(s, op)) && BitsOk(Step(s, op), bits) && WindowOk(Step(s, op)) && Step(s, op).len == s.len
  {
    hide Stored;
    if op.Go? && s.at[op.t].Loaded? {
      StoredBits(s, s.at[op.t].i);
      var s' := Step(s, op);
      forall x | 0 <= x < |bits| ensures s'.bits[x] <==> bits[x] || x in s'.given {
        assert x in s'.given <==> x in s.given || x == s.at[op.t].i;
      }
    }
  }

  /** A tidy step keeps every decision free, and hands out a free frame. */
  lemma StepSound(s: Calls, op: Op, bits: seq<bool>)
    requires Enabled(s, op) && BitsOk(s, bits) && WindowOk(s) && WindowFree(s) && Sound(s.len, bits, s.given) && TidyStep(s, op)
    requires Acts(s, op) ==> forall t | t in s.at && t != op.t :: !InWindow(s.at[t])
    ensures WindowFree(Step(s, op)) && Sound(s.len, bits, Step(s, op).given)
  {
    hide Stored;
    StepKeeps(s, op, bits);
  }

  /** A decision for a bit that is set, or behind the bitmap. */
  ghost predicate Spoilt(s: Calls, bits: seq<bool>) {
    || !Sound(s.len, bits, s.given)
    || (exists t :: t in s.at && InWindow(s.at[t]) && (s.at[t].i >= 8 * s.len || s.at[t].i >= |bits| || bits[s.at[t].i] || s.at[t].i in s.given))
  }

  lemma SpoiltStays(s: Calls, op: Op, bits: seq<bool>)
    requires Enabled(s, op) && Spoilt(s, bits)
    ensures Spoilt(Step(s, op), bits)
  {
    hide Stored;
    var s' := Step(s, op);
    if !Sound(s.len, bits, s.given) {
      GrownUnsound(s.len, bits, s.given, s'.given);
    } else {
      var t :| t in s.at && InWindow(s.at[t]) && (s.at[t].i >= 8 * s.len || s.at[t].i >= |bits| || bits[s.at[t].i] || s.at[t].i in s.given);
      var i := s.at[t].i;
      if op == Go(t) && s.at[t].Loaded? {
        assert s'.given == s.given + [i] && i in s'.given;
        if i in s.given {
          var a :| 0 <= a < |s.given| && s.given[a] == i;
          assert s'.given[a] == s'.given[|s.given|];
        }
      } else {
        assert t in s'.at && InWindow(s'.at[t]) && s'.at[t].i == i && (i in s.given ==> i in s'.given);
      }
    }
  }

  lemma GrownUnsound(len: nat, bits: seq<bool>, xs: seq<nat>, ys: seq<nat>)
    requires !Sound(len, bits, xs) && xs <= ys
    ensures !Sound(len, bits, ys)
  {
    if !Distinct(xs) {
      var i, j :| 0 <= i < j < |xs| && xs[i] == xs[j];
      assert ys[i] == ys[j];
    } else {
      var x :| x in xs && !(x < 8 * len && x < |bits| && !bits[x]);
      assert x in ys;
    }
  }

  lemma {:induction false} SpoiltShows(s: Calls, ops: seq<Op>, bits: seq<bool>)
    requires Completes(s, ops) && Spoilt(s, bits)
    ensures !Sound(Exec(s, ops).len, bits, Exec(s, ops).given)
    decreases |ops|
  {
    if ops != [] {
      SpoiltStays(s, ops[0], bits);
      SpoiltShows(Step(s, ops[0]), ops[1..], bits);
    }
  }

  lemma UntidySpoils(s: Calls, op: Op, bits: seq<bool>)
    requires Enabled(s, op) && BitsOk(s, bits) && !TidyStep(s, op)
    ensures Spoilt(Step(s, op), bits)
  {
    var i := 8 * s.at[op.t].k + 8;
    assert Step(s, op).at[op.t] == Decided(i);
  }

  // ---------- the theorem ----------

  lemma {:induction false} SoundIffTidyFrom(s: Calls, ops: seq<Op>, bits: seq<bool>)
    requires Completes(s, ops) && Guarded(s, ops) && BitsOk(s, bits) && WindowOk(s) && WindowFree(s) && Sound(s.len, bits, s.given)
    ensures Exec(s, ops).len == s.len && (Sound(s.len, bits, Exec(s, ops).given) <==> Tidy(s, ops))
    decreases |ops|
  {
    hide BitsOk, WindowOk, WindowFree, Sound, TidyStep, Spoilt, Step, Enabled, Acts;
    if ops != [] {
      var s' := Step(s, ops[0]);
      StepKeeps(s, ops[0], bits);
      if TidyStep(s, ops[0]) {
        StepSound(s, ops[0], bits);
        SoundIffTidyFrom(s', ops[1..], bits);
      } else {
        UntidySpoils(s, ops[0], bits);
        SpoiltShows(s', ops[1..], bits);
        LenKept(s', ops[1..]);
      }
    }
  }

  lemma {:induction false} LenKept(s: Calls, ops: seq<Op>)
    requires Completes(s, ops)
    ensures Exec(s, ops).len == s.len
    decreases |ops|
  {
    hide Stored;
    if ops != [] { LenKept(Step(s, ops[0]), ops[1..]); }
  }

  /** Theorem: for any number of calls in any interleaving of their looks, loads and stores in which nobody
      decides, loads or stores between another's decision and its store, every frame handed out was free,
      lies in the pool and is handed out once, exactly when no scan runs past the end of its byte onto a
      bit that is set or behind the bitmap. */
  lemma SoundIffTidy(len: nat, bits: seq<bool>, ops: seq<Op>)
    requires |bits| == 8 * len + 8 && Completes(Calls(len, bits, map[], []), ops) && Guarded(Calls(len, bits, map[], []), ops)
    ensures Sound(len, bits, Exec(Calls(len, bits, map[], []), ops).given) <==> Tidy(Calls(len, bits, map[], []), ops)
  {
    SoundIffTidyFrom(Calls(len, bits, map[], []), ops, bits);
  }

  // ---------- a call by itself, and one that is overtaken ----------

  /** A guarded run leads from s to s'. */
  ghost predicate Leads(s: Calls, ops: seq<Op>, s': Calls)
    decreases |ops|
  {
    if ops == [] then s == s'
    else
      && Enabled(s, ops[0]) && (Acts(s, ops[0]) ==> forall t | t in s.at && t != ops[0].t :: !InWindow(s.at[t]))
      && Leads(Step(s, ops[0]), ops[1..], s')
  }

  lemma {:induction false} LeadsThen(s: Calls, ops: seq<Op>, s1: Calls, more: seq<Op>, s2: Calls)
    requires Leads(s, ops, s1) && Leads(s1, more, s2)
    ensures Leads(s, ops + more, s2)
    decreases |ops|
  {
    hide Enabled, Acts, Step;
    if ops == [] {
      assert ops + more == more;
    } else {
      assert (ops + more)[0] == ops[0] && (ops + more)[1..] == ops[1..] + more;
      LeadsThen(Step(s, ops[0]), ops[1..], s1, more, s2);
    }
  }

  lemma {:induction false} LeadsIsRun(s: Calls, ops: seq<Op>, s': Calls)
    requires Leads(s, ops, s') && s'.at == map[]
    ensures Completes(s, ops) && Guarded(s, ops) && Exec(s, ops) == s'
    decreases |ops|
  {
    hide Enabled, Acts, Step;
    if ops != [] { LeadsIsRun(Step(s, ops[0]), ops[1..], s'); }
  }

  lemma LeadsOne(s: Calls, op: Op)
    requires Enabled(s, op) && (Acts(s, op) ==> forall t | t in s.at && t != op.t :: !InWindow(s.at[t]))
    ensures Leads(s, [op], Step(s, op))
  {
    hide Enabled, Acts, Step;
    assert [op][1..] == [] && Leads(Step(s, op), [], Step(s, op));
  }

  function At(s: Calls, t: Tid, p: Phase): Calls { s.(at := s.at[t := p]) }

  /** Looks at set bits only move on. */
  lemma {:induction false} WalkBits(s: Calls, t: Tid, k: nat, j: nat, n: nat) returns (ops: seq<Op>)
    requires Wide(s) && k < s.len && j + n <= 8 && forall x | 8 * k + j <= x < 8 * k + j + n :: s.bits[x]
    ensures Leads(At(s, t, AtBit(k, j)), ops, At(s, t, AtBit(k, j + n)))
    decreases n
  {
    if n == 0 {
      ops := [];
    } else {
      var s1 := At(s, t, AtBit(k, j));
      assert s.bits[8 * k + j] && !Ends(s1, s1.at[t]);
      LeadsOne(s1, Go(t));
      assert Step(s1, Go(t)) == At(s, t, AtBit(k, j + 1));
      ops := WalkBits(s, t, k, j + 1, n - 1);
      LeadsThen(s1, [Go(t)], At(s, t, AtBit(k, j + 1)), ops, At(s, t, AtBit(k, j + n)));
      ops := [Go(t)] + ops;
    }
  }

  /** Looks at full bytes only move on. */
  lemma {:induction false} WalkBytes(s: Calls, t: Tid, k: nat, n: nat) returns (ops: seq<Op>)
    requires Wide(s) && k + n <= s.len && forall x | 8 * k <= x < 8 * (k + n) :: s.bits[x]
    ensures Leads(At(s, t, AtByte(k)), ops, At(s, t, AtByte(k + n)))
    decreases n
  {
    if n == 0 {
      ops := [];
    } else {
      var s1 := At(s, t, AtByte(k));
      assert FullAt(s1, k);
      LeadsOne(s1, Go(t));
      assert Step(s1, Go(t)) == At(s, t, AtByte(k + 1));
      ops := WalkBytes(s, t, k + 1, n - 1);
      LeadsThen(s1, [Go(t)], At(s, t, AtByte(k + 1)), ops, At(s, t, AtByte(k + n)));
      ops := [Go(t)] + ops;
    }
  }

  /** From a look that finds bit i clear, or runs past its byte, to the store. */
  lemma Finishes(s: Calls, t: Tid, k: nat, j: nat) returns (ops: seq<Op>)
    requires Wide(s) && t !in s.at && k < s.len && j <= 8 && (j == 8 || !s.bits[8 * k + j])
    requires forall u | u in s.at :: !InWindow(s.at[u])
    ensures Leads(At(s, t, AtBit(k, j)), ops, s.(bits := s.bits[8 * k + j := true], given := s.given + [8 * k + j]))
  {
    hide Stored;
    var i := 8 * k + j;
    var s0, s1, s2 := At(s, t, AtBit(k, j)), At(s, t, Decided(i)), At(s, t, Loaded(i, ByteAt(s, i / 8)));
    var s3 := s.(bits := s.bits[i := true], given := s.given + [i]);
    LeadsOne(s0, Go(t));
    assert Step(s0, Go(t)) == s1;
    LeadsOne(s1, Go(t));
    assert Step(s1, Go(t)) == s2;
    LeadsOne(s2, Go(t));
    StoredBits(s2, i);
    assert s2.at - {t} == s.at && ByteAt(s2, i / 8) == ByteAt(s, i / 8);
    assert Step(s2, Go(t)) == s3;
    LeadsThen(s1, [Go(t)], s2, [Go(t)], s3);
    LeadsThen(s0, [Go(t)], s1, [Go(t)] + [Go(t)], s3);
    ops := [Go(t)] + ([Go(t)] + [Go(t)]);
  }

  /** To the byte of the least free bit i, and into the loop over its bits. */
  lemma Enters(s: Calls, t: Tid, i: nat) returns (ops: seq<Op>)
    requires Wide(s) && t !in s.at && i < 8 * s.len && !s.bits[i] && forall x | 0 <= x < i :: s.bits[x]
    ensures Leads(s, ops, At(s, t, AtBit(i / 8, 0)))
  {
    hide Leads;
    var k := i / 8;
    assert i == 8 * k + i % 8;
    LeadsOne(s, Begin(t));
    var a := WalkBytes(s, t, 0, k);
    LeadsThen(s, [Begin(t)], At(s, t, AtByte(0)), a, At(s, t, AtByte(k)));
    var s1 := At(s, t, AtByte(k));
    assert !FullAt(s1, k) by { assert !ByteAt(s1, k)[i % 8]; }
    LeadsOne(s1, Go(t));
    assert Step(s1, Go(t)) == At(s, t, AtBit(k, 0));
    LeadsThen(s, [Begin(t)] + a, s1, [Go(t)], At(s, t, AtBit(k, 0)));
    ops := [Begin(t)] + a + [Go(t)];
  }

  /** A call that nobody disturbs takes the least free bit, which is what bitmap_scan as a whole answers. */
  lemma CallAlone(s: Calls, t: Tid, i: nat) returns (ops: seq<Op>)
    requires Wide(s) && t !in s.at && i < 8 * s.len && !s.bits[i] && forall x | 0 <= x < i :: s.bits[x]
    requires forall u | u in s.at :: !InWindow(s.at[u])
    ensures Leads(s, ops, s.(bits := s.bits[i := true], given := s.given + [i]))
    ensures Scan(s.bits[..8 * s.len + 1], 1) == Found(i)
  {
    hide Leads, Scan, FirstRun;
    var k, j := i / 8, i % 8;
    assert i == 8 * k + j;
    var a := Enters(s, t, i);
    var b := WalkBits(s, t, k, 0, j);
    LeadsThen(s, a, At(s, t, AtBit(k, 0)), b, At(s, t, AtBit(k, j)));
    var c := Finishes(s, t, k, j);
    LeadsThen(s, a + b, At(s, t, AtBit(k, j)), c, s.(bits := s.bits[i := true], given := s.given + [i]));
    ops := a + b + c;
    LeastIsScan(s.bits[..8 * s.len + 1], i);
  }

  lemma LeastIsScan(v: seq<bool>, i: nat)
    requires |v| >= 1 && i < |v| - 1 && !v[i] && forall x | 0 <= x < i :: v[x]
    ensures Scan(v, 1) == Found(i)
  {
    FirstFree(v, i);
  }

  /** A bitmap of one byte with one bit left.  A scan is overtaken on its way along the byte by a whole call;
      it then runs past the byte and takes a frame that is not in the pool. */
  lemma RunsPast() returns (ops: seq<Op>)
    ensures var s := Calls(1, [true, true, true, true, true, true, true, false] + seq(8, _ => false), map[], []);
      Completes(s, ops) && Guarded(s, ops) && Exec(s, ops).given == [7, 8]
  {
    hide Leads, Enabled, Acts, Step;
    var s := Calls(1, [true, true, true, true, true, true, true, false] + seq(8, _ => false), map[], []);
    var a := Enters(s, 0, 7);
    var s1 := At(s, 0, AtBit(0, 0));
    var b := CallAlone(s1, 1, 7);
    var s2 := s.(bits := s.bits[7 := true], given := [7]);
    assert s1.(bits := s1.bits[7 := true], given := s1.given + [7]) == At(s2, 0, AtBit(0, 0));
    LeadsThen(s, a, s1, b, At(s2, 0, AtBit(0, 0)));
    var c := WalkBits(s2, 0, 0, 0, 8);
    LeadsThen(s, a + b, At(s2, 0, AtBit(0, 0)), c, At(s2, 0, AtBit(0, 8)));
    var d := Finishes(s2, 0, 0, 8);
    var s3 := s2.(bits := s2.bits[8 := true], given := s2.given + [8]);
    LeadsThen(s, a + b + c, At(s2, 0, AtBit(0, 8)), d, s3);
    ops := a + b + c + d;
    LeadsIsRun(s, ops, s3);
  }
}
