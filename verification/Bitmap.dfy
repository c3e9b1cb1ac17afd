/**
 The allocation bitmap: an array of bytes, one bit per page.

 The scan for a run of several bits also looks at the bit just past the last byte of the
 bitmap, so the byte after the bitmap belongs to the memory the scan reads.  Its lowest bit
 is called the guard bit here.
 */
module Bitmap {

  type Byte = bv8

  predicate TestBit(b: Byte, k: nat)
    requires k < 8
  {
    b & (1 << k) != 0
  }

  /** Bit i of a block of bytes. */
  predicate BitAt(bytes: seq<Byte>, i: nat)
    requires i / 8 < |bytes|
  {
    TestBit(bytes[i / 8], i % 8)
  }

  /** Bits 0 .. 8*len of the block: those of the bitmap and the guard bit. */
  ghost function View(bytes: seq<Byte>, len: nat): (v: seq<bool>)
    requires len < |bytes|
    ensures |v| == 8 * len + 1
    ensures forall i | 0 <= i < |v| :: v[i] == BitAt(bytes, i)
  {
    seq(8 * len + 1, i requires 0 <= i < 8 * len + 1 => BitAt(bytes, i))
  }

  lemma FullByte(b: Byte)
    ensures b == 0xff <==> (forall k | 0 <= k < 8 :: TestBit(b, k))
  {
    if b != 0xff {
      assert !TestBit(b, 0) || !TestBit(b, 1) || !TestBit(b, 2) || !TestBit(b, 3)
          || !TestBit(b, 4) || !TestBit(b, 5) || !TestBit(b, 6) || !TestBit(b, 7);
    }
  }

  lemma SetBit(b: Byte, k: nat, j: nat)
    requires k < 8 && j < 8
    ensures TestBit(b | (1 << k), j) == (j == k || TestBit(b, j))
    ensures TestBit(b & !(1 << k), j) == (j != k && TestBit(b, j))
  {
  }

  // ---------- what a scan looks for ----------

  /** cnt free bits starting at st, all among the bits of v. */
  ghost predicate FreeRun(v: seq<bool>, st: nat, cnt: nat) {
    st + cnt <= |v| && forall i | st <= i < st + cnt :: !v[i]
  }

  ghost predicate HasRun(v: seq<bool>, cnt: nat) {
    exists st: nat :: FreeRun(v, st, cnt)
  }

  datatype ScanResult = Halted | NotFound | Found(start: nat)

  /** The least start of a free run at or after `from`. */
  function FirstRun(v: seq<bool>, cnt: nat, from: nat): (r: ScanResult)
    requires cnt >= 1
    decreases |v| - from
  {
    if from + cnt > |v| then NotFound
    else if RunFree(v[from..from + cnt]) then Found(from)
    else FirstRun(v, cnt, from + 1)
  }

  predicate RunFree(w: seq<bool>) { forall i | 0 <= i < |w| :: !w[i] }

  lemma {:induction false} FirstRunIsFirst(v: seq<bool>, cnt: nat, from: nat)
    requires cnt >= 1
    ensures FirstRun(v, cnt, from) != Halted
    ensures FirstRun(v, cnt, from).Found? ==>
      && from <= FirstRun(v, cnt, from).start
      && FreeRun(v, FirstRun(v, cnt, from).start, cnt)
      && (forall st | from <= st < FirstRun(v, cnt, from).start :: !FreeRun(v, st, cnt))
    ensures FirstRun(v, cnt, from) == NotFound ==> forall st | from <= st :: !FreeRun(v, st, cnt)
    decreases |v| - from
  {
    if from + cnt <= |v| {
      var w := v[from..from + cnt];
      assert FreeRun(v, from, cnt) <==> RunFree(w) by {
        if RunFree(w) {
          forall i | from <= i < from + cnt ensures !v[i] { assert v[i] == w[i - from]; }
        }
      }
      if !RunFree(w) { FirstRunIsFirst(v, cnt, from + 1); }
    }
  }

  /** A description of the first free run that pins FirstRun down. */
  lemma FirstRunFound(v: seq<bool>, cnt: nat, st: nat)
    requires cnt >= 1 && FreeRun(v, st, cnt) && forall s | 0 <= s < st :: !FreeRun(v, s, cnt)
    ensures FirstRun(v, cnt, 0) == Found(st)
  {
    FirstRunIsFirst(v, cnt, 0);
  }

  lemma FirstRunNone(v: seq<bool>, cnt: nat)
    requires cnt >= 1 && forall s: nat :: !FreeRun(v, s, cnt)
    ensures FirstRun(v, cnt, 0) == NotFound
  {
    FirstRunIsFirst(v, cnt, 0);
  }

  /** What bitmap_scan answers for the bits v of a bitmap, the last of which is the guard bit:
      the machine stops when every bit of the bitmap is set; one bit is looked for in the bitmap
      itself, a longer run in the bitmap and the guard bit. */
  function Scan(v: seq<bool>, cnt: nat): ScanResult
    requires |v| >= 1 && cnt >= 1
  {
    var body := v[..|v| - 1];
    if FirstRun(body, 1, 0) == NotFound then Halted
    else if cnt == 1 then FirstRun(body, 1, 0)
    else FirstRun(v, cnt, 0)
  }

  /** Theorem: bitmap_scan is first fit among the bits it examines.  It stops the machine exactly when
      the bitmap is full, finds nothing exactly when no run exists, and otherwise returns the least
      start of a run. */
  lemma ScanIsFirstFit(v: seq<bool>, cnt: nat)
    requires |v| >= 1 && cnt >= 1
    ensures Scan(v, cnt) == Halted <==> forall i | 0 <= i < |v| - 1 :: v[i]
    ensures Scan(v, cnt) == NotFound <==> (exists i :: 0 <= i < |v| - 1 && !v[i]) && forall st: nat :: !FreeRun(v, st, cnt)
    ensures Scan(v, cnt).Found? ==>
      && FreeRun(v, Scan(v, cnt).start, cnt)
      && forall st: nat | st < Scan(v, cnt).start :: !FreeRun(v, st, cnt)
  {
    var body := v[..|v| - 1];
    FirstRunIsFirst(body, 1, 0);
    FirstRunIsFirst(v, cnt, 0);
    forall i: nat | i < |v| - 1 ensures FreeRun(body, i, 1) <==> !v[i] { assert body[i] == v[i]; }
    if Scan(v, cnt) == Halted {
      forall i | 0 <= i < |v| - 1 ensures v[i] { assert !FreeRun(body, i, 1); }
    } else {
      var first := FirstRun(body, 1, 0).start;
      assert FreeRun(body, first, 1) && !v[first];
      if cnt == 1 {
        assert FreeRun(v, first, 1);
        forall st: nat | st < first ensures !FreeRun(v, st, 1) { assert !FreeRun(body, st, 1); }
      }
    }
  }

  /** Theorem: the run found lies inside the bitmap exactly when the bitmap alone, without the guard
      bit, has a free run of that length. */
  lemma RunStaysInsideIff(v: seq<bool>, cnt: nat)
    requires |v| >= 1 && cnt >= 1 && Scan(v, cnt).Found?
    ensures Scan(v, cnt).start + cnt <= |v| - 1 <==> HasRun(v[..|v| - 1], cnt)
  {
    ScanIsFirstFit(v, cnt);
    var body, st := v[..|v| - 1], Scan(v, cnt).start;
    if st + cnt <= |v| - 1 { assert FreeRun(body, st, cnt); }
    if HasRun(body, cnt) {
      var k: nat :| FreeRun(body, k, cnt);
      forall i | k <= i < k + cnt ensures !v[i] { assert body[i] == v[i]; }
      assert FreeRun(v, k, cnt);
    }
  }

  /** An input on which the run leaves the bitmap: two bits are asked for, the only byte of the bitmap
      has its last bit free, and so is the guard bit. */
  lemma RunLeaves()
    ensures var v := [true, true, true, true, true, true, true, false, false]; Scan(v, 2) == Found(7) && 7 + 2 > |v| - 1
  {
    var v := [true, true, true, true, true, true, true, false, false];
    forall s: nat | s < 7 ensures !FreeRun(v, s, 2) { assert v[s]; }
    FirstRunFound(v, 2, 7);
    assert !v[..8][7] && FreeRun(v[..8], 7, 1);
    FirstRunIsFirst(v[..8], 1, 0);
  }

  /** With the guard bit or the last bit of the bitmap set, no run leaves it. */
  lemma RunStaysInside(v: seq<bool>, cnt: nat)
    requires |v| >= 1 && cnt >= 1 && Scan(v, cnt).Found?
    ensures FreeRun(v, Scan(v, cnt).start, cnt)
    ensures cnt == 1 || v[|v| - 1] || (|v| >= 2 && v[|v| - 2]) ==> Scan(v, cnt).start + cnt <= |v| - 1
  {
    var body := v[..|v| - 1];
    FirstRunIsFirst(body, 1, 0);
    FirstRunIsFirst(v, cnt, 0);
    var st := Scan(v, cnt).start;
    if cnt == 1 {
      assert FreeRun(body, st, 1) && body[st] == v[st];
    } else {
      if st + cnt == |v| { assert !v[|v| - 1] && !v[|v| - 2]; }
    }
  }

  /** What bitmap_scan answers when asked for no bits at all: the place behind the first set bit that
      follows the first clear one, the guard bit included. */
  ghost predicate ScanOfNone(v: seq<bool>, r: ScanResult) {
    match r
    case Halted => forall i | 0 <= i < |v| - 1 :: v[i]
    case NotFound => exists c :: 0 <= c < |v| - 1 && FirstClearAt(v, c) && forall i | c <= i < |v| :: !v[i]
    case Found(st) => exists c :: 0 <= c < st - 1 < |v| && FirstClearAt(v, c) && v[st - 1] && forall i | c <= i < st - 1 :: !v[i]
  }

  ghost predicate FirstClearAt(v: seq<bool>, c: int) {
    0 <= c < |v| && !v[c] && forall i | 0 <= i < c :: v[i]
  }

  lemma NoneFound(v: seq<bool>, first: nat, next: nat)
    requires first < next < |v| && v[next] && (forall i | 0 <= i < first :: v[i]) && forall i | first <= i < next :: !v[i]
    ensures ScanOfNone(v, Found(next + 1))
  {
    assert FirstClearAt(v, first);
  }

  lemma NoneNotFound(v: seq<bool>, first: nat)
    requires first < |v| - 1 && (forall i | 0 <= i < first :: v[i]) && forall i | first <= i < |v| :: !v[i]
    ensures ScanOfNone(v, NotFound)
  {
    assert FirstClearAt(v, first);
  }

  // ---------- the operations ----------

  class Map {
    const bits: array<Byte>
    const len: nat

    ghost predicate Valid() {
      len < bits.Length && 8 * len + 8 < 0x8000_0000
    }

    ghost function Bits(): (v: seq<bool>)
      requires Valid()
      reads bits
      ensures |v| == 8 * len + 1
    {
      View(bits[..], len)
    }

    /** The bitmap over the memory `bytes`; the byte after the bitmap is part of that memory. */
    constructor (bytes: array<Byte>, n: nat)
      requires n < bytes.Length && 8 * n + 8 < 0x8000_0000
      ensures Valid() && bits == bytes && len == n
    {
      bits := bytes;
      len := n;
    }

    method Init()
      requires Valid()
      modifies bits
      ensures forall i | 0 <= i < 8 * len :: !Bits()[i]
      ensures Bits()[8 * len] == old(Bits()[8 * len])
    {
      forall i | 0 <= i < len { bits[i] := 0; }
      forall i | 0 <= i < 8 * len ensures !Bits()[i] {
        assert bits[..][i / 8] == 0;
        assert !TestBit(0, i % 8) by { ZeroByte(i % 8); }
      }
      assert bits[..][len] == old(bits[..])[len];
    }

    /** Set or clear one bit; the others, and all other bytes, keep their values. */
    method Set(i: nat, value: bool)
      requires Valid() && i < 8 * len + 8
      modifies bits
      ensures i / 8 < bits.Length
      ensures BitAt(bits[..], i) == value
      ensures forall j: nat | j != i && j / 8 < bits.Length :: BitAt(bits[..], j) == BitAt(old(bits[..]), j)
      ensures i <= 8 * len ==> Bits() == old(Bits())[i := value]
    {
      var k := i % 8;
      var b := bits[i / 8];
      if value {
        bits[i / 8] := b | (1 << k);
      } else {
        bits[i / 8] := b & !(1 << k);
      }
      forall j: nat | j / 8 < bits.Length ensures BitAt(bits[..], j) == if j == i then value else BitAt(old(bits[..]), j) {
        SetBit(b, k, j % 8);
        if j / 8 == i / 8 {
          assert j == 8 * (j / 8) + j % 8 && i == 8 * (i / 8) + i % 8;
        }
      }
    }

    /** The first part of bitmap_scan: skip full bytes, then find the clear bit of the next one. */
    method FirstClear() returns (r: ScanResult)
      requires Valid()
      ensures var first := FirstRun(Bits()[..8 * len], 1, 0); r == if first == NotFound then Halted else first
      ensures !r.NotFound?
      ensures r.Halted? ==> forall i | 0 <= i < 8 * len :: Bits()[i]
      ensures r.Found? ==> r.start < 8 * len && !Bits()[r.start] && forall i | 0 <= i < r.start :: Bits()[i]
    {
      ghost var v := Bits();
      ghost var body := v[..8 * len];
      var byte := 0;
      while bits[byte] == 0xff && byte < len
        invariant byte <= len
        invariant forall i | 0 <= i < 8 * byte :: v[i]
      {
        FullByte(bits[byte]);
        forall i | 8 * byte <= i < 8 * byte + 8 ensures v[i] {
          assert i / 8 == byte && TestBit(bits[byte], i % 8);
        }
        byte := byte + 1;
      }
      if byte >= len {
        forall s: nat ensures !FreeRun(body, s, 1) {
          if s + 1 <= |body| { assert body[s]; }
        }
        FirstRunNone(body, 1);
        return Halted;
      }
      var bit := ClearBit(bits[byte]);
      var first := byte * 8 + bit;
      assert first / 8 == byte && first % 8 == bit;
      forall i | 8 * byte <= i < first ensures v[i] { assert i / 8 == byte && i % 8 == i - 8 * byte; }
      FirstFree(v, first);
      return Found(first);
    }

    /** First fit. */
    method FindFree(cnt: nat) returns (r: ScanResult)
      requires Valid()
      ensures cnt >= 1 ==> r == Scan(Bits(), cnt)
      ensures cnt == 0 ==> ScanOfNone(Bits(), r)
    {
      ghost var v := Bits();
      r := FirstClear();
      assert v[..|v| - 1] == v[..8 * len];
      FirstRunIsFirst(v[..8 * len], 1, 0);
      if r.Halted? || cnt == 1 { return; }
      r := RunAfter(r.start, cnt);
    }

    /** The second part of bitmap_scan, from the first clear bit on. */
    method RunAfter(first: nat, cnt: nat) returns (r: ScanResult)
      requires Valid() && first < 8 * len && cnt != 1
      requires !Bits()[first] && forall i | 0 <= i < first :: Bits()[i]
      ensures cnt > 1 ==> r == FirstRun(Bits(), cnt, 0)
      ensures cnt == 0 ==> ScanOfNone(Bits(), r)
    {
      hide FirstRun, TestBit, ScanOfNone, FirstClearAt, HasRun, FreeRun;
      ghost var v := Bits();
      var left, next, count := len * 8 - first, first + 1, 1;
      if cnt > 1 { NoRunBefore(v, cnt, first); }
      while left > 0
        invariant left >= 0 && left + next == |v| && count <= next
        invariant forall i | next - count <= i < next :: !v[i]
        invariant count < next ==> v[next - count - 1]
        invariant cnt == 0 ==> count > 0 && first == next - count
        invariant cnt > 1 ==> count < cnt && forall s: nat | s + cnt <= next :: !FreeRun(v, s, cnt)
        decreases left
      {
        left := left - 1;
        if !BitAt(bits[..], next) {
          count := count + 1;
        } else {
          count := 0;
        }
        if cnt > 1 { NoRunYet(v, cnt, next, count); }
        if count == cnt {
          if cnt > 1 {
            RunEndsAt(v, cnt, next);
          } else {
            NoneFound(v, first, next);
          }
          return Found(next + 1 - cnt);
        }
        next := next + 1;
      }
      if cnt > 1 { NoRunAtAll(v, cnt); } else { NoneNotFound(v, first); }
      return NotFound;
    }
  }

  /** The inner loop of bitmap_scan: the lowest clear bit of a byte that has one. */
  method ClearBit(b: Byte) returns (bit: nat)
    requires b != 0xff
    ensures bit < 8 && !TestBit(b, bit) && forall k | 0 <= k < bit :: TestBit(b, k)
  {
    FullByte(b);
    bit := 0;
    while TestBit(b, bit)
      invariant bit < 8
      invariant forall k | 0 <= k < bit :: TestBit(b, k)
      decreases 8 - bit
    {
      bit := bit + 1;
    }
  }

  lemma ZeroByte(k: nat)
    requires k < 8
    ensures !TestBit(0, k)
  {
  }

  lemma FirstFree(v: seq<bool>, first: nat)
    requires |v| >= 1 && first < |v| - 1 && !v[first] && forall i | 0 <= i < first :: v[i]
    ensures FirstRun(v[..|v| - 1], 1, 0) == Found(first)
  {
    var body := v[..|v| - 1];
    assert body[first] == v[first];
    forall s | 0 <= s < first ensures !FreeRun(body, s, 1) { assert body[s] == v[s]; }
    FirstRunFound(body, 1, first);
  }

  lemma NoRunBefore(v: seq<bool>, cnt: nat, first: nat)
    requires cnt > 1 && first < |v| && forall i | 0 <= i < first :: v[i]
    ensures forall s: nat | s + cnt <= first + 1 :: !FreeRun(v, s, cnt)
  {
    forall s: nat | s + cnt <= first + 1 ensures !FreeRun(v, s, cnt) { assert v[s]; }
  }

  lemma NoRunAtAll(v: seq<bool>, cnt: nat)
    requires cnt > 1 && forall s: nat | s + cnt <= |v| :: !FreeRun(v, s, cnt)
    ensures FirstRun(v, cnt, 0) == NotFound
  {
    FirstRunNone(v, cnt);
  }

  lemma RunEndsAt(v: seq<bool>, cnt: nat, next: nat)
    requires cnt > 1 && cnt <= next + 1 <= |v| && forall i | next + 1 - cnt <= i <= next :: !v[i]
    requires forall s: nat | s + cnt <= next :: !FreeRun(v, s, cnt)
    ensures FirstRun(v, cnt, 0) == Found(next + 1 - cnt)
  {
    FirstRunFound(v, cnt, next + 1 - cnt);
  }

  /** Bit `next` was looked at: the free bits just before next + 1 number `count`. */
  lemma NoRunYet(v: seq<bool>, cnt: nat, next: nat, count: nat)
    requires cnt > 1 && next < |v| && count <= next + 1 && count <= cnt
    requires forall s: nat | s + cnt <= next :: !FreeRun(v, s, cnt)
    requires forall i | next + 1 - count <= i <= next :: !v[i]
    requires count < next + 1 ==> v[next - count]
    ensures count == cnt ==> FreeRun(v, next + 1 - cnt, cnt) && forall s | 0 <= s < next + 1 - cnt :: !FreeRun(v, s, cnt)
    ensures count < cnt ==> forall s: nat | s + cnt <= next + 1 :: !FreeRun(v, s, cnt)
  {
    if count < cnt {
      forall s: nat | s + cnt <= next + 1 ensures !FreeRun(v, s, cnt) {
        if s + cnt == next + 1 {
          assert s <= next - count < s + cnt;
        }
      }
    }
  }
}
