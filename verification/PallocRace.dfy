/**
 Any number of threads inside palloc at once.  get_user_pages and get_a_page take the pool's lock
 around the allocation, get_kernel_pages and the allocation of page tables do not, and a timer
 interrupt between the scan of the bitmap and the marking of the bit lets other threads scan the
 same bits.
 */
module PallocRace {
  import opened Words
  import opened Bitmap

  type Tid = nat

  datatype Op = ScanBy(t: Tid) | MarkBy(t: Tid)

  /** The pool's bits, the index found by each thread that has scanned and not yet marked, and the
      indices handed out so far. */
  datatype Race = Race(bits: seq<bool>, pending: map<Tid, nat>, given: seq<nat>)

  function FoundIn(bits: seq<bool>): Option<nat>
    requires |bits| >= 1
  {
    match Scan(bits, 1) case Found(i) => Some(i) case _ => None
  }

  /** A thread scans when it has no scan pending and a bit is free, and marks what it found. */
  predicate Enabled(s: Race, op: Op) {
    match op
    case ScanBy(t) => |s.bits| >= 1 && t !in s.pending && FoundIn(s.bits).Some?
    case MarkBy(t) => t in s.pending
  }

  function Step(s: Race, op: Op): (s': Race)
    requires Enabled(s, op)
    ensures |s'.bits| == |s.bits|
  {
    match op
    case ScanBy(t) => s.(pending := s.pending[t := FoundIn(s.bits).value])
    case MarkBy(t) =>
      var i := s.pending[t];
      Race(if i < |s.bits| then s.bits[i := true] else s.bits, s.pending - {t}, s.given + [i])
  }

  /** The run is possible, and every allocation in it is completed. */
  predicate Completes(s: Race, ops: seq<Op>)
    decreases |ops|
  {
    if ops == [] then s.pending == map[] else Enabled(s, ops[0]) && Completes(Step(s, ops[0]), ops[1..])
  }

  function Given(s: Race, ops: seq<Op>): seq<nat>
    requires Completes(s, ops)
    decreases |ops|
  {
    if ops == [] then s.given else Given(Step(s, ops[0]), ops[1..])
  }

  /** Every scan is followed at once by the same thread's mark: no scan falls into another's gap. */
  predicate Serial(ops: seq<Op>)
    decreases |ops|
  {
    ops == [] || (|ops| >= 2 && ops[0].ScanBy? && ops[1] == MarkBy(ops[0].t) && Serial(ops[2..]))
  }

  ghost predicate Distinct(xs: seq<nat>) {
    forall i, j | 0 <= i < j < |xs| :: xs[i] != xs[j]
  }

  /** No scan falls between a thread's scan and the mark that follows it. */
  ghost predicate NoScanInGap(ops: seq<Op>) {
    forall i, j, k | 0 <= i < j < k < |ops| && Pair(ops, i, k) :: !ops[j].ScanBy?
  }

  /** ops[k] is the mark that belongs to the scan ops[i]. */
  ghost predicate Pair(ops: seq<Op>, i: nat, k: nat) {
    i < k < |ops| && ops[i].ScanBy? && ops[k] == MarkBy(ops[i].t) && forall m | i < m < k :: ops[m] != ops[k]
  }

  // ---------- what every run keeps ----------

  /** x is the least free bit. */
  ghost predicate LeastFree(bits: seq<bool>, x: nat) {
    x < |bits| - 1 && !bits[x] && forall i | 0 <= i < x :: bits[i]
  }

  /** What was handed out is marked; what a thread holds pending is still the least free bit, or
      someone else was given it meanwhile. */
  ghost predicate RaceInv(s: Race) {
    && |s.bits| >= 1
    && (forall x | x in s.given :: x < |s.bits| && s.bits[x])
    && (forall t | t in s.pending :: s.pending[t] in s.given || LeastFree(s.bits, s.pending[t]))
  }

  lemma FoundIsLeast(bits: seq<bool>)
    requires |bits| >= 1
    ensures FoundIn(bits).Some? ==> LeastFree(bits, FoundIn(bits).value)
  {
    ScanIsFirstFit(bits, 1);
    if FoundIn(bits).Some? {
      var x := FoundIn(bits).value;
      RunStaysInside(bits, 1);
      forall i | 0 <= i < x ensures bits[i] { assert !FreeRun(bits, i, 1); }
    }
  }

  lemma StepKeeps(s: Race, op: Op)
    requires RaceInv(s) && Enabled(s, op)
    ensures RaceInv(Step(s, op))
  {
    hide FoundIn;
    FoundIsLeast(s.bits);
    var s' := Step(s, op);
    if op.MarkBy? {
      var i := s.pending[op.t];
      assert i in s'.given;
      forall t | t in s'.pending ensures s'.pending[t] in s'.given || LeastFree(s'.bits, s'.pending[t]) {
        if s.pending[t] != i && s.pending[t] !in s.given { assert LeastFree(s.bits, s.pending[t]); }
      }
    }
  }

  // ---------- a collision stays ----------

  /** Two allocations have, or will have, the same frame. */
  ghost predicate Collided(s: Race) {
    || !Distinct(s.given)
    || (exists t :: t in s.pending && s.pending[t] in s.given)
    || (exists t, u :: t in s.pending && u in s.pending && t != u && s.pending[t] == s.pending[u])
  }

  lemma CollisionStays(s: Race, op: Op)
    requires Collided(s) && Enabled(s, op)
    ensures Collided(Step(s, op))
  {
    hide FoundIn;
    var s' := Step(s, op);
    if !Distinct(s.given) {
      var i, j :| 0 <= i < j < |s.given| && s.given[i] == s.given[j];
      assert s'.given[i] == s'.given[j];
    } else if t :| t in s.pending && s.pending[t] in s.given {
      if op == MarkBy(t) {
        var i :| 0 <= i < |s.given| && s.given[i] == s.pending[t];
        assert s'.given[i] == s'.given[|s.given|];
      } else {
        assert t in s'.pending && s'.pending[t] in s'.given;
      }
    } else {
      var t, u :| t in s.pending && u in s.pending && t != u && s.pending[t] == s.pending[u];
      if op == MarkBy(t) {
        assert u in s'.pending && s'.pending[u] in s'.given;
      } else if op == MarkBy(u) {
        assert t in s'.pending && s'.pending[t] in s'.given;
      } else {
        assert t in s'.pending && u in s'.pending && s'.pending[t] == s'.pending[u];
      }
    }
  }

  lemma {:induction false} CollisionShows(s: Race, ops: seq<Op>)
    requires Collided(s) && Completes(s, ops)
    ensures !Distinct(Given(s, ops))
    decreases |ops|
  {
    if ops != [] {
      CollisionStays(s, ops[0]);
      CollisionShows(Step(s, ops[0]), ops[1..]);
    }
  }

  /** A scan in the gap between another thread's scan and its mark collides. */
  lemma OverlapCollides(s: Race, t: Tid, u: Tid)
    requires RaceInv(s) && t in s.pending && Enabled(s, ScanBy(u))
    ensures Collided(Step(s, ScanBy(u)))
  {
    hide FoundIn;
    FoundIsLeast(s.bits);
    var s' := Step(s, ScanBy(u));
    var x, y := s.pending[t], FoundIn(s.bits).value;
    if x in s.given {
      assert t in s'.pending && s'.pending[t] in s'.given;
    } else {
      assert LeastFree(s.bits, x) && LeastFree(s.bits, y);
      assert x == y;
      assert t in s'.pending && u in s'.pending && s'.pending[t] == s'.pending[u];
    }
  }

  // ---------- what serial means ----------

  lemma {:induction false} SerialHasNoGap(ops: seq<Op>, i: nat, k: nat)
    requires Serial(ops) && Pair(ops, i, k)
    ensures k == i + 1
    decreases |ops|
  {
    if i >= 2 {
      var rest := ops[2..];
      assert Pair(rest, i - 2, k - 2) by {
        forall m | i - 2 < m < k - 2 ensures rest[m] != rest[k - 2] { assert ops[m + 2] != ops[k]; }
      }
      SerialHasNoGap(rest, i - 2, k - 2);
    } else if k > 1 {
      assert false;
    }
  }

  /** A scan that is pending gets its mark. */
  lemma {:induction false} MarkComes(s: Race, ops: seq<Op>, t: Tid) returns (k: nat)
    requires t in s.pending && Completes(s, ops)
    ensures k < |ops| && ops[k] == MarkBy(t) && forall m | 0 <= m < k :: ops[m] != MarkBy(t)
    decreases |ops|
  {
    hide FoundIn;
    if ops[0] == MarkBy(t) {
      k := 0;
    } else {
      k := MarkComes(Step(s, ops[0]), ops[1..], t);
      k := k + 1;
      forall m | 0 <= m < k ensures ops[m] != MarkBy(t) { if m > 0 { assert ops[1..][m - 1] == ops[m]; } }
    }
  }

  lemma {:induction false} NoGapIsSerial(s: Race, ops: seq<Op>)
    requires s.pending == map[] && Completes(s, ops) && NoScanInGap(ops)
    ensures Serial(ops)
    decreases |ops|
  {
    if ops != [] {
      hide FoundIn;
      var t, s1 := ops[0].t, Step(s, ops[0]);
      assert ops[0] == ScanBy(t) && s1.pending.Keys == {t};
      var k := MarkComes(s1, ops[1..], t);
      assert Pair(ops, 0, k + 1) by {
        forall m | 0 < m < k + 1 ensures ops[m] != ops[k + 1] { assert ops[1..][m - 1] == ops[m]; }
      }
      assert Enabled(s1, ops[1]);
      if ops[1].ScanBy? { assert false; }
      var s2 := Step(s1, ops[1]);
      assert s2.pending == map[] && ops[1..][1..] == ops[2..];
      RestHasNoGap(ops);
      NoGapIsSerial(s2, ops[2..]);
    }
  }

  lemma RestHasNoGap(ops: seq<Op>)
    requires NoScanInGap(ops) && |ops| >= 2
    ensures NoScanInGap(ops[2..])
  {
    var rest := ops[2..];
    forall i, j, k | 0 <= i < j < k < |rest| && Pair(rest, i, k) ensures !rest[j].ScanBy? {
      assert Pair(ops, i + 2, k + 2) by {
        forall m | i + 2 < m < k + 2 ensures ops[m] != ops[k + 2] { assert rest[m - 2] != rest[k]; }
      }
      assert !ops[j + 2].ScanBy?;
    }
  }

  /** Serial runs are those in which no scan falls between another's scan and its mark. */
  lemma SerialIffNoGap(bits: seq<bool>, ops: seq<Op>)
    requires Completes(Race(bits, map[], []), ops)
    ensures Serial(ops) <==> NoScanInGap(ops)
  {
    hide Serial, NoScanInGap, Completes;
    if Serial(ops) { SerialNoGap(ops); }
    if NoScanInGap(ops) { NoGapIsSerial(Race(bits, map[], []), ops); }
  }

  lemma SerialNoGap(ops: seq<Op>)
    requires Serial(ops)
    ensures NoScanInGap(ops)
  {
    if !NoScanInGap(ops) {
      var i, j, k :| 0 <= i < j < k < |ops| && Pair(ops, i, k) && ops[j].ScanBy?;
      SerialHasNoGap(ops, i, k);
      assert false;
    }
  }

  // ---------- the theorem ----------

  lemma {:induction false} DistinctIffSerialFrom(s: Race, ops: seq<Op>)
    requires RaceInv(s) && s.pending == map[] && Distinct(s.given) && Completes(s, ops)
    ensures Distinct(Given(s, ops)) <==> Serial(ops)
    decreases |ops|
  {
    if ops != [] {
      hide FoundIn;
      FoundIsLeast(s.bits);
      var t := ops[0].t;
      var s1 := Step(s, ops[0]);
      StepKeeps(s, ops[0]);
      assert ops[0] == ScanBy(t) && s1.pending == map[t := FoundIn(s.bits).value];
      var rest := ops[1..];
      assert rest != [] && Enabled(s1, rest[0]);
      if rest[0].MarkBy? {
        assert rest[0] == MarkBy(t) && rest[1..] == ops[2..];
        StepKeeps(s1, rest[0]);
        var s2 := Step(s1, rest[0]);
        assert s2.pending == map[];
        DistinctIffSerialFrom(s2, ops[2..]);
      } else {
        OverlapCollides(s1, t, rest[0].t);
        CollisionShows(Step(s1, rest[0]), rest[1..]);
      }
    }
  }

  /** Theorem: for any number of threads and any completed run of scans and marks, the frames handed
      out are all different exactly when no scan falls between another thread's scan and its mark. */
  lemma DistinctIffSerial(bits: seq<bool>, ops: seq<Op>)
    requires |bits| >= 1 && Completes(Race(bits, map[], []), ops)
    ensures Distinct(Given(Race(bits, map[], []), ops)) <==> Serial(ops)
    ensures Distinct(Given(Race(bits, map[], []), ops)) <==> NoScanInGap(ops)
  {
    DistinctIffSerialFrom(Race(bits, map[], []), ops);
    SerialIffNoGap(bits, ops);
  }

  /** Two threads, three free frames, and the same frame twice. */
  lemma SameFrameTwice()
    ensures var s, ops := Race([false, false, false, true], map[], []), [ScanBy(0), ScanBy(1), MarkBy(0), MarkBy(1)];
      Completes(s, ops) && Given(s, ops) == [0, 0]
  {
    var bits := [false, false, false, true];
    var s, ops := Race(bits, map[], []), [ScanBy(0), ScanBy(1), MarkBy(0), MarkBy(1)];
    assert FoundIn(bits) == Some(0) by { FirstFree(bits, 0); }
    hide FoundIn;
    var s1 := Step(s, ScanBy(0));
    var s2 := Step(s1, ScanBy(1));
    var s3 := Step(s2, MarkBy(0));
    var s4 := Step(s3, MarkBy(1));
    assert s4.pending == map[] && s4.given == [0, 0];
    assert Completes(s4, []) && Given(s4, []) == [0, 0];
    assert [MarkBy(1)][1..] == [] && Completes(s3, [MarkBy(1)]) && Given(s3, [MarkBy(1)]) == [0, 0];
    assert [MarkBy(0), MarkBy(1)][1..] == [MarkBy(1)] && Given(s2, [MarkBy(0), MarkBy(1)]) == [0, 0];
    assert [ScanBy(1), MarkBy(0), MarkBy(1)][1..] == [MarkBy(0), MarkBy(1)] && Given(s1, [ScanBy(1), MarkBy(0), MarkBy(1)]) == [0, 0];
    assert ops[1..] == [ScanBy(1), MarkBy(0), MarkBy(1)];
  }
}
