/**
 Time slices over whole runs: every turn of every thread, the priorities threads keep, and how long the
 first turn of a new thread lasts.
 */
module KernelTurns {
  import opened Words
  import opened KernelState
  import opened KernelInv
  import opened KernelSteps
  import opened KernelRuns
  import opened KernelMeaning
  import opened KernelTimer

  /** The threads that can run, in the order in which they will. */
  function InLine(s: State): seq<Tid> { [s.cur] + s.ready }

  // ---------- one turn ----------

  /** A whole turn: the running thread uses up its slice, gets a full one and goes to the end of the line. */
  ghost predicate Turned(s: State, s': State) {
    && SchedInv(s') && InLine(s') == s.ready + [s.cur] && PcbOf(s', s.cur).ticks == PcbOf(s, s.cur).priority
    && (forall t :: PcbOf(s', t).priority == PcbOf(s, t).priority)
    && (forall t | t != s.cur :: PcbOf(s', t).ticks == PcbOf(s, t).ticks)
  }

  lemma {:induction false} OneTurn(s: State)
    requires SchedInv(s)
    ensures Turned(s, Ticks(s, PcbOf(s, s.cur).ticks + 1))
    decreases PcbOf(s, s.cur).ticks
  {
    hide SchedInv, TimerHandler, PcbOf;
    TimerEffect(s);
    TickIs(s);
    var s1, n := TimerHandler(s), PcbOf(s, s.cur).ticks;
    if n == 0 {
      assert Ticks(s, 1) == s1 by { assert Ticks(s1, 0) == s1; }
    } else {
      OneTurn(s1);
    }
  }

  // ---------- laps ----------

  /** The first i threads in line have had their turns and are behind the others, with full slices. */
  ghost predicate Passed(s: State, s': State, i: nat)
    requires i <= |InLine(s)|
  {
    && SchedInv(s') && InLine(s') == InLine(s)[i..] + InLine(s)[..i]
    && (forall t :: PcbOf(s', t).priority == PcbOf(s, t).priority)
    && (forall t | t in InLine(s)[..i] :: PcbOf(s', t).ticks == PcbOf(s, t).priority)
    && (forall t | t !in InLine(s)[..i] :: PcbOf(s', t).ticks == PcbOf(s, t).ticks)
  }

  lemma LineNoDup(s: State)
    requires SchedInv(s)
    ensures NoDup(InLine(s))
  {
    assert StatusOk(s, s.cur);
  }

  lemma PassOne(s: State, s1: State, s2: State, i: nat)
    requires i < |InLine(s)| && NoDup(InLine(s)) && Passed(s, s1, i) && Turned(s1, s2)
    ensures s1.cur == InLine(s)[i] && PcbOf(s1, s1.cur).ticks == PcbOf(s, InLine(s)[i]).ticks
    ensures Passed(s, s2, i + 1)
  {
    hide SchedInv, PcbOf;
    var line := InLine(s);
    assert InLine(s1)[0] == line[i] && s1.ready == InLine(s1)[1..];
    assert line[..i + 1] == line[..i] + [line[i]];
    assert s1.ready + [s1.cur] == line[i + 1..] + line[..i + 1];
  }

  /** After the slices of the first i threads in line. */
  lemma {:induction false} Laps(s: State, i: nat)
    requires SchedInv(s) && i <= |InLine(s)|
    ensures Passed(s, Ticks(s, Slices(s, InLine(s)[..i])), i)
    decreases i
  {
    hide SchedInv, Ticks, Slices, Passed, Turned, PcbOf;
    var line := InLine(s);
    if i == 0 {
      assert line[..0] == [];
      SlicesNone(s);
      PassedNone(s);
    } else {
      Laps(s, i - 1);
      var d := Slices(s, line[..i - 1]);
      var s1 := Ticks(s, d);
      PassedInv(s, s1, i - 1);
      LineNoDup(s);
      OneTurn(s1);
      PassOne(s, s1, Ticks(s1, PcbOf(s1, s1.cur).ticks + 1), i - 1);
      assert line[..i] == line[..i - 1] + [line[i - 1]];
      SlicesAppend(s, line[..i - 1], line[i - 1]);
      TicksAdd(s, d, PcbOf(s1, s1.cur).ticks + 1);
    }
  }

  lemma PassedNone(s: State)
    requires SchedInv(s)
    ensures Passed(s, Ticks(s, 0), 0)
  {
  }

  lemma PassedInv(s: State, s': State, i: nat)
    requires i <= |InLine(s)| && Passed(s, s', i)
    ensures SchedInv(s')
  {
  }

  /** How many interrupts pass while the given threads use up full slices. */
  function FullSlices(s: State, ts: seq<Tid>): nat
    decreases |ts|
  {
    if ts == [] then 0 else PcbOf(s, ts[0]).priority + 1 + FullSlices(s, ts[1..])
  }

  lemma {:induction false} FullSame(s: State, s': State, ts: seq<Tid>)
    requires forall t | t in ts :: PcbOf(s', t).priority == PcbOf(s, t).priority
    ensures FullSlices(s', ts) == FullSlices(s, ts)
    decreases |ts|
  {
    if ts != [] { FullSame(s, s', ts[1..]); }
  }

  lemma {:induction false} FullIsWhole(s: State, ts: seq<Tid>)
    requires forall t | t in ts :: PcbOf(s, t).ticks == PcbOf(s, t).priority
    ensures Slices(s, ts) == FullSlices(s, ts)
    decreases |ts|
  {
    if ts != [] { FullIsWhole(s, ts[1..]); }
  }

  /** The same line as in s, everybody with a full slice. */
  ghost predicate Renewed(s: State, s': State) {
    && SchedInv(s') && InLine(s') == InLine(s)
    && (forall t :: PcbOf(s', t).priority == PcbOf(s, t).priority)
    && (forall t | t in InLine(s) :: PcbOf(s', t).ticks == PcbOf(s, t).priority)
  }

  /** One lap through the whole line. */
  lemma WholeLap(s: State)
    requires SchedInv(s)
    ensures Renewed(s, Ticks(s, Slices(s, InLine(s))))
  {
    hide SchedInv, Ticks, Slices, PcbOf;
    var line := InLine(s);
    Laps(s, |line|);
    assert line[..|line|] == line && line[|line|..] + line == line;
  }

  lemma {:induction false} LaterLaps(s: State, s1: State, j: nat)
    requires Renewed(s, s1)
    ensures Renewed(s, Ticks(s1, j * FullSlices(s, InLine(s))))
    decreases j
  {
    hide SchedInv, Ticks, Slices, PcbOf, FullSlices;
    var lap := FullSlices(s, InLine(s));
    if j == 0 {
      assert Ticks(s1, 0) == s1 by { TicksNone(s1); }
    } else {
      LaterLaps(s, s1, j - 1);
      var s2 := Ticks(s1, (j - 1) * lap);
      WholeLap(s2);
      FullIsWhole(s2, InLine(s));
      FullSame(s, s2, InLine(s));
      TicksAdd(s1, (j - 1) * lap, lap);
      assert (j - 1) * lap + lap == j * lap;
    }
  }

  lemma TicksNone(s: State)
    ensures Ticks(s, 0) == s
  {
  }

  /** The interrupt at which thread i of the line begins its turn in lap j, where the first lap, with
      whatever is left of the slices, does not count. */
  function TurnStart(s: State, j: nat, i: nat): nat
    requires i < |InLine(s)|
  {
    Slices(s, InLine(s)) + j * FullSlices(s, InLine(s)) + FullSlices(s, InLine(s)[..i])
  }

  /** Theorem: under timer interrupts alone the line goes round for ever, and in every turn after its first
      a thread has the CPU for exactly priority + 1 interrupts. */
  lemma RoundRobinForEver(s: State, j: nat, i: nat, k: nat)
    requires SchedInv(s) && i < |InLine(s)| && k <= PcbOf(s, InLine(s)[i]).priority
    ensures Ticks(s, TurnStart(s, j, i) + k).cur == InLine(s)[i]
  {
    hide SchedInv, Ticks, Slices, PcbOf, FullSlices;
    var line := InLine(s);
    var first, later, ahead := Slices(s, line), j * FullSlices(s, line), FullSlices(s, line[..i]);
    WholeLap(s);
    var s1 := Ticks(s, first);
    LaterLaps(s, s1, j);
    var s2 := Ticks(s1, later);
    Laps(s2, i);
    FullIsWhole(s2, line[..i]);
    FullSame(s, s2, line[..i]);
    var s3 := Ticks(s2, ahead);
    LineNoDup(s);
    NotAmongFirst(line, i);
    assert line[i] in line && InLine(s3)[0] == line[i];
    WithinSlice(s3, k);
    TicksAdd(s, first, later + ahead + k);
    TicksAdd(s1, later, ahead + k);
    TicksAdd(s2, ahead, k);
  }

  lemma NotAmongFirst(line: seq<Tid>, i: nat)
    requires NoDup(line) && i < |line|
    ensures line[i] !in line[..i]
  {
  }

  /** Theorem: the same in any run without blocking, waking or creating threads. */
  lemma RoundRobinRunForEver(s: State, run: seq<Action>, j: nat, i: nat, k: nat)
    requires SchedInv(s) && NeutralRun(s, run) && i < |InLine(s)| && k <= PcbOf(s, InLine(s)[i]).priority
    requires Interrupts(run) == TurnStart(s, j, i) + k
    ensures Exec(s, run).cur == InLine(s)[i]
  {
    hide SchedInv, Ticks, Neutral, Next, TurnStart, PcbOf;
    RunIsTicks(s, run);
    RoundRobinForEver(s, j, i, k);
  }

  // ---------- what a run does to the slices ----------

  /** Priorities of old threads stay; so do ticks and elapsed time of all but those in `but`. */
  ghost predicate KeptSlices(s: State, s': State, but: set<Tid>) {
    && (forall t | t in s.pcbs :: t in s'.pcbs && s'.pcbs[t].priority == s.pcbs[t].priority)
    && (forall t | t in s.pcbs && t !in but :: s'.pcbs[t].ticks == s.pcbs[t].ticks && s'.pcbs[t].elapsed == s.pcbs[t].elapsed)
  }

  /** Only the timer changes a slice, and only that of the running thread. */
  lemma StepSlices(s: State, a: Action)
    requires Inv(s) && Enabled(s, a)
    ensures KeptSlices(s, Next(s, a), if a.Timer? then {s.cur} else {})
    ensures !a.Spawn? ==> Next(s, a).pcbs.Keys == s.pcbs.Keys
    ensures a.Spawn? ==> Next(s, a).pcbs.Keys == s.pcbs.Keys + {a.t} && FreshPcb(PcbOf(Next(s, a), a.t), a.prio)
  {
    hide Inv, Advance, PutByte, TimerHandler, ThreadStart;
    match a {
      case Timer => TimerSlices(s);
      case Continue => ContinueCounts(s);
      case Key(q, b) => ByteCounts(s, q, b);
      case Spawn(t, prio) => StartIs(s, t, prio); SpawnSlices(s, ThreadStart(s, t, prio), t);
      case _ =>
    }
  }

  lemma TimerSlices(s: State)
    requires Inv(s)
    ensures KeptSlices(s, TimerHandler(s), {s.cur}) && TimerHandler(s).pcbs.Keys == s.pcbs.Keys
  {
    hide Inv, SchedInv, TimerHandler;
    InvFacts(s, KernelLock(0));
    TimerIs(s);
    TimerEffect(s);
    var s' := TimerHandler(s);
    forall t | t in s.pcbs ensures t in s'.pcbs && PcbOf(s', t) == s'.pcbs[t] && PcbOf(s, t) == s.pcbs[t] {}
  }

  lemma SpawnSlices(s: State, s': State, t: Tid)
    requires s'.pcbs.Keys == s.pcbs.Keys + {t} && t !in s.pcbs && forall u | u != t :: PcbOf(s', u) == PcbOf(s, u)
    ensures KeptSlices(s, s', {})
  {
    forall u | u in s.pcbs ensures u in s'.pcbs && s'.pcbs[u] == s.pcbs[u] { assert PcbOf(s', u) == PcbOf(s, u); }
  }

  // ---------- priorities ----------

  /** The priority each thread was created with, after the run. */
  function Asked(before: map<Tid, int>, run: seq<Action>): map<Tid, int>
    decreases |run|
  {
    if run == [] then before
    else Asked(match run[0] case Spawn(t, prio) => before[t := prio] case _ => before, run[1..])
  }

  /** Eight bits of what was asked for. */
  predicate Fits(priority: nat, asked: int) {
    priority < U8 && (priority - asked) % U8 == 0 && (0 <= asked < U8 ==> priority == asked)
  }

  ghost predicate AsAsked(s: State, asked: map<Tid, int>) {
    asked.Keys == s.pcbs.Keys && forall t | t in asked :: Fits(s.pcbs[t].priority, asked[t])
  }

  lemma StepAsked(s: State, a: Action, asked: map<Tid, int>)
    requires Inv(s) && Enabled(s, a) && AsAsked(s, asked)
    ensures AsAsked(Next(s, a), match a case Spawn(t, prio) => asked[t := prio] case _ => asked)
  {
    hide Inv, Next, Enabled;
    StepSlices(s, a);
  }

  /** Theorem: along every run a thread's priority is the one it was created with, cut to eight bits. */
  lemma {:induction false} PrioritiesForEver(s: State, run: seq<Action>, idle: Tid, asked: map<Tid, int>)
    requires Inv(s) && !s.halted && IdleInv(s, idle) && LegalRun(s, run, idle) && AsAsked(s, asked)
    ensures AsAsked(Exec(s, run), Asked(asked, run))
    decreases |run|
  {
    hide Inv, IdleInv, Next, Enabled, Disciplined, AsAsked;
    if run != [] {
      var a := run[0];
      StepKeeps(s, a, idle);
      StepAsked(s, a, asked);
      PrioritiesForEver(Next(s, a), run[1..], idle, match a case Spawn(t, prio) => asked[t := prio] case _ => asked);
    }
  }

  lemma PrioritiesFromBoot(s0: State, main: Tid, run: seq<Action>, t: Tid)
    requires InitState(s0, main) && LegalRun(s0, run, main)
    ensures var asked, s := Asked(map[main := 31], run), Exec(s0, run);
      (t in s.pcbs <==> t in asked) && (t in asked ==> Fits(s.pcbs[t].priority, asked[t]))
  {
    hide Inv;
    InitInv(s0, main);
    PrioritiesForEver(s0, run, main, map[main := 31]);
  }

  // ---------- the next turn of a thread that is off the CPU ----------

  /** Thread t does not have the CPU before the end of the run. */
  predicate OffCpu(s: State, run: seq<Action>, t: Tid)
    decreases |run|
  {
    run == [] || (s.cur != t && OffCpu(Next(s, run[0]), run[1..], t))
  }

  lemma {:induction false} OffCpuKeeps(s: State, run: seq<Action>, idle: Tid, t: Tid)
    requires Inv(s) && !s.halted && IdleInv(s, idle) && LegalRun(s, run, idle) && t in s.pcbs && OffCpu(s, run, t)
    ensures var s' := Exec(s, run);
      SchedInv(s') && t in s'.pcbs && s'.pcbs[t].priority == s.pcbs[t].priority && s'.pcbs[t].ticks == s.pcbs[t].ticks
    decreases |run|
  {
    hide Inv, IdleInv, Next, Enabled, Disciplined, SchedInv;
    if run == [] {
      InvFacts(s, KernelLock(0));
    } else {
      StepKeeps(s, run[0], idle);
      StepSlices(s, run[0]);
      OffCpuKeeps(Next(s, run[0]), run[1..], idle, t);
    }
  }

  /** Under timer interrupts alone the running thread has the CPU for exactly n interrupts. */
  ghost predicate RunsFor(s: State, n: nat) {
    && (forall k: nat | k < n :: Ticks(s, k).cur == s.cur)
    && (s.ready != [] ==> Ticks(s, n).cur == s.ready[0] && s.ready[0] != s.cur)
  }

  lemma SliceIsTurn(s: State)
    requires SchedInv(s)
    ensures RunsFor(s, PcbOf(s, s.cur).ticks + 1)
  {
    hide SchedInv, Ticks, PcbOf;
    forall k: nat | k <= PcbOf(s, s.cur).ticks ensures Ticks(s, k).cur == s.cur { WithinSlice(s, k); }
    if s.ready != [] {
      NotRunning(s, 0);
      SliceEnds(s);
    }
  }

  /** A thread off the CPU with a full slice: its next turn, whenever it comes, lasts priority + 1 interrupts. */
  lemma FullTurn(s: State, run: seq<Action>, idle: Tid, t: Tid)
    requires Inv(s) && !s.halted && IdleInv(s, idle) && LegalRun(s, run, idle) && t in s.pcbs && OffCpu(s, run, t)
    requires s.pcbs[t].ticks == s.pcbs[t].priority && Exec(s, run).cur == t
    ensures RunsFor(Exec(s, run), s.pcbs[t].priority + 1)
  {
    hide Inv, IdleInv, LegalRun, OffCpu, RunsFor, SchedInv;
    OffCpuKeeps(s, run, idle, t);
    SliceIsTurn(Exec(s, run));
  }

  /** Theorem: however long after its creation, the first turn of a thread created with priority prio lasts
      exactly prio + 1 interrupts. */
  lemma SpawnedTurn(s: State, t: Tid, prio: int, run: seq<Action>, idle: Tid)
    requires Inv(s) && IdleInv(s, idle) && Enabled(s, Spawn(t, prio)) && Disciplined(s, Spawn(t, prio), idle) && 0 <= prio < U8
    requires var s1 := Next(s, Spawn(t, prio)); LegalRun(s1, run, idle) && OffCpu(s1, run, t) && Exec(s1, run).cur == t
    ensures RunsFor(Exec(Next(s, Spawn(t, prio)), run), prio + 1)
  {
    hide Inv, IdleInv, LegalRun, OffCpu, RunsFor, Next;
    StepKeeps(s, Spawn(t, prio), idle);
    StepSlices(s, Spawn(t, prio));
    FullTurn(Next(s, Spawn(t, prio)), run, idle, t);
  }

  /** Theorem: the next turn of a thread that was preempted lasts exactly priority + 1 interrupts. */
  lemma PreemptedTurn(s: State, run: seq<Action>, idle: Tid)
    requires Inv(s) && IdleInv(s, idle) && Enabled(s, Timer) && Disciplined(s, Timer, idle) && PcbOf(s, s.cur).ticks == 0
    requires var s1 := Next(s, Timer); LegalRun(s1, run, idle) && OffCpu(s1, run, s.cur) && Exec(s1, run).cur == s.cur
    ensures RunsFor(Exec(Next(s, Timer), run), PcbOf(s, s.cur).priority + 1)
  {
    hide Inv, IdleInv, LegalRun, OffCpu, RunsFor, SchedInv, TimerHandler;
    InvFacts(s, KernelLock(0));
    StepKeeps(s, Timer, idle);
    TimerIs(s);
    TimerEffect(s);
    FullTurn(Next(s, Timer), run, idle, s.cur);
  }

  /** From boot, with one thread started, the first thread runs through 31 interrupts and loses the CPU to
      it at the 32nd. */
  lemma FirstTurn(s0: State, main: Tid, t: Tid, prio: int)
    requires InitState(s0, main) && t != main
    ensures var s := Next(Next(s0, Spawn(t, prio)), SetIf(true));
      Enabled(s, Timer) && Ticks(s, 31).cur == main && Ticks(s, 32).cur == t
  {
    hide Inv, IdleInv, SchedInv, Ticks, RunsFor;
    InitInv(s0, main);
    StepKeeps(s0, Spawn(t, prio), main);
    var s1 := Next(s0, Spawn(t, prio));
    StepKeeps(s1, SetIf(true), main);
    var s := Next(s1, SetIf(true));
    InvFacts(s, KernelLock(0));
    FirstLine(s0, main, t, prio);
    hide Next;
    SliceIsTurn(s);
    TurnEnds(s, 32);
  }

  lemma TurnEnds(s: State, n: nat)
    requires RunsFor(s, n) && n > 0 && s.ready != []
    ensures Ticks(s, n - 1).cur == s.cur && Ticks(s, n).cur == s.ready[0]
  {
    hide Ticks;
  }

  lemma FirstLine(s0: State, main: Tid, t: Tid, prio: int)
    requires InitState(s0, main) && t != main
    ensures var s := Next(Next(s0, Spawn(t, prio)), SetIf(true));
      Enabled(s, Timer) && s.cur == main && s.ready == [t] && PcbOf(s, main).ticks == 31
  {
  }
}
