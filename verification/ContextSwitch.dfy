/**
 The context switch at register level.

 A thread owns one page: its PCB at the bottom, whose first word is self_kstack, and its kernel
 stack above.  Memory is made of aligned 32-bit words named by their address.  Between switches
 the running thread may do anything to the registers, to its own page, and to the PCB fields of
 other threads other than self_kstack.
 */
module ContextSwitch {
  import opened Words

  const PAGE_SIZE: nat := 0x1000
  const PCB_SIZE: nat := 72
  const INTR_STACK_SIZE: nat := 76
  const THREAD_STACK_SIZE: nat := 32

  type Memory = map<nat, Word>

  datatype Cpu = Cpu(esp: Word, ebp: Word, ebx: Word, esi: Word, edi: Word, eip: Word)

  function Peek(m: Memory, a: nat): Word { if a in m then m[a] else 0 }

  function Add(a: Word, n: nat): Word { (a + n) % U32 }

  function Sub(a: Word, n: nat): Word
    requires n < 0x1_0000_0000
  {
    (a + U32 - n) % U32
  }

  lemma SubTwice(a: Word, m: nat, n: nat)
    requires m + n < 0x1_0000_0000
    ensures Sub(Sub(a, m), n) == Sub(a, m + n)
  {
  }

  lemma AddTwice(a: Word, m: nat, n: nat)
    ensures Add(Add(a, m), n) == Add(a, m + n)
  {
  }

  lemma AddAfterSub(a: Word, m: nat, n: nat)
    requires m <= n && m < 0x1_0000_0000
    ensures Add(Sub(a, m), n) == Add(a, n - m)
  {
  }

  /** The page esp lies in. */
  function RunningThread(esp: Word): Word { esp - esp % PAGE_SIZE }

  // ---------- switch_to ----------

  /** The frame switch_to leaves below the return address: four registers. */
  function Frame(c: Cpu, m: Memory): Memory {
    m[Sub(c.esp, 4) := c.esi][Sub(c.esp, 8) := c.edi][Sub(c.esp, 12) := c.ebx][Sub(c.esp, 16) := c.ebp]
  }

  /** What a frame at sp restores. */
  function Resumed(m: Memory, sp: Word): Cpu {
    Cpu(Add(sp, 20), Peek(m, sp), Peek(m, Add(sp, 4)), Peek(m, Add(sp, 12)), Peek(m, Add(sp, 8)), Peek(m, Add(sp, 16)))
  }

  /** switch_to as a whole: save a frame, store its address in the first word of the thread named by
      the first argument, and resume from the address in the first word of the second. */
  function SwitchTo(c: Cpu, m: Memory): (Cpu, Memory) {
    var m1 := Frame(c, m);
    var m2 := m1[Peek(m1, Add(c.esp, 4)) := Sub(c.esp, 16)];
    (Resumed(m2, Peek(m2, Peek(m2, Add(c.esp, 8)))), m2)
  }

  /** The call in schedule: push the arguments and the return address, then switch. */
  function CallSwitch(c: Cpu, m: Memory, cur: Word, next: Word, ret: Word): (Cpu, Memory) {
    var m1 := m[Sub(c.esp, 4) := next][Sub(c.esp, 8) := cur][Sub(c.esp, 12) := ret];
    SwitchTo(c.(esp := Sub(c.esp, 12)), m1)
  }

  /** The processor running the code of switch_to, instruction by instruction. */
  class Processor {
    var esp: Word
    var ebp: Word
    var ebx: Word
    var esi: Word
    var edi: Word
    var eip: Word
    var eax: Word
    var mem: Memory

    function Regs(): Cpu
      reads this
    {
      Cpu(esp, ebp, ebx, esi, edi, eip)
    }

    method Push(w: Word)
      modifies `esp, `mem
      ensures esp == Sub(old(esp), 4) && mem == old(mem)[esp := w]
    {
      esp := Sub(esp, 4);
      mem := mem[esp := w];
    }

    method Pop() returns (w: Word)
      modifies `esp
      ensures esp == Add(old(esp), 4) && w == Peek(mem, old(esp))
    {
      w := Peek(mem, esp);
      esp := Add(esp, 4);
    }

    method Save()
      modifies `esp, `mem
      ensures esp == Sub(old(esp), 16) && mem == Frame(old(Regs()), old(mem))
    {
      hide Sub;
      SubTwice(esp, 4, 4);
      SubTwice(esp, 8, 4);
      SubTwice(esp, 12, 4);
      Push(esi);
      Push(edi);
      Push(ebx);
      Push(ebp);
    }

    method Restore()
      modifies `esp, `ebp, `ebx, `edi, `esi, `eip
      ensures Regs() == Resumed(mem, old(esp))
    {
      hide Add, Peek;
      AddTwice(esp, 4, 4);
      AddTwice(esp, 8, 4);
      AddTwice(esp, 12, 4);
      AddTwice(esp, 16, 4);
      ebp := Pop();
      ebx := Pop();
      edi := Pop();
      esi := Pop();
      eip := Pop();
    }

    /** The stack part of init_thread and thread_create for the thread whose page is t. */
    method ThreadCreate(t: Word, entry: Word, function_: Word, arg: Word)
      modifies `mem
      ensures mem == CreateThread(old(mem), t, entry, function_, arg)
    {
      mem := mem[t := Add(t, PAGE_SIZE)];
      mem := mem[t := Sub(Peek(mem, t), 4 * INTR_STACK_SIZE)];
      mem := mem[t := Sub(Peek(mem, t), 4 * THREAD_STACK_SIZE)];
      var sp := Peek(mem, t);
      SubTwice(Add(t, PAGE_SIZE), 4 * INTR_STACK_SIZE, 4 * THREAD_STACK_SIZE);
      assert mem == old(mem)[t := NewStack(t)];
      hide Add, Sub, NewStack;
      mem := mem[Add(sp, 16) := entry];
      mem := mem[Add(sp, 24) := function_];
      mem := mem[Add(sp, 28) := arg];
      mem := mem[Add(sp, 8) := 0];
      mem := mem[Add(sp, 12) := 0];
      mem := mem[Add(sp, 4) := 0];
      mem := mem[sp := 0];
    }

    method RunSwitchTo()
      modifies this
      ensures (Regs(), mem) == SwitchTo(old(Regs()), old(mem))
    {
      hide Add, Sub, Peek, Frame, Resumed;
      AddAfterSub(esp, 16, 20);
      AddAfterSub(esp, 16, 24);
      Save();
      eax := Peek(mem, Add(esp, 20));
      mem := mem[eax := esp];
      eax := Peek(mem, Add(esp, 24));
      esp := Peek(mem, eax);
      Restore();
    }
  }

  // ---------- threads ----------

  /** The running registers, memory, and the scheduler's view: who runs and which threads exist. */
  datatype Sys = Sys(cpu: Cpu, mem: Memory, cur: Word, threads: set<Word>)

  datatype Event =
    | Work(cpu: Cpu, mem: Memory)
    | Switch(next: Word, ret: Word)
    | Create(t: Word, function_: Word, arg: Word)

  predicate IsPage(t: Word) { t % PAGE_SIZE == 0 && t + PAGE_SIZE <= U32 }

  /** esp lies in the stack of thread t. */
  predicate StackOk(t: Word, esp: Word) {
    t + PCB_SIZE <= esp < t + PAGE_SIZE && esp % 4 == 0
  }

  /** A suspended thread's frame lies in its own stack, and so does the stack it resumes with. */
  predicate SavedOk(m: Memory, t: Word) {
    t + PCB_SIZE <= Peek(m, t) && Peek(m, t) + 20 < t + PAGE_SIZE && Peek(m, t) % 4 == 0
  }

  /** A word that matters to a suspended thread: self_kstack or a word of its stack. */
  predicate OwnWord(t: Word, a: nat) { a == t || t + PCB_SIZE <= a < t + PAGE_SIZE }

  ghost predicate SysInv(s: Sys) {
    && s.cur in s.threads && StackOk(s.cur, s.cpu.esp)
    && (forall t | t in s.threads :: IsPage(t))
    && (forall t | t in s.threads && t != s.cur :: SavedOk(s.mem, t))
  }

  /** The frame thread_create builds: both structure sizes are subtracted in units of four bytes. */
  function NewStack(t: Word): Word { Sub(Add(t, PAGE_SIZE), 4 * INTR_STACK_SIZE + 4 * THREAD_STACK_SIZE) }

  function CreateThread(m: Memory, t: Word, entry: Word, function_: Word, arg: Word): Memory {
    var sp := NewStack(t);
    m[t := sp][Add(sp, 16) := entry][Add(sp, 24) := function_][Add(sp, 28) := arg]
     [Add(sp, 8) := 0][Add(sp, 12) := 0][Add(sp, 4) := 0][sp := 0]
  }

  function Step(s: Sys, e: Event, entry: Word): Sys {
    match e
    case Work(c, m) => s.(cpu := c, mem := m)
    case Switch(next, ret) =>
      var r := CallSwitch(s.cpu, s.mem, RunningThread(s.cpu.esp), next, ret);
      s.(cpu := r.0, mem := r.1, cur := next)
    case Create(t, f, arg) => s.(mem := CreateThread(s.mem, t, entry, f, arg), threads := s.threads + {t})
  }

  /** The running thread keeps to its own page, leaves room for the frame when it calls schedule, and
      a new thread gets a page of its own. */
  ghost predicate Legal(s: Sys, e: Event) {
    match e
    case Work(c, m) =>
      && StackOk(s.cur, c.esp)
      && (forall t, a | t in s.threads && t != s.cur && OwnWord(t, a) :: Peek(m, a) == Peek(s.mem, a))
    case Switch(next, _) => next in s.threads && s.cur + PCB_SIZE + 28 <= s.cpu.esp
    case Create(t, _, _) => t !in s.threads && IsPage(t)
  }

  function Exec(s: Sys, run: seq<Event>, entry: Word): Sys
    decreases |run|
  {
    if run == [] then s else Exec(Step(s, run[0], entry), run[1..], entry)
  }

  ghost predicate LegalRun(s: Sys, run: seq<Event>, entry: Word)
    decreases |run|
  {
    run == [] || (Legal(s, run[0]) && LegalRun(Step(s, run[0], entry), run[1..], entry))
  }

  // ---------- one step ----------

  lemma RunningIsCur(s: Sys)
    requires SysInv(s)
    ensures RunningThread(s.cpu.esp) == s.cur
  {
    PageOf(s.cur, s.cpu.esp);
  }

  lemma PageOf(t: Word, a: Word)
    requires IsPage(t) && t <= a < t + PAGE_SIZE
    ensures RunningThread(a) == t
  {
    assert a == PAGE_SIZE * (t / PAGE_SIZE) + (a - t);
  }

  lemma PagesApart(t: Word, u: Word, a: nat)
    requires IsPage(t) && IsPage(u) && t != u && t <= a < t + PAGE_SIZE
    ensures !(u <= a < u + PAGE_SIZE)
  {
    if u <= a < u + PAGE_SIZE {
      PageOf(t, a);
      PageOf(u, a);
      assert false;
    }
  }

  /** switch_to from cur to next writes seven words of cur's stack and cur's first word; the thread
      switched to gets exactly its saved registers, and what was saved of cur is the registers it had. */
  lemma SwitchEffect(c: Cpu, m: Memory, cur: Word, next: Word, ret: Word)
    requires IsPage(cur) && IsPage(next) && StackOk(cur, c.esp) && cur + PCB_SIZE + 28 <= c.esp
    ensures var (c', m') := CallSwitch(c, m, cur, next, ret);
      && c' == Resumed(m', Peek(m', next))
      && Peek(m', cur) == c.esp - 28
      && Resumed(m', Peek(m', cur)) == c.(esp := c.esp - 8, eip := ret)
      && (forall a: nat | a != cur && !(c.esp - 28 <= a < c.esp) :: Peek(m', a) == Peek(m, a))
  {
    hide CallSwitch, IsPage, Add;
    CallWords(c, m, cur, next, ret);
    var sp: Word := c.esp - 28;
    AddPlain(sp, 4);
    AddPlain(sp, 8);
    AddPlain(sp, 12);
    AddPlain(sp, 16);
    AddPlain(sp, 20);
  }

  lemma AddPlain(a: Word, n: nat)
    requires a + n < U32
    ensures Add(a, n) == a + n
  {
  }

  lemma SubPlain(a: Word, n: nat)
    requires n <= a
    ensures Sub(a, n) == a - n
  {
  }

  function Stacked(c: Cpu, m: Memory, cur: Word, next: Word, ret: Word): Memory
    requires c.esp >= 28
  {
    m[c.esp - 4 := next][c.esp - 8 := cur][c.esp - 12 := ret]
     [c.esp - 16 := c.esi][c.esp - 20 := c.edi][c.esp - 24 := c.ebx][c.esp - 28 := c.ebp]
  }

  /** With room on the stack no address wraps around. */
  lemma CallWords(c: Cpu, m: Memory, cur: Word, next: Word, ret: Word)
    requires cur + 100 <= c.esp
    ensures var m' := Stacked(c, m, cur, next, ret)[cur := c.esp - 28];
      CallSwitch(c, m, cur, next, ret) == (Resumed(m', Peek(m', next)), m')
  {
    hide Add, Sub, Resumed, Peek;
    var e := c.esp;
    SubPlain(e, 4);
    SubPlain(e, 8);
    SubPlain(e, 12);
    SubPlain(e - 12, 4);
    SubPlain(e - 12, 8);
    SubPlain(e - 12, 12);
    SubPlain(e - 12, 16);
    AddPlain(e - 12, 4);
    AddPlain(e - 12, 8);
    var m1 := m[e - 4 := next][e - 8 := cur][e - 12 := ret];
    var m2 := Frame(c.(esp := e - 12), m1);
    assert m2 == Stacked(c, m, cur, next, ret);
    StackedWords(c, m, cur, next, ret);
  }

  /** The arguments switch_to finds above its return address. */
  lemma StackedWords(c: Cpu, m: Memory, cur: Word, next: Word, ret: Word)
    requires cur + 100 <= c.esp
    ensures Peek(Stacked(c, m, cur, next, ret), c.esp - 8) == cur
    ensures Peek(Stacked(c, m, cur, next, ret)[cur := c.esp - 28], c.esp - 4) == next
  {
  }

  lemma {:induction false} StepKeeps(s: Sys, e: Event, entry: Word)
    requires SysInv(s) && Legal(s, e)
    ensures SysInv(Step(s, e, entry))
    ensures forall t, a | t in s.threads && t != s.cur && OwnWord(t, a) :: Peek(Step(s, e, entry).mem, a) == Peek(s.mem, a)
  {
    match e {
      case Work(c, m) =>
        forall t | t in s.threads && t != s.cur ensures SavedOk(m, t) { assert OwnWord(t, t); }
      case Switch(next, ret) => SwitchKeeps(s, next, ret, entry);
      case Create(t, f, arg) => CreateKeeps(s, t, f, arg, entry);
    }
  }

  lemma SwitchKeeps(s: Sys, next: Word, ret: Word, entry: Word)
    requires SysInv(s) && Legal(s, Switch(next, ret))
    ensures SysInv(Step(s, Switch(next, ret), entry))
    ensures forall t, a | t in s.threads && t != s.cur && OwnWord(t, a) :: Peek(Step(s, Switch(next, ret), entry).mem, a) == Peek(s.mem, a)
  {
    hide CallSwitch, Peek, RunningThread, Resumed, IsPage, StackOk, SavedOk;
    RunningIsCur(s);
    SwitchEffect(s.cpu, s.mem, s.cur, next, ret);
    StackBounds(s.cur, s.cpu.esp);
    var s' := Step(s, Switch(next, ret), entry);
    forall t, a | t in s.threads && t != s.cur && OwnWord(t, a) ensures Peek(s'.mem, a) == Peek(s.mem, a) {
      PagesApart(t, s.cur, a);
    }
    forall t | t in s.threads ensures SavedOk(s'.mem, t) {
      if t != s.cur {
        assert OwnWord(t, t);
        SameSaved(s.mem, s'.mem, t);
      } else {
        LeftFrame(s'.mem, t, s.cpu.esp);
      }
    }
    EnteredStack(s'.mem, next);
  }

  lemma StackBounds(t: Word, esp: Word)
    requires StackOk(t, esp)
    ensures t + PCB_SIZE <= esp < t + PAGE_SIZE
  {
  }

  lemma SameSaved(m: Memory, m': Memory, t: Word)
    requires SavedOk(m, t) && Peek(m', t) == Peek(m, t)
    ensures SavedOk(m', t)
  {
  }

  /** The frame a thread leaves lies in its stack. */
  lemma LeftFrame(m: Memory, t: Word, esp: Word)
    requires StackOk(t, esp) && t + PCB_SIZE + 28 <= esp && Peek(m, t) == esp - 28
    ensures SavedOk(m, t)
  {
    assert (esp - 28) % 4 == 0;
  }

  /** The stack a thread resumes with lies in its page. */
  lemma EnteredStack(m: Memory, t: Word)
    requires IsPage(t) && SavedOk(m, t)
    ensures StackOk(t, Resumed(m, Peek(m, t)).esp)
  {
    hide Resumed, Peek;
    ResumedEsp(m, Peek(m, t));
    assert (Peek(m, t) + 20) % 4 == 0;
  }

  lemma ResumedEsp(m: Memory, sp: Word)
    requires sp + 20 < U32
    ensures Resumed(m, sp).esp == sp + 20
  {
  }

  lemma NewStackInside(t: Word)
    requires IsPage(t)
    ensures NewStack(t) == t + PAGE_SIZE - 432 && NewStack(t) % 4 == 0
    ensures t + PCB_SIZE <= NewStack(t) && NewStack(t) + THREAD_STACK_SIZE <= t + PAGE_SIZE
    ensures forall k: nat | k <= 28 :: Add(NewStack(t), k) == NewStack(t) + k
  {
    hide Add, NewStack;
    NewStackIs(t);
    PageAligned(t);
    hide IsPage;
    forall k: nat | k <= 28 ensures Add(NewStack(t), k) == NewStack(t) + k { AddPlain(NewStack(t), k); }
  }

  lemma PageAligned(t: Word)
    requires IsPage(t)
    ensures t % 4 == 0 && t + PAGE_SIZE <= U32
  {
    var pages := t / 0x1000;
    assert t == 0x1000 * pages;
    FourTimes(0x400 * pages);
  }

  lemma FourTimes(n: nat)
    ensures 4 * n % 4 == 0
  {
  }

  lemma NewStackIs(t: Word)
    requires IsPage(t)
    ensures NewStack(t) == t + PAGE_SIZE - 432
  {
    if t + PAGE_SIZE < U32 {
      AddPlain(t, PAGE_SIZE);
      SubPlain(t + PAGE_SIZE, 432);
    } else {
      assert Add(t, PAGE_SIZE) == 0;
    }
  }

  lemma CreateEffect(m: Memory, t: Word, entry: Word, f: Word, arg: Word)
    requires IsPage(t)
    ensures var m' := CreateThread(m, t, entry, f, arg); var sp := NewStack(t);
      && Peek(m', t) == sp && SavedOk(m', t)
      && Resumed(m', sp) == Cpu(sp + 20, 0, 0, 0, 0, entry)
      && Peek(m', sp + 24) == f && Peek(m', sp + 28) == arg
      && (forall a: nat | !(t <= a < t + PAGE_SIZE) :: Peek(m', a) == Peek(m, a))
  {
    NewStackInside(t);
    var sp := NewStack(t);
    assert Add(sp, 4) == sp + 4 && Add(sp, 8) == sp + 8 && Add(sp, 12) == sp + 12 && Add(sp, 16) == sp + 16
        && Add(sp, 20) == sp + 20 && Add(sp, 24) == sp + 24 && Add(sp, 28) == sp + 28;
  }

  lemma CreateKeeps(s: Sys, t: Word, f: Word, arg: Word, entry: Word)
    requires SysInv(s) && t !in s.threads && IsPage(t)
    ensures SysInv(Step(s, Create(t, f, arg), entry))
    ensures forall u, a | u in s.threads && OwnWord(u, a) :: Peek(Step(s, Create(t, f, arg), entry).mem, a) == Peek(s.mem, a)
  {
    hide CreateThread;
    CreateEffect(s.mem, t, entry, f, arg);
    var s' := Step(s, Create(t, f, arg), entry);
    forall u, a | u in s.threads && OwnWord(u, a) ensures Peek(s'.mem, a) == Peek(s.mem, a) { PagesApart(u, t, a); }
    forall u | u in s'.threads && u != s'.cur ensures SavedOk(s'.mem, u) {
      if u != t { assert OwnWord(u, u); }
    }
  }

  // ---------- runs ----------

  /** make_main_thread: the thread that boots is the page its stack is in. */
  lemma FirstThread(c: Cpu, m: Memory)
    requires StackOk(0xc009_e000, c.esp)
    ensures SysInv(Sys(c, m, RunningThread(c.esp), {RunningThread(c.esp)}))
  {
    PageOf(0xc009_e000, c.esp);
  }

  /** Theorem: running_thread() is the scheduler's current thread after every run. */
  lemma {:induction false} RunningThreadIsCurrent(s: Sys, run: seq<Event>, entry: Word)
    requires SysInv(s) && LegalRun(s, run, entry)
    ensures SysInv(Exec(s, run, entry)) && RunningThread(Exec(s, run, entry).cpu.esp) == Exec(s, run, entry).cur
    decreases |run|
  {
    hide SysInv, Legal, Step, RunningThread;
    if run == [] {
      RunningIsCur(s);
    } else {
      StepKeeps(s, run[0], entry);
      RunningThreadIsCurrent(Step(s, run[0], entry), run[1..], entry);
    }
  }

  /** No event of the run switches to t. */
  predicate Away(run: seq<Event>, t: Word) {
    forall i | 0 <= i < |run| :: run[i].Switch? ==> run[i].next != t
  }

  /** A suspended thread's words do not change until it is switched to. */
  lemma {:induction false} SuspendedKept(s: Sys, run: seq<Event>, entry: Word, t: Word)
    requires SysInv(s) && LegalRun(s, run, entry) && t in s.threads && t != s.cur && Away(run, t)
    ensures var s' := Exec(s, run, entry);
      SysInv(s') && t in s'.threads && t != s'.cur && forall a | OwnWord(t, a) :: Peek(s'.mem, a) == Peek(s.mem, a)
    decreases |run|
  {
    hide SysInv, Legal, OwnWord;
    if run != [] {
      hide CallSwitch, CreateThread;
      StepKeeps(s, run[0], entry);
      assert run[0].Switch? ==> run[0].next != t;
      assert Away(run[1..], t) by { forall i | 0 <= i < |run[1..]| ensures run[1..][i] == run[i + 1] {} }
      SuspendedKept(Step(s, run[0], entry), run[1..], entry, t);
    }
  }

  lemma SameFrame(m: Memory, m': Memory, t: Word)
    requires IsPage(t) && SavedOk(m, t) && forall a | OwnWord(t, a) :: Peek(m', a) == Peek(m, a)
    ensures Peek(m', t) == Peek(m, t) && Resumed(m', Peek(m', t)) == Resumed(m, Peek(m, t))
  {
    assert OwnWord(t, t);
    var sp := Peek(m, t);
    assert Add(sp, 4) == sp + 4 && Add(sp, 8) == sp + 8 && Add(sp, 12) == sp + 12 && Add(sp, 16) == sp + 16;
  }

  /** The state that switches to t puts exactly t's saved registers on the CPU, whoever runs before. */
  lemma SwitchResumes(s: Sys, t: Word, ret: Word, entry: Word)
    requires SysInv(s) && Legal(s, Switch(t, ret)) && t != s.cur
    ensures var s' := Step(s, Switch(t, ret), entry);
      s'.cpu == Resumed(s.mem, Peek(s.mem, t)) && s'.cur == t && forall a | OwnWord(t, a) :: Peek(s'.mem, a) == Peek(s.mem, a)
  {
    hide CallSwitch;
    RunningIsCur(s);
    SwitchEffect(s.cpu, s.mem, s.cur, t, ret);
    SwitchKeeps(s, t, ret, entry);
    var s' := Step(s, Switch(t, ret), entry);
    SameFrame(s.mem, s'.mem, t);
  }

  /** Theorem: over any run of switches, a thread that called schedule resumes behind the call with
      its stack pointer (the two arguments still on the stack), ebp, ebx, esi, edi and stack contents
      unchanged. */
  lemma ContextPreserved(s: Sys, next: Word, ret: Word, run: seq<Event>, ret2: Word, entry: Word)
    requires SysInv(s) && Legal(s, Switch(next, ret)) && next != s.cur
    requires var s1 := Step(s, Switch(next, ret), entry);
      && LegalRun(s1, run, entry) && Away(run, s.cur) && Legal(Exec(s1, run, entry), Switch(s.cur, ret2))
    ensures
      var s1 := Step(s, Switch(next, ret), entry);
      var s2 := Exec(s1, run, entry);
      var s3 := Step(s2, Switch(s.cur, ret2), entry);
      && s3.cpu == s.cpu.(esp := s.cpu.esp - 8, eip := ret)
      && s3.cur == s.cur && RunningThread(s3.cpu.esp) == s.cur
      && (forall a | s.cpu.esp <= a < s.cur + PAGE_SIZE :: Peek(s3.mem, a) == Peek(s.mem, a))
  {
    hide SysInv, Legal, Step, CallSwitch, RunningThread, Resumed, SavedOk, Peek;
    var s1 := Step(s, Switch(next, ret), entry);
    var s2 := Exec(s1, run, entry);
    var t := s.cur;
    LeaveFacts(s, next, ret, entry);
    SuspendedKept(s1, run, entry, t);
    SwitchResumes(s2, t, ret2, entry);
    SameFrame(s1.mem, s2.mem, t);
    var s3 := Step(s2, Switch(t, ret2), entry);
    PageOf(t, s.cpu.esp - 8);
    forall a | s.cpu.esp <= a < t + PAGE_SIZE ensures Peek(s3.mem, a) == Peek(s.mem, a) {
      assert OwnWord(t, a);
    }
  }

  /** What a thread leaves behind when it switches to another. */
  lemma LeaveFacts(s: Sys, next: Word, ret: Word, entry: Word)
    requires SysInv(s) && Legal(s, Switch(next, ret)) && next != s.cur
    ensures IsPage(s.cur) && s.cur + PCB_SIZE + 28 <= s.cpu.esp < s.cur + PAGE_SIZE
    ensures var s1 := Step(s, Switch(next, ret), entry); var t := s.cur;
      && s1.cur == next && t in s1.threads && SysInv(s1) && SavedOk(s1.mem, t)
      && Resumed(s1.mem, Peek(s1.mem, t)) == s.cpu.(esp := s.cpu.esp - 8, eip := ret)
      && (forall a | s.cpu.esp <= a < t + PAGE_SIZE :: Peek(s1.mem, a) == Peek(s.mem, a))
  {
    hide CallSwitch, RunningThread, Resumed, Peek;
    RunningIsCur(s);
    SwitchEffect(s.cpu, s.mem, s.cur, next, ret);
    SwitchKeeps(s, next, ret, entry);
  }

  /** switch_to from a thread to itself, which schedule does when no other thread is ready, changes
      no register but esp and eip, as a call that returns. */
  lemma SwitchToSelf(s: Sys, ret: Word, entry: Word)
    requires SysInv(s) && Legal(s, Switch(s.cur, ret))
    ensures Step(s, Switch(s.cur, ret), entry).cpu == s.cpu.(esp := s.cpu.esp - 8, eip := ret)
  {
    hide CallSwitch;
    RunningIsCur(s);
    SwitchEffect(s.cpu, s.mem, s.cur, s.cur, ret);
  }

  /** Theorem: however long after its creation, the first switch to a new thread enters kernel_thread
      with the callee-saved registers zero and the function and its argument where a caller would
      have pushed them. */
  lemma FirstResume(s: Sys, t: Word, f: Word, arg: Word, run: seq<Event>, ret: Word, entry: Word)
    requires SysInv(s) && Legal(s, Create(t, f, arg))
    requires var s1 := Step(s, Create(t, f, arg), entry);
      LegalRun(s1, run, entry) && Away(run, t) && Legal(Exec(s1, run, entry), Switch(t, ret))
    ensures
      var s1 := Step(s, Create(t, f, arg), entry);
      var s3 := Step(Exec(s1, run, entry), Switch(t, ret), entry);
      && s3.cpu == Cpu(t + PAGE_SIZE - 412, 0, 0, 0, 0, entry)
      && Peek(s3.mem, s3.cpu.esp + 4) == f && Peek(s3.mem, s3.cpu.esp + 8) == arg
      && s3.cur == t && RunningThread(s3.cpu.esp) == t
  {
    hide SysInv, Legal, Step, CreateThread, RunningThread, Resumed, SavedOk, NewStack, Peek;
    var s1 := Step(s, Create(t, f, arg), entry);
    var s2 := Exec(s1, run, entry);
    CreateFacts(s, t, f, arg, entry);
    SuspendedKept(s1, run, entry, t);
    SwitchResumes(s2, t, ret, entry);
    SameFrame(s1.mem, s2.mem, t);
    var sp := t + PAGE_SIZE - 432;
    assert OwnWord(t, sp + 24) && OwnWord(t, sp + 28);
    PageOf(t, sp + 20);
  }

  lemma CreateFacts(s: Sys, t: Word, f: Word, arg: Word, entry: Word)
    requires SysInv(s) && Legal(s, Create(t, f, arg))
    ensures IsPage(t) && t != s.cur
    ensures var s1 := Step(s, Create(t, f, arg), entry); var sp := t + PAGE_SIZE - 432;
      && s1.cur == s.cur && t in s1.threads && SysInv(s1) && SavedOk(s1.mem, t)
      && Resumed(s1.mem, Peek(s1.mem, t)) == Cpu(sp + 20, 0, 0, 0, 0, entry)
      && Peek(s1.mem, sp + 24) == f && Peek(s1.mem, sp + 28) == arg
  {
    hide CreateThread, Resumed, Peek, NewStack, SavedOk;
    NewStackInside(t);
    CreateEffect(s.mem, t, entry, f, arg);
    CreateKeeps(s, t, f, arg, entry);
  }
}
