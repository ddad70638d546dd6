/**
 How long a call can take: between two points at which a process leaves the kernel's code or sleeps in it,
 it executes a bounded number of steps of its own, and so do an interrupt handler and a scheduler's pass.
*/
module ProcBounds {
  import opened ProcModel
  import opened ProcStep
  import opened ProcInduction
  import opened ProcRuns
  import opened ProcOutcomes
  import opened ProcCalls
  import opened ProcYields

  // ----- calls

  /** In the kernel's code, and not asleep. */
  predicate InsideCall(pc: Pc) {
    pc == Yielding || pc == Yielded || pc.Creating? || pc.Exiting? || (pc.Waiting? && !pc.wt.WtSlept?)
  }

  /** What a wakeup loop has left to do: two steps a slot. */
  function LoopRank(k: nat, n: nat): (r: nat)
    requires k <= n
  {
    2 * (n - k)
  }

  /** What the re-parenting loop has left: a step a slot, and a wakeup for it at worst. */
  function ScanRank(j: nat, n: nat): (r: nat)
    requires j <= n
  {
    (n - j) * (2 * n + 3)
  }

  lemma ScanRankNext(j: nat, n: nat)
    requires j < n
    ensures ScanRank(j, n) == ScanRank(j + 1, n) + 2 * n + 3
  {
    assert n - j == (n - (j + 1)) + 1;
  }

  function ExitRank(ex: ExitPc, n: nat): (r: nat)
    requires PcFits(Exiting(0, ex), n)
  {
    match ex
    case ExScan(j) => ScanRank(j, n) + 2 * n + 6
    case ExWake(_, k, a) => LoopRank(k, n) + 1 + if a.ThenScan? then ScanRank(a.j, n) + 2 * n + 6 else 4
    case ExWakeHeld(_, k, a) => LoopRank(k, n) + if a.ThenScan? then ScanRank(a.j, n) + 2 * n + 6 else 4
    case ExLock => 4
    case ExDie => 3
    case ExGone => 2
    case ExDead => 1
  }

  /** How many steps of its own a process can still take in a call, at most. */
  function Rank(pc: Pc, n: nat): (r: nat)
    requires PcFits(pc, n)
  {
    match pc
    case Yielding => 2
    case Yielded => 1
    case Creating(CrScan(i)) => 2 * (n - i) + 6
    case Creating(CrCheck(i)) => 2 * (n - i) + 5
    case Creating(CrPid(_)) => 5
    case Creating(CrWait(_, _)) => 4
    case Creating(CrLink(_, _)) => 3
    case Creating(CrReady(_, _)) => 2
    case Creating(CrReturn(_, _)) => 1
    case Exiting(_, ex) => ExitRank(ex, n)
    case Waiting(WtScan(j, _)) => 2 * (n - j) + 4
    case Waiting(WtCheck(j, _)) => 2 * (n - j) + 3
    case Waiting(WtReaped) => 1
    case Waiting(WtUnlock) => 2
    case Waiting(WtSwitch) => 1
    case Waiting(WtRelock) => 2 * n + 5
    case _ => 0
  }

  lemma ExitDescends(s: State, p: nat, status: int, ex: ExitPc)
    requires p < |s.procs| && PcFits(Exiting(status, ex), |s.procs|) && ExitCode(s, p, status, ex).Do?
    requires SlotFits(s.procs[p].parent, |s.procs|) && SlotFits(s.initproc, |s.procs|)
    ensures var ins := ExitCode(s, p, status, ex);
      && ins.pc.Exiting? && PcFits(ins.pc, |s.procs|)
      && ExitRank(ins.pc.ex, |s.procs|) < ExitRank(ex, |s.procs|)
  {
    if ex.ExScan? && ex.j < |s.procs| { ScanRankNext(ex.j, |s.procs|); }
  }

  lemma CodeDescends(s: State, p: nat, ch: Choice)
    requires Sizes(s) && p < |s.procs| && SlotShape(s, p) && SlotFits(s.initproc, |s.procs|)
    requires ThreadCode(s, p, ch).Do? && InsideCall(s.threads[p].pc)
    ensures PcFits(ThreadCode(s, p, ch).pc, |s.procs|)
    ensures Rank(ThreadCode(s, p, ch).pc, |s.procs|) < Rank(s.threads[p].pc, |s.procs|)
  {
    if s.threads[p].pc.Exiting? { ExitDescends(s, p, s.threads[p].pc.status, s.threads[p].pc.ex); }
  }

  predicate FitsAt(s: State, p: nat) {
    p < |s.procs| && p < |s.threads| && PcFits(s.threads[p].pc, |s.procs|)
  }

  function RankAt(s: State, p: nat): (r: nat)
    requires FitsAt(s, p)
  {
    Rank(s.threads[p].pc, |s.procs|)
  }

  lemma StepDescends(s: State, e: Event, s': State, p: nat)
    requires Inv(s) && Inv(s') && StepTo(s, e, s') && p < |s.procs| == |s'.procs| && InsideCall(s.threads[p].pc)
    ensures FitsAt(s, p) && FitsAt(s', p)
    ensures RankAt(s', p) <= RankAt(s, p) && (OwnStep(s, e, p) ==> RankAt(s', p) < RankAt(s, p))
  {
    assert SlotShape(s, p) && SlotShape(s', p);
    if OwnStep(s, e, p) {
      OwnMoves(s, e, s', p);
      CodeDescends(s, p, e.ch);
    } else {
      OthersStay(s, e, s', p);
    }
  }

  /** How many of the steps from i to j slot p takes itself. */
  function OwnSteps(states: seq<State>, events: seq<Event>, p: nat, i: nat, j: nat): (n: nat)
    requires |states| == |events| + 1 && j <= |events|
    decreases j
  {
    if j <= i then 0
    else OwnSteps(states, events, p, i, j - 1) + if OwnStep(states[j - 1], events[j - 1], p) then 1 else 0
  }

  /** From state i up to state j slot p is in the kernel's code and not asleep. */
  ghost predicate Busy(states: seq<State>, p: nat, i: nat, j: nat)
    requires j <= |states|
  {
    forall m :: i <= m < j ==> BusyAt(states[m], p)
  }

  predicate BusyAt(s: State, p: nat) {
    p < |s.procs| && p < |s.threads| && InsideCall(s.threads[p].pc)
  }

  lemma BusyStep(states: seq<State>, events: seq<Event>, p: nat, k: nat)
    requires IsRun(states, events) && k < |events| && BusyAt(states[k], p)
    ensures FitsAt(states[k], p) && FitsAt(states[k + 1], p) && |states[k + 1].procs| == |states[k].procs|
    ensures RankAt(states[k + 1], p) + (if OwnStep(states[k], events[k], p) then 1 else 0) <= RankAt(states[k], p)
  {
    RunStep(states, events, k);
    RunInv(states, events, k + 1);
    StepDescends(states[k], events[k], states[k + 1], p);
  }

  lemma {:induction false} StepsDescend(states: seq<State>, events: seq<Event>, p: nat, i: nat, j: nat)
    requires IsRun(states, events) && i <= j < |states| && Busy(states, p, i, j) && FitsAt(states[i], p)
    ensures FitsAt(states[j], p) && |states[j].procs| == |states[i].procs|
    ensures OwnSteps(states, events, p, i, j) + RankAt(states[j], p) <= RankAt(states[i], p)
    decreases j
  {
    if i < j {
      StepsDescend(states, events, p, i, j - 1);
      assert BusyAt(states[j - 1], p);
      BusyStep(states, events, p, j - 1);
    }
  }

  /** The most steps a call takes, its first one included, until it returns, panics, sleeps or has exited. */
  function CallBound(ch: Choice, n: nat): (b: nat) {
    match ch
    case CallYield => 3
    case CallCreate => 2 * n + 7
    case CallExit(_) => n * (2 * n + 3) + 2 * n + 7
    case CallWait => 2 * n + 5
    case _ => 1
  }

  lemma FirstRank(s: State, e: Event, s': State, p: nat)
    requires Inv(s) && Inv(s') && StepTo(s, e, s') && OwnStep(s, e, p) && s.threads[p].pc == Body
    ensures FitsAt(s', p) && |s'.procs| == |s.procs| && RankAt(s', p) < CallBound(e.ch, |s.procs|)
  {
    OwnMoves(s, e, s', p);
    assert SlotShape(s', p);
  }

  lemma {:induction false} StepsSplit(states: seq<State>, events: seq<Event>, p: nat, i: nat, j: nat)
    requires |states| == |events| + 1 && i < j <= |events|
    ensures OwnSteps(states, events, p, i, j) <= 1 + OwnSteps(states, events, p, i + 1, j)
    decreases j
  {
    if j > i + 1 { StepsSplit(states, events, p, i, j - 1); }
  }

  lemma FirstStep(states: seq<State>, events: seq<Event>, p: nat, i: nat)
    requires IsRun(states, events) && i < |events| && OwnStep(states[i], events[i], p) && AtBody(states[i], p)
    ensures FitsAt(states[i + 1], p) && RankAt(states[i + 1], p) < CallBound(events[i].ch, |states[i].procs|)
  {
    RunStep(states, events, i);
    RunInv(states, events, i + 1);
    FirstRank(states[i], events[i], states[i + 1], p);
  }

  /**
   A call is over, or asleep, after a bounded number of steps of its process, whatever the other CPUs
   and timer interrupts do in between.
  */
  lemma CallIsShort(states: seq<State>, events: seq<Event>, p: nat, i: nat, j: nat)
    requires IsRun(states, events) && InCall(states, events, p, i, j) && Busy(states, p, i + 1, j)
    ensures OwnSteps(states, events, p, i, j) <= CallBound(events[i].ch, |states[i].procs|)
  {
    FirstStep(states, events, p, i);
    StepsDescend(states, events, p, i + 1, j);
    StepsSplit(states, events, p, i, j);
  }

  /** The same after a wakeup: wait_process looks at the table once more, and returns or sleeps again. */
  lemma WakeIsShort(states: seq<State>, events: seq<Event>, p: nat, i: nat, j: nat)
    requires IsRun(states, events) && i <= j < |states| && Busy(states, p, i, j)
    requires p < |states[i].threads| && states[i].threads[p].pc == Waiting(WtRelock)
    ensures OwnSteps(states, events, p, i, j) <= 2 * |states[i].procs| + 5
  {
    RunInv(states, events, i);
    assert SlotShape(states[i], p);
    StepsDescend(states, events, p, i, j);
  }

  // ----- timer interrupts of a process

  function TickRank(trap: Trap, n: nat): (r: nat)
    requires TrapFits(trap, n)
  {
    match trap
    case NoTrap => 0
    case TkEnter => 2 * n + 6
    case TkWake(k) => 2 * (n - k) + 5
    case TkHeld(k) => 2 * (n - k) + 4
    case TkYield => 4
    case TkSwitch => 3
    case TkParked => 2
    case TkReturn => 1
  }

  /** In this step CPU e.cpu executes a statement of the interrupt handler on the stack of slot p. */
  predicate TickStep(s: State, e: Event, p: nat) {
    e.cpu < |s.cpus| && s.cpus[e.cpu].run == P(p) && InTrap(s, p)
  }

  function TickSteps(states: seq<State>, events: seq<Event>, p: nat, i: nat, j: nat): (n: nat)
    requires |states| == |events| + 1 && j <= |events|
    decreases j
  {
    if j <= i then 0
    else TickSteps(states, events, p, i, j - 1) + if TickStep(states[j - 1], events[j - 1], p) then 1 else 0
  }

  predicate TrapFitsAt(s: State, p: nat) {
    p < |s.procs| && p < |s.threads| && TrapFits(s.threads[p].trap, |s.procs|)
  }

  function TickRankAt(s: State, p: nat): (r: nat)
    requires TrapFitsAt(s, p)
  {
    TickRank(s.threads[p].trap, |s.procs|)
  }

  lemma TickCode(s: State, p: nat)
    requires Sizes(s) && p < |s.procs| && TrapFits(s.threads[p].trap, |s.procs|) && InTrap(s, p)
    ensures var ins := TrapCode(s, P(p), s.threads[p]);
      ins.Do? ==>
        TrapFits(ins.trap, |s.procs|) && TickRank(ins.trap, |s.procs|) < TickRank(s.threads[p].trap, |s.procs|)
  {
  }

  lemma TickDescends(s: State, e: Event, s': State, p: nat)
    requires Inv(s) && Inv(s') && StepTo(s, e, s') && p < |s.procs| == |s'.procs| && InTrap(s, p)
    ensures TrapFitsAt(s, p) && TrapFitsAt(s', p)
    ensures TickRankAt(s', p) <= TickRankAt(s, p) && (TickStep(s, e, p) ==> TickRankAt(s', p) < TickRankAt(s, p))
  {
    assert SlotShape(s, p) && SlotShape(s', p);
    if TickStep(s, e, p) {
      GoodStepFromExec(s, e.cpu, e.ch, s');
      CodeCases(s, e.cpu, e.ch, p);
      TickCode(s, p);
    } else {
      TickStays(s, e, s', p);
    }
  }

  lemma TickStepAt(states: seq<State>, events: seq<Event>, p: nat, k: nat)
    requires IsRun(states, events) && k < |events| && p < |states[k].procs| && InTrap(states[k], p)
    ensures TrapFitsAt(states[k], p) && TrapFitsAt(states[k + 1], p) && |states[k + 1].procs| == |states[k].procs|
    ensures TickRankAt(states[k + 1], p) + (if TickStep(states[k], events[k], p) then 1 else 0) <=
            TickRankAt(states[k], p)
  {
    RunStep(states, events, k);
    RunInv(states, events, k + 1);
    TickDescends(states[k], events[k], states[k + 1], p);
  }

  lemma TickFirst(states: seq<State>, events: seq<Event>, p: nat, i: nat)
    requires IsRun(states, events) && InTick(states, events, p, i, i + 1)
    ensures |states[i + 1].procs| == |states[i].procs| && TrapFitsAt(states[i + 1], p)
    ensures states[i + 1].threads[p].trap == TkEnter && TickSteps(states, events, p, i, i + 1) == 0
  {
    RunStep(states, events, i);
    TickBegins(states[i], events[i], states[i + 1], p);
  }

  /** A timer interrupt of a process takes a bounded number of steps of its handler. */
  lemma {:induction false} TickIsShort(states: seq<State>, events: seq<Event>, p: nat, i: nat, j: nat)
    requires IsRun(states, events) && InTick(states, events, p, i, j)
    ensures |states[j].procs| == |states[i].procs| && TrapFitsAt(states[j], p)
    ensures TickSteps(states, events, p, i, j) + TickRankAt(states[j], p) <= 2 * |states[i].procs| + 6
    decreases j
  {
    if j == i + 1 {
      TickFirst(states, events, p, i);
    } else {
      TickShorter(states, events, p, i, j);
      TickIsShort(states, events, p, i, j - 1);
      TickStepAt(states, events, p, j - 1);
    }
  }

  // ----- the scheduler

  /** What a pass over the table has left to do: four steps a slot at worst. */
  function PassRank(sd: SchedPc, n: nat): (r: nat)
    requires PcFits(Scheduling(sd), n)
  {
    match sd
    case SLoop => 0
    case SOpen => 4 * n + 2
    case SPick(i) => 4 * (n - i) + 1
    case SLook(i) => 4 * (n - i)
    case SBack(i) => 4 * (n - i) - 1
    case SDone(i) => 4 * (n - i) - 2
  }

  /** CPU c executes a statement of its scheduler, and no interrupt on top of it. */
  predicate SchedStep(s: State, e: Event, c: nat) {
    && e.cpu == c < |s.cpus| && c < |s.scheds| && s.cpus[c].run == S(c) && s.scheds[c].trap == NoTrap
    && e.ch != Interrupt
  }

  function SchedSteps(states: seq<State>, events: seq<Event>, c: nat, i: nat, j: nat): (n: nat)
    requires |states| == |events| + 1 && j <= |events|
    decreases j
  {
    if j <= i then 0
    else SchedSteps(states, events, c, i, j - 1) + if SchedStep(states[j - 1], events[j - 1], c) then 1 else 0
  }

  predicate PassFits(s: State, c: nat) {
    c < |s.scheds| && c < |s.cpus| && s.scheds[c].pc.Scheduling? && PcFits(s.scheds[c].pc, |s.procs|)
  }

  /** CPU c is in a pass of its scheduler, or runs a process from there. */
  predicate InPass(s: State, c: nat) {
    PassFits(s, c) && s.scheds[c].pc != Scheduling(SLoop)
  }

  function PassRankAt(s: State, c: nat): (r: nat)
    requires PassFits(s, c)
  {
    PassRank(s.scheds[c].pc.sd, |s.procs|)
  }

  lemma PassCode(s: State, sd: SchedPc)
    requires PcFits(Scheduling(sd), |s.procs|) && sd != SLoop
    ensures var ins := SchedCode(s, Scheduling(sd));
      && ins.Do? && ins.pc.Scheduling? && PcFits(ins.pc, |s.procs|)
      && PassRank(ins.pc.sd, |s.procs|) < PassRank(sd, |s.procs|)
  {
  }

  lemma PassDescends(s: State, e: Event, s': State, c: nat)
    requires Inv(s) && Inv(s') && StepTo(s, e, s') && |s'.procs| == |s.procs| && |s'.cpus| == |s.cpus| && InPass(s, c)
    ensures PassFits(s', c)
    ensures PassRankAt(s', c) <= PassRankAt(s, c) && (SchedStep(s, e, c) ==> PassRankAt(s', c) < PassRankAt(s, c))
  {
    assert CpuShape(s', c);
    if e.cpu == c && s.cpus[c].run == S(c) {
      ScanCode(s, e, s', c);
      PassCode(s, s.scheds[c].pc.sd);
      if SchedStep(s, e, c) { SchedGoes(s, e, c); }
    } else {
      ScanWaits(s, e, s', c, 0);
    }
  }

  lemma SchedGoes(s: State, e: Event, c: nat)
    requires Shape(s) && SchedStep(s, e, c) && CpuShape(s, c) && Code(s, c, e.ch).Do?
    ensures Code(s, c, e.ch) == SchedCode(s, s.scheds[c].pc)
  {
  }

  ghost predicate Passing(states: seq<State>, c: nat, i: nat, j: nat)
    requires j <= |states|
  {
    forall m :: i <= m < j ==> InPass(states[m], c)
  }

  lemma PassStep(states: seq<State>, events: seq<Event>, c: nat, k: nat)
    requires IsRun(states, events) && k < |events| && InPass(states[k], c)
    ensures PassFits(states[k + 1], c) && |states[k + 1].procs| == |states[k].procs|
    ensures PassRankAt(states[k + 1], c) + (if SchedStep(states[k], events[k], c) then 1 else 0) <=
            PassRankAt(states[k], c)
  {
    RunStep(states, events, k);
    SizesAt(states, events, k);
    RunInv(states, events, k + 1);
    PassDescends(states[k], events[k], states[k + 1], c);
  }

  /** A pass of the scheduler is over after a bounded number of its steps, whatever the processes it runs do. */
  lemma {:induction false} PassIsShort(states: seq<State>, events: seq<Event>, c: nat, i: nat, j: nat)
    requires IsRun(states, events) && i <= j < |states| && PassFits(states[i], c) && Passing(states, c, i, j)
    ensures PassFits(states[j], c) && |states[j].procs| == |states[i].procs|
    ensures SchedSteps(states, events, c, i, j) + PassRankAt(states[j], c) <= PassRankAt(states[i], c) <=
            4 * |states[i].procs| + 2
    decreases j
  {
    if i < j {
      PassIsShort(states, events, c, i, j - 1);
      assert InPass(states[j - 1], c);
      PassStep(states, events, c, j - 1);
    }
  }
}
