/**
 Over whole runs: yield and the timer interrupt of a process give the CPU to its scheduler, and on one
 CPU every other RUNNABLE process has its turn before they return.
*/
module ProcYields {
  import opened ProcModel
  import opened ProcInvariants
  import opened ProcEffects
  import opened ProcStep
  import opened ProcInduction
  import opened ProcTheorems
  import opened ProcRuns
  import opened ProcOutcomes
  import opened ProcCalls

  /** In this step slot p becomes RUNNABLE, and the CPU that ran it runs its own scheduler. */
  predicate GivesUp(s: State, e: Event, s': State, p: nat) {
    && e.cpu < |s.cpus| && e.cpu < |s'.cpus| && p < |s.procs| && p < |s'.procs|
    && s.cpus[e.cpu].run == P(p) && s'.cpus[e.cpu].run == S(e.cpu)
    && s.procs[p].state == RUNNING && s'.procs[p].state == RUNNABLE
  }

  predicate GivesUpAt(states: seq<State>, events: seq<Event>, p: nat, k: nat)
    requires |states| == |events| + 1 && k < |events|
  {
    GivesUp(states[k], events[k], states[k + 1], p)
  }

  /** It does so in one of the steps from i to j. */
  ghost predicate GaveUp(states: seq<State>, events: seq<Event>, p: nat, i: nat, j: nat)
    requires |states| == |events| + 1 && j <= |events|
  {
    exists k :: i <= k < j && GivesUpAt(states, events, p, k)
  }

  lemma GaveUpLater(states: seq<State>, events: seq<Event>, p: nat, i: nat, j: nat)
    requires |states| == |events| + 1 && i <= j < |events|
    ensures GaveUp(states, events, p, i, j) || GivesUpAt(states, events, p, j) ==> GaveUp(states, events, p, i, j + 1)
  {
    if GivesUpAt(states, events, p, j) { assert i <= j < j + 1; }
  }

  // ----- yield

  lemma YieldStatements(s: State, p: nat)
    requires Sizes(s) && p < |s.procs| && (s.threads[p].pc == Yielding || s.threads[p].pc == Yielded)
    ensures PcFits(s.threads[p].pc, |s.procs|)
    ensures var ins := ThreadCode(s, p, Go);
      && ins.Do?
      && (s.threads[p].pc == Yielding ==> ins.pc == Yielded && ins.op.Leave?)
      && (s.threads[p].pc == Yielded ==> ins.pc == Body)
      && (ins.op.Leave? ==> ins.w == Put(p, s.procs[p].(state := RUNNABLE)))
  {
  }

  lemma YieldMoves(s: State, e: Event, s': State, p: nat)
    requires Inv(s) && StepTo(s, e, s') && OwnStep(s, e, p) && p < |s'.threads|
    requires s.threads[p].pc == Yielding || s.threads[p].pc == Yielded
    ensures if s.threads[p].pc == Yielded then s'.threads[p].pc == Body
            else s'.threads[p].pc == Yielded && GivesUp(s, e, s', p)
  {
    OwnMoves(s, e, s', p);
    YieldStatements(s, p);
    GoodStepFromExec(s, e.cpu, e.ch, s');
    RunningThread(s, e.cpu, p);
  }

  ghost predicate YieldSoFar(states: seq<State>, events: seq<Event>, p: nat, i: nat, j: nat)
    requires |states| == |events| + 1 && j <= |events|
  {
    && p < |states[j].threads|
    && var pc := states[j].threads[p].pc;
    && (pc == Yielding || pc == Yielded || pc == Body)
    && (pc != Yielding ==> GaveUp(states, events, p, i, j))
  }

  lemma YieldNext(states: seq<State>, events: seq<Event>, p: nat, i: nat, j: nat)
    requires IsRun(states, events) && i <= j < |events| && YieldSoFar(states, events, p, i, j) && !AtBody(states[j], p)
    ensures YieldSoFar(states, events, p, i, j + 1)
  {
    RunStep(states, events, j);
    var s, e, s' := states[j], events[j], states[j + 1];
    GaveUpLater(states, events, p, i, j);
    if OwnStep(s, e, p) { YieldMoves(s, e, s', p); } else { OthersStay(s, e, s', p); }
  }

  lemma {:induction false} YieldRun(states: seq<State>, events: seq<Event>, p: nat, i: nat, j: nat)
    requires IsRun(states, events) && InCall(states, events, p, i, j) && events[i].ch == CallYield
    ensures YieldSoFar(states, events, p, i, j)
    decreases j
  {
    if j == i + 1 {
      RunStep(states, events, i);
      OwnMoves(states[i], events[i], states[i + 1], p);
    } else {
      CallShorter(states, events, p, i, j);
      YieldRun(states, events, p, i, j - 1);
      YieldNext(states, events, p, i, j - 1);
    }
  }

  /** yield returns only after it has made its caller RUNNABLE and given the CPU to its scheduler. */
  lemma YieldReturns(states: seq<State>, events: seq<Event>, p: nat, i: nat, j: nat)
    requires IsRun(states, events) && Returns(states, events, p, i, j) && events[i].ch == CallYield
    ensures exists k :: i <= k < j && GivesUpAt(states, events, p, k)
  {
    YieldRun(states, events, p, i, j);
  }

  // ----- a timer interrupt of a process

  /** At step i a timer interrupt of slot p is taken; up to state j the process has not gone on since. */
  ghost predicate InTick(states: seq<State>, events: seq<Event>, p: nat, i: nat, j: nat) {
    && |states| == |events| + 1 && i < j <= |events|
    && Executes(states[i], events[i].cpu, p) && events[i].ch == Interrupt
    && forall m :: i < m < j ==> InTrap(states[m], p)
  }

  predicate InTrap(s: State, p: nat) {
    p < |s.threads| && s.threads[p].trap != NoTrap
  }

  lemma TickShorter(states: seq<State>, events: seq<Event>, p: nat, i: nat, j: nat)
    requires InTick(states, events, p, i, j) && i < j - 1
    ensures InTick(states, events, p, i, j - 1) && InTrap(states[j - 1], p)
  {
  }

  lemma TickStatements(s: State, p: nat)
    requires Sizes(s) && p < |s.procs| && TrapFits(s.threads[p].trap, |s.procs|) && s.threads[p].trap != NoTrap
    ensures var ins, trap := TrapCode(s, P(p), s.threads[p]), s.threads[p].trap;
      && ins.Do?
      && (ins.trap == NoTrap ==> trap == TkReturn)
      && (ins.trap == TkReturn ==> trap == TkParked)
      && (ins.trap == TkParked ==> ins.op.Leave? && ins.w == Put(p, s.procs[p].(state := RUNNABLE)))
  {
  }

  lemma TickMoves(s: State, e: Event, s': State, p: nat)
    requires Inv(s) && StepTo(s, e, s') && p < |s.procs| && p < |s'.threads| && InTrap(s, p)
    requires s.cpus[e.cpu].run == P(p)
    ensures s'.threads[p].trap == NoTrap ==> s.threads[p].trap == TkReturn
    ensures s'.threads[p].trap == TkReturn ==> s.threads[p].trap == TkParked
    ensures s'.threads[p].trap == TkParked ==> GivesUp(s, e, s', p)
  {
    GoodStepFromExec(s, e.cpu, e.ch, s');
    NotDead(s, e.cpu, p);
    CodeCases(s, e.cpu, e.ch, p);
    TickStatements(s, p);
    RunningThread(s, e.cpu, p);
  }

  /** A thread in an interrupt that another CPU, or its scheduler, leaves alone. */
  lemma TickStays(s: State, e: Event, s': State, p: nat)
    requires Inv(s) && StepTo(s, e, s') && p < |s.procs| && p < |s'.threads| && InTrap(s, p)
    requires s.cpus[e.cpu].run != P(p)
    ensures s'.threads[p].trap == s.threads[p].trap
  {
    GoodStepFromExec(s, e.cpu, e.ch, s');
    GoodWrites(s, e, s');
    assert TableOk(s, p);
    ApplyFrame(s, Code(s, e.cpu, e.ch).w);
  }

  predicate HasYielded(trap: Trap) {
    trap == NoTrap || trap == TkReturn || trap == TkParked
  }

  ghost predicate TickSoFar(states: seq<State>, events: seq<Event>, p: nat, i: nat, j: nat)
    requires |states| == |events| + 1 && j <= |events|
  {
    p < |states[j].threads| && (HasYielded(states[j].threads[p].trap) ==> GaveUp(states, events, p, i, j))
  }

  lemma TickNext(states: seq<State>, events: seq<Event>, p: nat, i: nat, j: nat)
    requires IsRun(states, events) && i <= j < |events| && TickSoFar(states, events, p, i, j) && InTrap(states[j], p)
    ensures TickSoFar(states, events, p, i, j + 1)
  {
    RunStep(states, events, j);
    var s, e, s' := states[j], events[j], states[j + 1];
    GaveUpLater(states, events, p, i, j);
    if s.cpus[e.cpu].run == P(p) { TickMoves(s, e, s', p); } else { TickStays(s, e, s', p); }
  }

  lemma TickBegins(s: State, e: Event, s': State, p: nat)
    requires Inv(s) && StepTo(s, e, s') && Executes(s, e.cpu, p) && e.ch == Interrupt && p < |s'.threads|
    ensures s'.threads[p].trap == TkEnter
  {
    GoodStepFromExec(s, e.cpu, e.ch, s');
    NotDead(s, e.cpu, p);
    CodeCases(s, e.cpu, e.ch, p);
  }

  lemma {:induction false} TickRun(states: seq<State>, events: seq<Event>, p: nat, i: nat, j: nat)
    requires IsRun(states, events) && InTick(states, events, p, i, j)
    ensures TickSoFar(states, events, p, i, j)
    decreases j
  {
    if j == i + 1 {
      RunStep(states, events, i);
      TickBegins(states[i], events[i], states[i + 1], p);
    } else {
      TickShorter(states, events, p, i, j);
      TickRun(states, events, p, i, j - 1);
      TickNext(states, events, p, i, j - 1);
    }
  }

  /** The timer interrupt of a process ends only after it has given the CPU to the scheduler, like yield. */
  lemma TickReturns(states: seq<State>, events: seq<Event>, p: nat, i: nat, j: nat)
    requires IsRun(states, events) && InTick(states, events, p, i, j)
    requires p < |states[j].threads| && states[j].threads[p].trap == NoTrap
    ensures exists k :: i <= k < j && GivesUpAt(states, events, p, k)
  {
    TickRun(states, events, p, i, j);
  }

  // ----- whose turn it is then

  predicate DispatchesAt(states: seq<State>, events: seq<Event>, b: nat, k: nat)
    requires |states| == |events| + 1 && k < |events|
  {
    Dispatches(states[k], events[k], states[k + 1], b)
  }

  /** Slot b is dispatched in one of the steps from i to j. */
  ghost predicate Dispatched(states: seq<State>, events: seq<Event>, b: nat, i: nat, j: nat)
    requires |states| == |events| + 1 && j <= |events|
  {
    exists k :: i <= k < j && DispatchesAt(states, events, b, k)
  }

  predicate RunnableAt(s: State, b: nat) {
    b < |s.procs| && s.procs[b].state == RUNNABLE
  }

  /** A RUNNABLE slot stays RUNNABLE until it is dispatched. */
  lemma {:induction false} RunnableUntil(states: seq<State>, events: seq<Event>, b: nat, i: nat, j: nat)
    requires IsRun(states, events) && i <= j < |states| && RunnableAt(states[i], b)
    ensures RunnableAt(states[j], b) || Dispatched(states, events, b, i, j)
    decreases j
  {
    if i < j {
      var k := j - 1;
      RunnableUntil(states, events, b, i, k);
      if RunnableAt(states[k], b) {
        RunStep(states, events, k);
        RunnableLeaves(states[k], events[k], states[j], b);
        if !RunnableAt(states[j], b) { assert DispatchesAt(states, events, b, k); }
      }
    }
  }

  /** Just after slot p has given up CPU c, every other RUNNABLE slot is ahead of it in c's scan. */
  lemma ScanAfter(s: State, e: Event, s': State, p: nat, b: nat)
    requires Inv(s) && Inv(s') && StepTo(s, e, s') && GivesUp(s, e, s', p) && b != p && RunnableAt(s', b)
    ensures Ahead(s', e.cpu, p, b)
  {
    GoodStepFromExec(s, e.cpu, e.ch, s');
    assert CpuShape(s, e.cpu) && RunOk(s, e.cpu);
  }

  lemma NotItself(states: seq<State>, events: seq<Event>, c: nat, p: nat, b: nat, d: nat)
    requires IsRun(states, events) && d < |events| && b != p && Ahead(states[d], c, p, b) && events[d].cpu == c
    ensures !DispatchesAt(states, events, p, d)
  {
    ScanContinues(states, events, c, p, b, d);
  }

  lemma ServedDispatched(states: seq<State>, events: seq<Event>, b: nat, k: nat, d: nat)
    requires |states| == |events| + 1 && d <= |events| && Served(states, events, b, k, d)
    ensures Dispatched(states, events, b, k, d)
  {
    var m :| k < m < d && Dispatches(states[m], events[m], states[m + 1], b);
    assert DispatchesAt(states, events, b, m);
  }

  /** From there on CPU c dispatches slot b before slot p. */
  lemma BeforeItself(states: seq<State>, events: seq<Event>, p: nat, b: nat, k: nat, d: nat)
    requires IsRun(states, events) && k < d < |events| && b != p && Ahead(states[k + 1], events[k].cpu, p, b)
    requires DispatchesAt(states, events, p, d) && events[d].cpu == events[k].cpu
    ensures Dispatched(states, events, b, k, d)
  {
    ScanReaches(states, events, events[k].cpu, p, b, k, d);
    if Ahead(states[d], events[k].cpu, p, b) {
      NotItself(states, events, events[k].cpu, p, b, d);
    } else {
      ServedDispatched(states, events, b, k, d);
    }
  }

  lemma DispatchedLonger(states: seq<State>, events: seq<Event>, b: nat, i: nat, k: nat, d: nat, j: nat)
    requires |states| == |events| + 1 && i <= k <= d <= j <= |events| && Dispatched(states, events, b, k, d)
    ensures Dispatched(states, events, b, i, j)
  {
    var m :| k <= m < d && DispatchesAt(states, events, b, m);
    assert i <= m < j;
  }

  /** Between giving up the CPU and running again, slot p is dispatched. */
  lemma BackAgain(states: seq<State>, events: seq<Event>, p: nat, k: nat, j: nat) returns (d: nat)
    requires IsRun(states, events) && k < j < |states| && GivesUpAt(states, events, p, k)
    requires !RunnableAt(states[j], p)
    ensures k < d < j && DispatchesAt(states, events, p, d)
  {
    RunnableUntil(states, events, p, k + 1, j);
    d :| k + 1 <= d < j && DispatchesAt(states, events, p, d);
  }

  lemma OneCpuRuns(states: seq<State>, events: seq<Event>, k: nat)
    requires IsRun(states, events) && k < |events| && |states[0].cpus| == 1
    ensures events[k].cpu == 0
  {
    RunInv(states, events, 0);
    RunSizes(states, events, 0, k);
    assert StepAt(states, events, k);
  }

  /** On one CPU: who was RUNNABLE when slot p gave up the CPU is dispatched before p runs again. */
  lemma OthersFirst(states: seq<State>, events: seq<Event>, p: nat, b: nat, i: nat, k: nat, j: nat)
    requires IsRun(states, events) && |states[0].cpus| == 1 && i <= k < j < |states| && b != p
    requires GivesUpAt(states, events, p, k) && !RunnableAt(states[j], p) && RunnableAt(states[i], b)
    ensures Dispatched(states, events, b, i, j)
  {
    RunnableUntil(states, events, b, i, k + 1);
    if Dispatched(states, events, b, i, k + 1) {
      DispatchedLonger(states, events, b, i, i, k + 1, j);
    } else {
      RunStep(states, events, k);
      RunInv(states, events, k + 1);
      ScanAfter(states[k], events[k], states[k + 1], p, b);
      var d := BackAgain(states, events, p, k, j);
      OneCpuRuns(states, events, k);
      OneCpuRuns(states, events, d);
      BeforeItself(states, events, p, b, k, d);
      DispatchedLonger(states, events, b, i, k, d, j);
    }
  }

  /** A thread that comes back to its thread function has not left its CPU. */
  lemma BackInBody(s: State, e: Event, s': State, p: nat)
    requires Inv(s) && Inv(s') && StepTo(s, e, s') && p < |s.procs| && !AtBody(s, p) && AtBody(s', p)
    ensures !RunnableAt(s', p)
  {
    if OwnStep(s, e, p) {
      OwnMoves(s, e, s', p);
      assert TableOk(s', p);
    } else {
      OthersStay(s, e, s', p);
    }
  }

  lemma BodyRuns(states: seq<State>, events: seq<Event>, p: nat, k: nat)
    requires IsRun(states, events) && k < |events| && p < |states[k].threads|
    requires !AtBody(states[k], p) && AtBody(states[k + 1], p)
    ensures !RunnableAt(states[k + 1], p)
  {
    RunInv(states, events, k);
    RunInv(states, events, k + 1);
    assert StepAt(states, events, k);
    BackInBody(states[k], events[k], states[k + 1], p);
  }

  /**
   On one CPU, yield gives every other process a turn: whoever is RUNNABLE when it is called is
   dispatched before it returns.
  */
  lemma YieldServesOthers(states: seq<State>, events: seq<Event>, p: nat, b: nat, i: nat, j: nat)
    requires IsRun(states, events) && |states[0].cpus| == 1
    requires Returns(states, events, p, i, j) && events[i].ch == CallYield && b != p && RunnableAt(states[i], b)
    ensures Dispatched(states, events, b, i, j)
  {
    YieldReturns(states, events, p, i, j);
    var k :| i <= k < j && GivesUpAt(states, events, p, k);
    YieldRun(states, events, p, i, j);
    ReturnStep(states, events, p, i, j);
    BodyRuns(states, events, p, j - 1);
    OthersFirst(states, events, p, b, i, k, j);
  }

  lemma ReturnStep(states: seq<State>, events: seq<Event>, p: nat, i: nat, j: nat)
    requires IsRun(states, events) && Returns(states, events, p, i, j) && events[i].ch == CallYield
    ensures p < |states[j - 1].threads| && !AtBody(states[j - 1], p)
  {
    if j == i + 1 {
      RunStep(states, events, i);
      OwnMoves(states[i], events[i], states[j], p);
    } else {
      YieldRun(states, events, p, i, j - 1);
    }
  }
}
