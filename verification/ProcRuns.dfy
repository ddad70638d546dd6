/** Properties that relate different moments of one run. */
module ProcRuns {
  import opened ProcModel
  import opened ProcInvariants
  import opened ProcEffects
  import opened ProcStep
  import opened ProcHistory
  import opened ProcInduction
  import opened ProcTheorems

  lemma StepSizes(s: State, e: Event, s': State)
    requires Inv(s) && StepTo(s, e, s')
    ensures |s'.procs| == |s.procs| && |s'.cpus| == |s.cpus| && s'.nextpid >= s.nextpid && Inv(s')
  {
    GoodStepFromExec(s, e.cpu, e.ch, s');
    ApplyFrame(s, Code(s, e.cpu, e.ch).w);
    KeepsInv(s, e.cpu, e.ch, s');
  }

  lemma SizesAt(states: seq<State>, events: seq<Event>, k: nat)
    requires IsRun(states, events) && k < |events|
    ensures |states[k + 1].procs| == |states[k].procs| && |states[k + 1].cpus| == |states[k].cpus|
    ensures states[k + 1].nextpid >= states[k].nextpid && Sizes(states[k + 1])
  {
    RunInv(states, events, k);
    assert StepAt(states, events, k);
    StepSizes(states[k], events[k], states[k + 1]);
  }

  lemma {:induction false} RunSizes(states: seq<State>, events: seq<Event>, i: nat, j: nat)
    requires IsRun(states, events) && i <= j < |states| && Sizes(states[i])
    ensures |states[j].procs| == |states[i].procs| && |states[j].cpus| == |states[i].cpus|
    ensures states[j].nextpid >= states[i].nextpid && Sizes(states[j])
    decreases j
  {
    if i < j {
      RunSizes(states, events, i, j - 1);
      SizesAt(states, events, j - 1);
    }
  }

  // ----- bounded bypass

  /** CPU e.cpu dispatches slot i in this step. */
  predicate Dispatches(s: State, e: Event, s': State, i: nat) {
    && e.cpu < |s.cpus| && e.cpu < |s'.cpus| && i < |s.procs| && i < |s'.procs|
    && s.cpus[e.cpu].run == S(e.cpu) && s'.cpus[e.cpu].run == P(i)
    && s.procs[i].state == RUNNABLE && s'.procs[i].state == RUNNING
  }

  /** The scan that has just served slot a has not passed slot b yet. */
  predicate OnTheWay(pc: Pc, a: nat, b: nat) {
    pc.Scheduling? &&
    match pc.sd
    case SLoop => b < a
    case SOpen => b < a
    case SPick(i) => if a < b then a < i <= b else a < i || i <= b
    case SLook(i) => if a < b then a < i <= b else a < i || i <= b
    case SBack(i) => if a < b then a <= i < b else a <= i || i < b
    case SDone(i) => if a < b then a <= i < b else a <= i || i < b
  }

  lemma RunnableWrite(s: State, t: Tid, th: Thread, cur: set<Lock>, w: Write, op: Op, s': State, b: nat)
    requires Writes(s, t, th, cur, w, op, s') && b < |s.procs| && s.procs[b].state == RUNNABLE
    ensures s'.procs[b].state == RUNNABLE || (op == Enter(b) && s'.procs[b].state == RUNNING)
  {
  }

  lemma EnterDispatches(s: State, e: Event, s': State, b: nat)
    requires Inv(s) && StepTo(s, e, s') && Code(s, e.cpu, e.ch).Do? && Code(s, e.cpu, e.ch).op == Enter(b)
    ensures s.cpus[e.cpu].run == S(e.cpu) && e.cpu < |s'.cpus| && s'.cpus[e.cpu].run == P(b)
  {
    GoodStepFromExec(s, e.cpu, e.ch, s');
    assert CpuShape(s, e.cpu) && RunOk(s, e.cpu);
    CodeStatement(s, e.cpu, e.ch);
  }

  /** RUNNABLE slots leave that state only by being dispatched. */
  lemma RunnableLeaves(s: State, e: Event, s': State, b: nat)
    requires Inv(s) && StepTo(s, e, s') && b < |s.procs| == |s'.procs| && s.procs[b].state == RUNNABLE
    ensures s'.procs[b].state == RUNNABLE || Dispatches(s, e, s', b)
  {
    GoodWrites(s, e, s');
    var c, ins, t := e.cpu, Code(s, e.cpu, e.ch), s.cpus[e.cpu].run;
    RunnableWrite(s, t, Th(s, t), HeldBy(s, c), ins.w, ins.op, s', b);
    if ins.op == Enter(b) { EnterDispatches(s, e, s', b); }
  }

  /** One step of the scan: it never moves past a RUNNABLE slot. */
  lemma ScanStep(s: State, pc: Pc, a: nat, b: nat)
    requires PcFits(pc, |s.procs|) && OnTheWay(pc, a, b) && a != b && b < |s.procs| && a < |s.procs|
    requires s.procs[b].state == RUNNABLE
    ensures var ins := SchedCode(s, pc);
      ins.Do? && (OnTheWay(ins.pc, a, b) || (pc == Scheduling(SLook(b)) && ins.op == Enter(b)))
    ensures SchedCode(s, pc).op != Enter(a)
  {
  }

  /** The scan position of CPU c while it runs a process, or another CPU takes the step. */
  lemma ScanWaits(s: State, e: Event, s': State, c: nat, a: nat)
    requires Inv(s) && StepTo(s, e, s') && c < |s.cpus| == |s'.cpus| && Sizes(s')
    requires e.cpu != c || s.cpus[c].run != S(c)
    ensures s'.scheds[c].pc == s.scheds[c].pc && !(e.cpu == c && Dispatches(s, e, s', a))
  {
    GoodStepFromExec(s, e.cpu, e.ch, s');
    assert CpuShape(s, c) && CpuShape(s, e.cpu);
  }

  /** Where the scheduler's program point comes from. */
  lemma ScanCode(s: State, e: Event, s': State, c: nat)
    requires Inv(s) && StepTo(s, e, s') && c < |s.cpus| == |s'.cpus| && Sizes(s') && e.cpu == c && s.cpus[c].run == S(c)
    ensures CpuShape(s, c) && PcFits(s.scheds[c].pc, |s.procs|)
    ensures Code(s, c, e.ch).Do? && s'.scheds[c].pc == Code(s, c, e.ch).pc
    ensures Code(s, c, e.ch) == SchedCode(s, s.scheds[c].pc) ||
      (Code(s, c, e.ch).pc == s.scheds[c].pc && !Code(s, c, e.ch).op.Enter?)
    ensures forall a: nat :: s'.cpus[c].run == P(a) ==> Code(s, c, e.ch).op == Enter(a)
  {
    GoodStepFromExec(s, c, e.ch, s');
    assert CpuShape(s, c) && RunOk(s, c) && SchedKind(s.scheds[c]);
    CodeStatement(s, c, e.ch);
  }

  /** The scan position of CPU c when its scheduler takes the step. */
  lemma ScanMoves(s: State, e: Event, s': State, c: nat, a: nat, b: nat)
    requires Inv(s) && StepTo(s, e, s') && c < |s.cpus| == |s'.cpus| && Sizes(s') && a != b && a < |s.procs| &&
      b < |s.procs| == |s'.procs|
    requires s.procs[b].state == RUNNABLE && OnTheWay(s.scheds[c].pc, a, b) && e.cpu == c && s.cpus[c].run == S(c)
    ensures OnTheWay(s'.scheds[c].pc, a, b) || Dispatches(s, e, s', b)
    ensures !Dispatches(s, e, s', a)
  {
    ScanCode(s, e, s', c);
    ScanStep(s, s.scheds[c].pc, a, b);
    if Code(s, c, e.ch).op == Enter(b) {
      EnterDispatches(s, e, s', b);
      RunnableLeaves(s, e, s', b);
    }
  }

  /** CPU c's own scan position after a step of any CPU. */
  lemma ScanFollows(s: State, e: Event, s': State, c: nat, a: nat, b: nat)
    requires Inv(s) && StepTo(s, e, s') && c < |s.cpus| == |s'.cpus| && Sizes(s') && a != b && a < |s.procs| &&
      b < |s.procs| == |s'.procs|
    requires s.procs[b].state == RUNNABLE && OnTheWay(s.scheds[c].pc, a, b)
    ensures OnTheWay(s'.scheds[c].pc, a, b) || Dispatches(s, e, s', b)
    ensures !(e.cpu == c && Dispatches(s, e, s', a))
  {
    if e.cpu == c && s.cpus[c].run == S(c) { ScanMoves(s, e, s', c, a, b); } else { ScanWaits(s, e, s', c, a); }
  }

  /** Between step t1 and state t, some CPU dispatches slot b. */
  ghost predicate Served(states: seq<State>, events: seq<Event>, b: nat, t1: nat, t: nat)
    requires |states| == |events| + 1 && t <= |events|
  {
    exists k :: t1 < k < t && Dispatches(states[k], events[k], states[k + 1], b)
  }

  lemma ServedLater(states: seq<State>, events: seq<Event>, b: nat, t1: nat, t: nat)
    requires |states| == |events| + 1 && t1 + 1 < t <= |events|
    ensures Served(states, events, b, t1, t - 1) ==> Served(states, events, b, t1, t)
    ensures Dispatches(states[t - 1], events[t - 1], states[t], b) ==> Served(states, events, b, t1, t)
  {
    if Dispatches(states[t - 1], events[t - 1], states[t], b) {
      var k := t - 1;
      assert Dispatches(states[k], events[k], states[k + 1], b);
    }
  }

  /** The scan just after CPU c has dispatched slot a. */
  lemma ScanStarts(states: seq<State>, events: seq<Event>, a: nat, b: nat, t: nat)
    requires IsRun(states, events) && t < |events| && a != b && b < |states[t].procs|
    requires Dispatches(states[t], events[t], states[t + 1], a) && states[t].procs[b].state == RUNNABLE
    ensures var c := events[t].cpu;
      c < |states[t + 1].scheds| && OnTheWay(states[t + 1].scheds[c].pc, a, b)
    ensures b < |states[t + 1].procs| && states[t + 1].procs[b].state == RUNNABLE
  {
    RunInv(states, events, t);
    RunInv(states, events, t + 1);
    SizesAt(states, events, t);
    assert StepAt(states, events, t);
    RunnableLeaves(states[t], events[t], states[t + 1], b);
    assert CpuShape(states[t + 1], events[t].cpu) && RunOk(states[t + 1], events[t].cpu);
  }

  lemma ScanContinues(states: seq<State>, events: seq<Event>, c: nat, a: nat, b: nat, t: nat)
    requires IsRun(states, events) && t < |events| && a != b && a < |states[t].procs| && b < |states[t].procs|
    requires states[t].procs[b].state == RUNNABLE && c < |states[t].cpus|
    requires Sizes(states[t]) && OnTheWay(states[t].scheds[c].pc, a, b)
    ensures Sizes(states[t + 1]) && |states[t + 1].procs| == |states[t].procs| &&
      |states[t + 1].cpus| == |states[t].cpus|
    ensures Dispatches(states[t], events[t], states[t + 1], b) ||
              (OnTheWay(states[t + 1].scheds[c].pc, a, b) && states[t + 1].procs[b].state == RUNNABLE)
    ensures !(events[t].cpu == c && Dispatches(states[t], events[t], states[t + 1], a))
  {
    RunInv(states, events, t);
    SizesAt(states, events, t);
    assert StepAt(states, events, t);
    RunnableLeaves(states[t], events[t], states[t + 1], b);
    ScanFollows(states[t], events[t], states[t + 1], c, a, b);
  }

  /** CPU c's scan has served slot a, and slot b is RUNNABLE and still ahead of it. */
  ghost predicate Ahead(s: State, c: nat, a: nat, b: nat) {
    && Sizes(s) && c < |s.cpus| && a < |s.procs| && b < |s.procs|
    && s.procs[b].state == RUNNABLE && OnTheWay(s.scheds[c].pc, a, b)
  }

  lemma {:induction false} ScanReaches(states: seq<State>, events: seq<Event>, c: nat, a: nat, b: nat, t1: nat, t: nat)
    requires IsRun(states, events) && t1 < t <= |events| && a != b && Ahead(states[t1 + 1], c, a, b)
    ensures Served(states, events, b, t1, t) || Ahead(states[t], c, a, b)
    decreases t
  {
    if t > t1 + 1 {
      ScanReaches(states, events, c, a, b, t1, t - 1);
      ServedLater(states, events, b, t1, t);
      if !Served(states, events, b, t1, t - 1) {
        ScanContinues(states, events, c, a, b, t - 1);
      }
    }
  }

  /**
   Between two dispatches of slot a by the same CPU, every other slot that was RUNNABLE at the
   first of them is dispatched (on one CPU: by that CPU).
  */
  lemma BoundedBypass(states: seq<State>, events: seq<Event>, a: nat, b: nat, t1: nat, t2: nat)
    requires IsRun(states, events) && t1 < t2 < |events| && a != b && b < |states[t1].procs|
    requires Dispatches(states[t1], events[t1], states[t1 + 1], a)
    requires Dispatches(states[t2], events[t2], states[t2 + 1], a)
    requires events[t1].cpu == events[t2].cpu
    requires states[t1].procs[b].state == RUNNABLE
    ensures exists k :: t1 < k < t2 && Dispatches(states[k], events[k], states[k + 1], b)
  {
    var c := events[t1].cpu;
    RunInv(states, events, t1);
    RunSizes(states, events, t1, t1 + 1);
    ScanStarts(states, events, a, b, t1);
    ScanReaches(states, events, c, a, b, t1, t2);
    if !Served(states, events, b, t1, t2) {
      ScanContinues(states, events, c, a, b, t2);
    }
  }
}
