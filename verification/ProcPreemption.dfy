/**
 Whether interrupts are on belongs to the thread that runs, whatever other threads and the
 scheduler do to cpu->intena; and before some thread function calls intr_on, no process is
 ever interrupted.
*/
module ProcPreemption {
  import opened ProcModel
  import opened ProcInvariants
  import opened ProcEffects
  import opened ProcPreservation
  import opened ProcStep
  import opened ProcHistory
  import opened ProcFlags
  import opened ProcInduction
  import opened ProcTheorems
  import opened ProcRuns

  // ----- the interrupt flag of a thread

  predicate Started(th: Thread) {
    th.pc != Entry && th.pc != NoThread
  }

  /** In this step the thread function of slot p calls intr_on or intr_off. */
  predicate SetsFlag(s: State, e: Event, p: nat) {
    e.cpu < |s.cpus| && s.cpus[e.cpu].run == P(p) && (e.ch == CallIntrOn || e.ch == CallIntrOff)
  }

  /** CPU c executes the thread function of slot p, outside the kernel's own code. */
  predicate InBody(s: State, c: nat, p: nat) {
    && c < |s.cpus| && p < |s.procs| && p < |s.threads|
    && s.cpus[c].run == P(p) && s.threads[p].pc == Body && s.threads[p].trap == NoTrap
  }

  /** A pid in use never comes back to a slot it has left. */
  lemma PidStays(s: State, t: Tid, th: Thread, cur: set<Lock>, w: Write, op: Op, s': State, p: nat)
    requires Writes(s, t, th, cur, w, op, s') && p < |s.procs| && 0 < s'.procs[p].pid < s.nextpid
    ensures s.procs[p].pid == s'.procs[p].pid && !((w.Alloc? || w.Free?) && w.i == p)
  {
  }

  /** The acting thread keeps its flag unless it is just starting or sets it. */
  lemma OwnFlagStays(s: State, c: nat, ins: Instr, s': State, p: nat)
    requires Sizes(s) && Sizes(s') && c < |s.cpus| == |s'.cpus| && p < |s.procs| == |s'.procs| && s.cpus[c].run == P(p)
    requires ins.Do? && Addresses(ins, |s.procs|) && ThreadsFollow(s, s', c, ins)
    requires FlagFollows(s.threads[p], ins) && ins.pc != NoThread && Started(s.threads[p])
    ensures Started(s'.threads[p]) && (!ins.op.Toggle? ==> s'.threads[p].flag == s.threads[p].flag)
  {
  }

  /** Only intr_on and intr_off called from a thread function are Toggle statements. */
  lemma TogglesByChoice(s: State, c: nat, ch: Choice, p: nat)
    requires Shape(s) && c < |s.cpus| && p < |s.procs| && s.cpus[c].run == P(p) && SlotShape(s, p)
    ensures Code(s, c, ch).Do? && Code(s, c, ch).op.Toggle? ==> ch == CallIntrOn || ch == CallIntrOff
  {
  }

  lemma OwnFlagStep(s: State, e: Event, s': State, p: nat)
    requires Inv(s) && StepTo(s, e, s') && p < |s.procs| == |s'.procs| && Sizes(s')
    requires s.cpus[e.cpu].run == P(p) && Started(s.threads[p])
    ensures Started(s'.threads[p])
    ensures !SetsFlag(s, e, p) ==> s'.threads[p].flag == s.threads[p].flag
  {
    var c, ins := e.cpu, Code(s, e.cpu, e.ch);
    GoodStepFromExec(s, c, e.ch, s');
    assert SlotShape(s, p) && OnOk(s, p) && CpuLocks(s, c) && RunOk(s, c);
    CodeFlag(s, c, e.ch, p);
    NextIsThread(s, c, e.ch, p);
    TogglesByChoice(s, c, e.ch, p);
    OwnFlagStays(s, c, ins, s', p);
  }

  lemma PidStep(s: State, e: Event, s': State, p: nat)
    requires Inv(s) && StepTo(s, e, s') && p < |s.procs| == |s'.procs| && 0 < s'.procs[p].pid < s.nextpid
    ensures s.procs[p].pid == s'.procs[p].pid
    ensures Code(s, e.cpu, e.ch).Do? && var w := Code(s, e.cpu, e.ch).w; !((w.Alloc? || w.Free?) && w.i == p)
  {
    GoodWrites(s, e, s');
    var ins, t := Code(s, e.cpu, e.ch), s.cpus[e.cpu].run;
    PidStays(s, t, Th(s, t), HeldBy(s, e.cpu), ins.w, ins.op, s', p);
  }

  lemma OtherFlagStep(s: State, e: Event, s': State, p: nat)
    requires Inv(s) && StepTo(s, e, s') && p < |s.procs| == |s'.procs| && Sizes(s') && s.cpus[e.cpu].run != P(p)
    requires Code(s, e.cpu, e.ch).Do?
    requires var w := Code(s, e.cpu, e.ch).w; !((w.Alloc? || w.Free?) && w.i == p)
    ensures s'.threads[p].pc == s.threads[p].pc && s'.threads[p].flag == s.threads[p].flag
  {
    GoodStepFromExec(s, e.cpu, e.ch, s');
    ApplyFrame(s, Code(s, e.cpu, e.ch).w);
  }

  lemma FlagStep(s: State, e: Event, s': State, p: nat)
    requires Inv(s) && StepTo(s, e, s') && p < |s.procs| == |s'.procs| && Sizes(s')
    requires 0 < s'.procs[p].pid < s.nextpid
    ensures s.procs[p].pid == s'.procs[p].pid
    ensures Started(s.threads[p]) ==> Started(s'.threads[p])
    ensures Started(s.threads[p]) && !SetsFlag(s, e, p) ==> s'.threads[p].flag == s.threads[p].flag
  {
    PidStep(s, e, s', p);
    if s.cpus[e.cpu].run != P(p) {
      OtherFlagStep(s, e, s', p);
    } else if Started(s.threads[p]) {
      OwnFlagStep(s, e, s', p);
    }
  }

  lemma NextIsThread(s: State, c: nat, ch: Choice, p: nat)
    requires Base(s) && c < |s.cpus| && CpuShape(s, c) && p < |s.procs| && s.cpus[c].run == P(p) && Code(s, c, ch).Do?
    ensures Code(s, c, ch).pc != NoThread
  {
    CodeStatement(s, c, ch);
  }

  lemma FlagStepAt(states: seq<State>, events: seq<Event>, k: nat, p: nat)
    requires IsRun(states, events) && k < |events| && Sizes(states[k]) && Sizes(states[k + 1])
    requires p < |states[k].procs| == |states[k + 1].procs| && 0 < states[k + 1].procs[p].pid < states[k].nextpid
    ensures states[k].procs[p].pid == states[k + 1].procs[p].pid
    ensures Started(states[k].threads[p]) ==> Started(states[k + 1].threads[p])
    ensures Started(states[k].threads[p]) && !SetsFlag(states[k], events[k], p) ==>
              states[k + 1].threads[p].flag == states[k].threads[p].flag
  {
    RunInv(states, events, k);
    assert StepAt(states, events, k);
    FlagStep(states[k], events[k], states[k + 1], p);
  }

  /** From state i to state j the thread function of slot p does not touch its interrupt flag. */
  ghost predicate LeavesFlag(states: seq<State>, events: seq<Event>, p: nat, i: nat, j: nat)
    requires |states| == |events| + 1 && j < |states|
  {
    forall k :: i <= k < j ==> !SetsFlag(states[k], events[k], p)
  }

  lemma {:induction false} FlagIsStable(states: seq<State>, events: seq<Event>, p: nat, i: nat, j: nat)
    requires IsRun(states, events) && i <= j < |states| && p < |states[i].procs| && LeavesFlag(states, events, p, i, j)
    requires Sizes(states[i]) && Started(states[i].threads[p]) && 0 < states[i].procs[p].pid < states[i].nextpid
    requires p < |states[j].procs| && states[j].procs[p].pid == states[i].procs[p].pid
    ensures Sizes(states[j]) && Started(states[j].threads[p])
    ensures states[j].threads[p].flag == states[i].threads[p].flag
    decreases j
  {
    if i < j {
      RunSizes(states, events, i, j - 1);
      SizesAt(states, events, j - 1);
      FlagStepAt(states, events, j - 1, p);
      FlagIsStable(states, events, p, i, j - 1);
    }
  }

  lemma PidInUse(s: State, p: nat)
    requires Inv(s) && p < |s.procs| && Started(s.threads[p])
    ensures 0 < s.procs[p].pid < s.nextpid
  {
    assert PidOk(s, p) && TableOk(s, p);
  }

  lemma FlagAtBody(s: State, c: nat, p: nat)
    requires Inv(s) && InBody(s, c, p)
    ensures s.cpus[c].intr.sie == s.threads[p].flag
  {
    assert CpuShape(s, c) && RunOk(s, c) && OnOk(s, p) && FlagOk(s, p);
  }

  /**
   Whenever a thread function executes, on whatever CPU, interrupts are on or off as they were
   whenever it did so before, unless it has called intr_on or intr_off itself in between.
  */
  lemma InterruptFlagBelongsToThread(states: seq<State>, events: seq<Event>, p: nat, i: nat, c: nat, j: nat, d: nat)
    requires IsRun(states, events) && i <= j < |states|
    requires InBody(states[i], c, p) && InBody(states[j], d, p) && states[i].procs[p].pid == states[j].procs[p].pid
    requires LeavesFlag(states, events, p, i, j)
    ensures states[i].cpus[c].intr.sie == states[j].cpus[d].intr.sie
  {
    RunInv(states, events, i);
    RunInv(states, events, j);
    PidInUse(states[i], p);
    FlagIsStable(states, events, p, i, j);
    FlagAtBody(states[i], c, p);
    FlagAtBody(states[j], d, p);
  }

  /** Only a thread function that executes takes such a step. */
  lemma SetsFlagInBody(s: State, e: Event, s': State, p: nat)
    requires Inv(s) && StepTo(s, e, s') && SetsFlag(s, e, p)
    ensures InBody(s, e.cpu, p)
  {
    assert CpuShape(s, e.cpu) && SlotShape(s, p);
  }

  /**
   yield, wait_process, create_process and a timer interrupt return, on whatever CPU, with the
   interrupt flag they were called with, whatever that flag is and whoever ran in between.
  */
  lemma CallsKeepFlag(states: seq<State>, events: seq<Event>, p: nat, i: nat, j: nat, d: nat)
    requires IsRun(states, events) && i < j < |states|
    requires InBody(states[i], events[i].cpu, p) && events[i].ch in {CallYield, CallWait, CallCreate, Interrupt}
    requires forall k, c :: i < k < j ==> !InBody(states[k], c, p)
    requires InBody(states[j], d, p) && states[j].procs[p].pid == states[i].procs[p].pid
    ensures states[j].cpus[d].intr.sie == states[i].cpus[events[i].cpu].intr.sie
  {
    forall k | i <= k < j ensures !SetsFlag(states[k], events[k], p) {
      if SetsFlag(states[k], events[k], p) {
        RunInv(states, events, k);
        assert StepAt(states, events, k);
        SetsFlagInBody(states[k], events[k], states[k + 1], p);
      }
    }
    InterruptFlagBelongsToThread(states, events, p, i, events[i].cpu, j, d);
  }

  // ----- no preemption before some thread function calls intr_on

  predicate QuietThread(th: Thread) {
    th.trap == NoTrap && !th.flag && !th.intena
  }

  predicate QuietCpu(s: State, c: nat)
    requires Sizes(s) && c < |s.cpus|
  {
    var i, sc := s.cpus[c].intr, s.scheds[c];
    && (i.noff > 0 ==> !i.intena)
    && (s.cpus[c].run.P? ==> !i.sie && !i.intena)
    && (s.cpus[c].run.S? && !(sc.trap == NoTrap && AtOpen(sc.pc)) ==> !i.sie)
    && (sc.trap != NoTrap ==> AtOpen(sc.pc))
  }

  /** Where the scheduler lets interrupts in. */
  predicate AtOpen(pc: Pc) {
    pc.Scheduling? && (pc.sd.SLoop? || pc.sd.SOpen?)
  }

  ghost predicate Quiet(s: State)
    requires Sizes(s)
  {
    && (forall p :: 0 <= p < |s.procs| ==> QuietThread(s.threads[p]))
    && (forall c :: 0 <= c < |s.cpus| ==> QuietCpu(s, c))
  }

  /** What a thread function that leaves interrupts alone does to them. */
  lemma QuietCode(s: State, c: nat, ch: Choice, p: nat)
    requires Shape(s) && c < |s.cpus| && p < |s.procs| && s.cpus[c].run == P(p) && SlotShape(s, p)
    requires QuietThread(s.threads[p]) && !s.cpus[c].intr.sie && ch != CallIntrOn && Code(s, c, ch).Do?
    requires ThreadKind(s.threads[p])
    ensures Code(s, c, ch).trap == NoTrap && !Code(s, c, ch).op.SetSie? && Code(s, c, ch).op != Toggle(true)
  {
    ThreadFlag(s, p, ch);
  }

  lemma QuietThreadStep(s: State, c: nat, ch: Choice, ins: Instr, s': State, p: nat)
    requires GoodStep(s, c, ins, s') && Sizes(s') && p < |s.procs| && s.cpus[c].run == P(p) && SlotShape(s, p)
    requires ins == Code(s, c, ch) && ch != CallIntrOn && ThreadKind(s.threads[p])
    requires QuietThread(s.threads[p]) && QuietCpu(s, c) && CpuLocks(s', c)
    requires s.scheds[c].pc == Scheduling(SBack(p)) && s.scheds[c].trap == NoTrap && !ins.op.Enter?
    ensures QuietThread(s'.threads[p]) && QuietCpu(s', c)
  {
    QuietCode(s, c, ch, p);
  }

  lemma QuietSchedStep(s: State, c: nat, ch: Choice, ins: Instr, s': State)
    requires GoodStep(s, c, ins, s') && Sizes(s') && s.cpus[c].run == S(c) && ins == Code(s, c, ch)
    requires QuietCpu(s, c) && CpuLocks(s, c) && CpuLocks(s', c) && SchedKind(s.scheds[c])
    ensures QuietCpu(s', c)
  {
  }

  /** A thread that CPU c does not run. */
  lemma QuietOther(s: State, c: nat, ins: Instr, s': State, p: nat)
    requires GoodStep(s, c, ins, s') && Sizes(s') && p < |s.procs| && s.cpus[c].run != P(p)
    requires QuietThread(s.threads[p])
    ensures QuietThread(s'.threads[p])
  {
  }

  /** The thread that runs on the acting CPU, and that CPU. */
  lemma QuietActing(s: State, e: Event, s': State)
    requires Inv(s) && Inv(s') && Quiet(s) && StepTo(s, e, s') && e.ch != CallIntrOn && CpuShape(s, e.cpu)
    ensures e.cpu < |s'.cpus| && QuietCpu(s', e.cpu)
    ensures var t := s.cpus[e.cpu].run;
      t.P? ==> t.slot < |s'.procs| && QuietThread(s'.threads[t.slot])
  {
    var c, ins := e.cpu, Code(s, e.cpu, e.ch);
    GoodStepFromExec(s, c, e.ch, s');
    assert CpuShape(s', c) && CpuLocks(s, c) && CpuLocks(s', c) && RunOk(s, c) && QuietCpu(s, c);
    match s.cpus[c].run
    case P(p) =>
      CodeStatement(s, c, e.ch);
      assert QuietThread(s.threads[p]) && SlotShape(s, p) && ThreadKind(s.threads[p]);
      QuietThreadStep(s, c, e.ch, ins, s', p);
    case S(_) => QuietSchedStep(s, c, e.ch, ins, s');
  }

  lemma KeepsQuiet(s: State, e: Event, s': State)
    requires Inv(s) && Quiet(s) && StepTo(s, e, s') && e.ch != CallIntrOn
    ensures Sizes(s') && Quiet(s')
  {
    GoodStepFromExec(s, e.cpu, e.ch, s');
    KeepsInv(s, e.cpu, e.ch, s');
    QuietActing(s, e, s');
    forall p | 0 <= p < |s'.procs| ensures QuietThread(s'.threads[p]) {
      assert QuietThread(s.threads[p]);
      if s.cpus[e.cpu].run != P(p) { QuietOther(s, e.cpu, Code(s, e.cpu, e.ch), s', p); }
    }
    forall d | 0 <= d < |s'.cpus| && d != e.cpu ensures QuietCpu(s', d) { assert QuietCpu(s, d); }
  }

  lemma BootQuiet(s: State)
    requires Boot(s)
    ensures Quiet(s)
  {
  }

  /** Up to state j no thread function has called intr_on. */
  predicate NoIntrOn(events: seq<Event>, j: nat)
    requires j <= |events|
  {
    forall k :: 0 <= k < j ==> events[k].ch != CallIntrOn
  }

  lemma {:induction false} QuietRun(states: seq<State>, events: seq<Event>, j: nat)
    requires IsRun(states, events) && j < |states| && NoIntrOn(events, j)
    ensures Sizes(states[j]) && Quiet(states[j])
    decreases j
  {
    if j == 0 {
      BootQuiet(states[0]);
    } else {
      QuietRun(states, events, j - 1);
      RunInv(states, events, j - 1);
      assert StepAt(states, events, j - 1);
      KeepsQuiet(states[j - 1], events[j - 1], states[j]);
    }
  }

  /**
   This kernel does not preempt: until some thread function calls intr_on, interrupts are off
   whenever a process runs, and no process is in a timer interrupt or was switched out by one.
  */
  lemma NeverPreempted(states: seq<State>, events: seq<Event>, j: nat)
    requires IsRun(states, events) && j < |states| && NoIntrOn(events, j)
    ensures forall c :: 0 <= c < |states[j].cpus| && states[j].cpus[c].run.P? ==> !states[j].cpus[c].intr.sie
    ensures forall p :: 0 <= p < |states[j].threads| ==> states[j].threads[p].trap == NoTrap
  {
    QuietRun(states, events, j);
    var s := states[j];
    forall c | 0 <= c < |s.cpus| && s.cpus[c].run.P? ensures !s.cpus[c].intr.sie { assert QuietCpu(s, c); }
    forall p | 0 <= p < |s.threads| ensures s.threads[p].trap == NoTrap { assert QuietThread(s.threads[p]); }
  }

  // ----- where the scheduler takes ticks

  /** Between intr_on and intr_off the scheduler of CPU c has interrupts on, unless it is handling one. */
  predicate Listens(s: State, c: nat) {
    AtOpenPoint(s, c) ==> s.cpus[c].intr.sie
  }

  predicate AtOpenPoint(s: State, c: nat) {
    && c < |s.cpus| && c < |s.scheds| && s.cpus[c].run == S(c)
    && s.scheds[c].trap == NoTrap && s.scheds[c].pc == Scheduling(SOpen)
  }

  lemma ListenCode(s: State, c: nat, ch: Choice)
    requires Shape(s) && c < |s.cpus| && CpuShape(s, c) && s.cpus[c].run == S(c) && SchedKind(s.scheds[c])
    requires Code(s, c, ch).Do?
    ensures var ins := Code(s, c, ch);
      ins.pc == Scheduling(SOpen) && ins.trap == NoTrap ==> ins.op == SetSie(true)
  {
  }

  lemma KeepsListening(s: State, e: Event, s': State, c: nat)
    requires Inv(s) && StepTo(s, e, s') && c < |s.cpus| && Listens(s, c)
    ensures Listens(s', c)
  {
    GoodStepFromExec(s, e.cpu, e.ch, s');
    assert CpuShape(s, c) && RunOk(s, c) && SchedKind(s.scheds[c]);
    if e.cpu == c && s.cpus[c].run == S(c) { ListenCode(s, c, e.ch); }
  }

  lemma ListenStep(states: seq<State>, events: seq<Event>, k: nat, c: nat)
    requires IsRun(states, events) && k < |events| && c < |states[k + 1].cpus|
    ensures c < |states[k].cpus| && (Listens(states[k], c) ==> Listens(states[k + 1], c))
  {
    RunInv(states, events, k);
    SizesAt(states, events, k);
    assert StepAt(states, events, k);
    if Listens(states[k], c) { KeepsListening(states[k], events[k], states[k + 1], c); }
  }

  /** In every pass over the table the scheduler comes to a point at which it takes a tick. */
  lemma {:induction false} SchedulerListens(states: seq<State>, events: seq<Event>, j: nat, c: nat)
    requires IsRun(states, events) && j < |states| && c < |states[j].cpus|
    ensures Listens(states[j], c)
    decreases j
  {
    if j > 0 {
      ListenStep(states, events, j - 1, c);
      SchedulerListens(states, events, j - 1, c);
    }
  }
}
