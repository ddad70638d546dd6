/** What a step can lead to in any reachable state: when it panics, what a call begins, how a process lives. */
module ProcOutcomes {
  import opened Prelude
  import opened ProcModel
  import opened ProcInvariants
  import opened ProcStatements
  import opened ProcEffects
  import opened ProcStep
  import opened ProcInduction
  import opened ProcTheorems

  /** CPU c executes the thread of slot p, and no interrupt on top of it. */
  predicate Executes(s: State, c: nat, p: nat) {
    && c < |s.cpus| && p < |s.procs| && p < |s.threads|
    && s.cpus[c].run == P(p) && s.threads[p].trap == NoTrap
  }

  // ----- panics

  /** Init is about to call exit_process. */
  predicate InitExits(s: State, c: nat, ch: Choice) {
    s.initproc.Some? && Executes(s, c, s.initproc.value) && s.threads[s.initproc.value].pc == Body && ch.CallExit?
  }

  /** A thread function returns to forkret. */
  predicate FnEnds(s: State, c: nat, ch: Choice) {
    && c < |s.cpus| && s.cpus[c].run.P? && Executes(s, c, s.cpus[c].run.slot)
    && s.threads[s.cpus[c].run.slot].pc == Body && ch == FnReturns
  }

  /** create_process has come to the end of the table. */
  predicate TableFull(s: State, c: nat, ch: Choice) {
    && c < |s.cpus| && s.cpus[c].run.P? && Executes(s, c, s.cpus[c].run.slot)
    && s.threads[s.cpus[c].run.slot].pc == Creating(CrScan(|s.procs|)) && ch == Go
  }

  lemma ThreadPanics(s: State, p: nat, ch: Choice)
    requires Sizes(s) && p < |s.procs| && PcFits(s.threads[p].pc, |s.procs|)
    requires !(s.threads[p].pc.Exiting? && s.threads[p].pc.ex.ExDead?)
    ensures ThreadCode(s, p, ch) == Panics <==>
      || (s.threads[p].pc == Body && (ch == FnReturns || (ch.CallExit? && s.initproc == Some(p))))
      || (s.threads[p].pc == Creating(CrScan(|s.procs|)) && ch == Go)
  {
  }

  lemma TrapNeverPanics(s: State, t: Tid, th: Thread)
    requires TidFits(t, s) && TrapFits(th.trap, |s.procs|)
    ensures TrapCode(s, t, th) != Panics
  {
  }

  /** A process that has left for good runs nowhere. */
  lemma NotDead(s: State, c: nat, p: nat)
    requires Inv(s) && c < |s.cpus| && p < |s.procs| && s.cpus[c].run == P(p)
    ensures SlotShape(s, p) && ThreadKind(s.threads[p]) && s.threads[p].pc != NoThread
    ensures !(s.threads[p].pc.Exiting? && s.threads[p].pc.ex.ExDead?)
  {
    RunningThread(s, c, p);
    assert TableOk(s, p);
  }

  lemma CodePanics(s: State, c: nat, ch: Choice)
    requires Inv(s) && c < |s.cpus| && CpuShape(s, c)
    ensures Code(s, c, ch) == Panics <==> InitExits(s, c, ch) || FnEnds(s, c, ch) || TableFull(s, c, ch)
  {
    var t := s.cpus[c].run;
    if t.P? {
      NotDead(s, c, t.slot);
      ThreadPanics(s, t.slot, ch);
      TrapNeverPanics(s, t, s.threads[t.slot]);
    } else {
      TrapNeverPanics(s, t, Th(s, t));
    }
  }

  lemma PerformPanics(s: State, c: nat, t: Tid, ins: Instr)
    requires Sizes(s) && c < |s.cpus| && TidFits(t, s) && Addresses(ins, |s.procs|)
    ensures Perform(s, c, t, ins) == Panic <==> ins == Panics
    ensures Perform(s, c, t, ins) == Refused <==> ins == Refuses
  {
    if ins.Do? { ApplyFrame(s, ins.w); }
  }

  /**
   The kernel panics exactly when init calls exit_process, when a thread function returns, and when
   create_process finds no free slot.
  */
  lemma PanicsIff(s: State, c: nat, ch: Choice)
    requires Reachable(s) && Shape(s) && c < |s.cpus|
    ensures Exec(s, c, ch) == Panic <==> InitExits(s, c, ch) || FnEnds(s, c, ch) || TableFull(s, c, ch)
    ensures Exec(s, c, ch) != LockPanic
  {
    ReachableInv(s);
    assert CpuShape(s, c);
    CodePanics(s, c, ch);
    PerformPanics(s, c, s.cpus[c].run, Code(s, c, ch));
    NoLockPanic(s, c, ch);
  }

  // ----- what happens to one thread in one step

  /** In this step CPU e.cpu executes a statement of the thread of slot p. */
  predicate OwnStep(s: State, e: Event, p: nat) {
    Executes(s, e.cpu, p) && e.ch != Interrupt
  }

  /** In this step slot p becomes a process, or is reaped. */
  predicate Comes(s: State, s': State, p: nat) {
    p < |s.procs| == |s'.procs| && s.procs[p].state == UNUSED && s'.procs[p].state == USED
  }

  predicate Goes(s: State, s': State, p: nat) {
    p < |s.procs| == |s'.procs| && s.procs[p].state == ZOMBIE && s'.procs[p].state == UNUSED
  }

  lemma OwnMoves(s: State, e: Event, s': State, p: nat)
    requires Inv(s) && StepTo(s, e, s') && OwnStep(s, e, p)
    ensures SlotShape(s, p) && ThreadCode(s, p, e.ch).Do? && ThreadCode(s, p, e.ch) == Code(s, e.cpu, e.ch)
    ensures p < |s'.threads| == |s'.procs| == |s.procs|
    ensures s'.threads[p].pc == ThreadCode(s, p, e.ch).pc && s'.threads[p].trap == NoTrap
    ensures TableFollows(s, s', ThreadCode(s, p, e.ch).w)
  {
    GoodStepFromExec(s, e.cpu, e.ch, s');
    NotDead(s, e.cpu, p);
    CodeCases(s, e.cpu, e.ch, p);
    NoTrapCode(s, p, e.ch);
  }

  lemma NoTrapCode(s: State, p: nat, ch: Choice)
    requires Sizes(s) && p < |s.procs| && PcFits(s.threads[p].pc, |s.procs|)
    ensures ThreadCode(s, p, ch).Do? ==> ThreadCode(s, p, ch).trap == NoTrap
  {
  }

  /** Its slot changes hands in this step. */
  predicate HandedOver(s: State, s': State, p: nat)
    requires p < |s.threads| && p < |s'.threads|
  {
    || (Comes(s, s', p) && s.threads[p].pc == NoThread && s'.threads[p].pc == Entry)
    || (Goes(s, s', p) && s.threads[p].pc.Exiting? && s'.threads[p].pc == NoThread)
  }

  /** An interrupt and its handler leave the interrupted thread where it is. */
  lemma InterruptedStays(s: State, e: Event, s': State, p: nat)
    requires Inv(s) && StepTo(s, e, s') && p < |s.procs| && !OwnStep(s, e, p) && s.cpus[e.cpu].run == P(p)
    ensures p < |s'.threads| && s'.threads[p].pc == s.threads[p].pc
  {
    GoodStepFromExec(s, e.cpu, e.ch, s');
    NotDead(s, e.cpu, p);
    CodeCases(s, e.cpu, e.ch, p);
    if e.ch != Interrupt { TrapStays(s, p); }
  }

  lemma ForeignStays(s: State, e: Event, s': State, p: nat)
    requires Inv(s) && StepTo(s, e, s') && p < |s.procs| && s.cpus[e.cpu].run != P(p)
    ensures p < |s'.threads| && (s'.threads[p].pc == s.threads[p].pc || HandedOver(s, s', p))
  {
    GoodStepFromExec(s, e.cpu, e.ch, s');
    var ins := Code(s, e.cpu, e.ch);
    if (ins.w.Alloc? || ins.w.Free?) && ins.w.i == p {
      GoodWrites(s, e, s');
      assert TableOk(s, p);
      SlotChangesHands(s, e.cpu, ins, s', p);
    } else {
      ApplyFrame(s, ins.w);
    }
  }

  /** A thread that does not take the step itself stays where it is, unless its slot changes hands. */
  lemma OthersStay(s: State, e: Event, s': State, p: nat)
    requires Inv(s) && StepTo(s, e, s') && p < |s.procs| && !OwnStep(s, e, p)
    ensures p < |s.threads| && p < |s'.threads| && (s'.threads[p].pc == s.threads[p].pc || HandedOver(s, s', p))
  {
    if s.cpus[e.cpu].run == P(p) { InterruptedStays(s, e, s', p); } else { ForeignStays(s, e, s', p); }
  }

  lemma TrapStays(s: State, p: nat)
    requires Sizes(s) && p < |s.procs| && TrapFits(s.threads[p].trap, |s.procs|)
    ensures TrapCode(s, P(p), s.threads[p]).Do? ==> TrapCode(s, P(p), s.threads[p]).pc == s.threads[p].pc
  {
  }

  lemma SlotChangesHands(s: State, c: nat, ins: Instr, s': State, p: nat)
    requires Sizes(s) && c < |s.cpus| && CpuShape(s, c) && ins.Do? && Addresses(ins, |s.procs|) && Effect(s, c, ins, s')
    requires WriteOk(s, s.cpus[c].run, Th(s, s.cpus[c].run), HeldBy(s, c), ins.w, ins.op)
    requires p < |s.procs| && (ins.w.Alloc? || ins.w.Free?) && ins.w.i == p && s.cpus[c].run != P(p) && TableOk(s, p)
    ensures p < |s'.threads| && HandedOver(s, s', p)
  {
  }

  // ----- the life of a process

  /** What a process is doing, as far as its callers can tell. */
  datatype Mode = Absent | Fresh | InThread | InYield | InCreate | InExit(status: int) | InWait

  function ModeOf(pc: Pc): (m: Mode) {
    match pc
    case Entry => Fresh
    case Body => InThread
    case Yielding => InYield
    case Yielded => InYield
    case Creating(_) => InCreate
    case Exiting(status, _) => InExit(status)
    case Waiting(_) => InWait
    case _ => Absent
  }

  /** Where a choice of the thread function leads. */
  function Begins(ch: Choice): (m: Mode) {
    match ch
    case CallYield => InYield
    case CallCreate => InCreate
    case CallExit(status) => InExit(status)
    case CallWait => InWait
    case _ => InThread
  }

  predicate IsCall(ch: Choice) {
    ch != Go && ch != Interrupt && ch != FnReturns
  }

  /** What a step of its own may do to a process: a call begins, goes on or returns; exit_process never does. */
  predicate LivesOn(m: Mode, ch: Choice, m': Mode) {
    match m
    case Absent => false
    case Fresh => ch == Go && m' == InThread
    case InThread => IsCall(ch) && m' == Begins(ch)
    case InExit(_) => ch == Go && m' == m
    case _ => ch == Go && (m' == m || m' == InThread)
  }

  lemma CodeLives(s: State, p: nat, ch: Choice)
    requires Sizes(s) && p < |s.procs| && PcFits(s.threads[p].pc, |s.procs|) && ThreadCode(s, p, ch).Do?
    requires !s.threads[p].pc.Scheduling?
    ensures LivesOn(ModeOf(s.threads[p].pc), ch, ModeOf(ThreadCode(s, p, ch).pc))
  {
  }

  /**
   In every step a process goes on with its life as its thread function has chosen, or stays where
   it is; only the slot's creation and its reaping by wait_process are not its own doing.
  */
  lemma LifeCycle(s: State, e: Event, s': State, p: nat)
    requires Reachable(s) && StepTo(s, e, s') && p < |s.procs|
    ensures p < |s.threads| && p < |s'.threads|
    ensures var m, m' := ModeOf(s.threads[p].pc), ModeOf(s'.threads[p].pc);
      if OwnStep(s, e, p) then LivesOn(m, e.ch, m')
      else m' == m || (m == Absent && m' == Fresh && Comes(s, s', p)) || (m.InExit? && m' == Absent && Goes(s, s', p))
  {
    ReachableInv(s);
    if OwnStep(s, e, p) {
      OwnMoves(s, e, s', p);
      NotDead(s, e.cpu, p);
      CodeLives(s, p, e.ch);
    } else {
      OthersStay(s, e, s', p);
    }
  }

  // ----- what a call begins

  /** The lock a call starts by acquiring. */
  function CallLock(ch: Choice, p: nat): (l: Option<Lock>) {
    match ch
    case CallYield => Some(SlotLock(p))
    case CallExit(_) => Some(WaitLock)
    case CallWait => Some(WaitLock)
    case _ => None
  }

  predicate LockTaken(s: State, l: Option<Lock>) {
    l.Some? && l.value in s.held
  }

  /** The call has been accepted: the process is in it, on the same CPU, and the table is as before. */
  predicate Accepted(s: State, c: nat, p: nat, ch: Choice, s': State) {
    && p < |s'.threads| && c < |s'.cpus| && c < |s.cpus| && s'.procs == s.procs && s'.cpus[c].run == P(p)
    && ModeOf(s'.threads[p].pc) == Begins(ch)
    && (ch == CallIntrOn ==> s'.cpus[c].intr.sie)
    && (ch == CallIntrOff ==> !s'.cpus[c].intr.sie)
  }

  lemma CallPerforms(s: State, c: nat, p: nat, ch: Choice)
    requires Sizes(s) && Executes(s, c, p) && s.threads[p].pc == Body && IsCall(ch)
    requires CallCode(s, p, ch).Do?
    ensures Addresses(CallCode(s, p, ch), |s.procs|)
    ensures var r := Perform(s, c, P(p), CallCode(s, p, ch));
      r != LockPanic ==>
        if LockTaken(s, CallLock(ch, p)) then r == Spin else r.Ok? && Accepted(s, c, p, ch, r.s)
  {
  }

  /**
   Every call of a thread function is accepted at once, unless another CPU holds the lock it
   begins with, or init calls exit_process.
  */
  lemma CallOutcome(s: State, c: nat, p: nat, ch: Choice)
    requires Reachable(s) && Shape(s) && Executes(s, c, p) && s.threads[p].pc == Body && IsCall(ch)
    ensures var r := Exec(s, c, ch);
      if ch.CallExit? && s.initproc == Some(p) then r == Panic
      else if LockTaken(s, CallLock(ch, p)) then r == Spin
      else r.Ok? && Accepted(s, c, p, ch, r.s)
  {
    PanicsIff(s, c, ch);
    assert CpuShape(s, c) && SlotShape(s, p);
    if !(ch.CallExit? && s.initproc == Some(p)) { CallPerforms(s, c, p, ch); }
  }

  // ----- a CPU always has something to do

  lemma ThreadGoes(s: State, p: nat)
    requires Sizes(s) && p < |s.procs| && PcFits(s.threads[p].pc, |s.procs|)
    requires !s.threads[p].pc.Scheduling? && s.threads[p].pc != NoThread && s.threads[p].pc != Body
    ensures ThreadCode(s, p, Go) != Refuses
  {
  }

  lemma CodeGoes(s: State, c: nat)
    requires Inv(s) && c < |s.cpus| && CpuShape(s, c)
    requires !(s.cpus[c].run.P? && Executes(s, c, s.cpus[c].run.slot) && s.threads[s.cpus[c].run.slot].pc == Body)
    ensures Code(s, c, Go) != Refuses
  {
    assert RunOk(s, c) && SchedKind(s.scheds[c]);
    if s.cpus[c].run.P? {
      NotDead(s, c, s.cpus[c].run.slot);
      if Executes(s, c, s.cpus[c].run.slot) { ThreadGoes(s, s.cpus[c].run.slot); }
    }
  }

  /** Outside the thread functions a CPU goes on or spins on a lock, unless create_process has found no free slot. */
  lemma GoesOn(s: State, c: nat)
    requires Reachable(s) && Shape(s) && c < |s.cpus|
    requires !(s.cpus[c].run.P? && Executes(s, c, s.cpus[c].run.slot) && s.threads[s.cpus[c].run.slot].pc == Body)
    ensures Exec(s, c, Go).Ok? || Exec(s, c, Go) == Spin || TableFull(s, c, Go)
  {
    ReachableInv(s);
    assert CpuShape(s, c);
    CodeGoes(s, c);
    PerformPanics(s, c, s.cpus[c].run, Code(s, c, Go));
    PanicsIff(s, c, Go);
  }

  // ----- timer interrupts

  /** A timer interrupt is taken exactly if interrupts are on and none is being handled; it turns them off. */
  lemma InterruptTaken(s: State, c: nat)
    requires Reachable(s) && Shape(s) && c < |s.cpus|
    ensures CpuShape(s, c)
    ensures var t, r := s.cpus[c].run, Exec(s, c, Interrupt);
      if s.cpus[c].intr.sie && Th(s, t).trap == NoTrap
      then r.Ok? && c < |r.s.cpus| && !r.s.cpus[c].intr.sie && r.s.cpus[c].run == t
      else r == Refused
  {
    assert CpuShape(s, c);
    ApplyFrame(s, Nothing);
  }
}
