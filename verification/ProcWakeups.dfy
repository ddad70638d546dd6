/** Over whole runs: only a process inside sleep has a channel, and nobody is woken without a reason. */
module ProcWakeups {
  import opened ProcModel
  import opened ProcInvariants
  import opened ProcStatements
  import opened ProcStep
  import opened ProcHistory
  import opened ProcInduction
  import opened ProcTheorems
  import opened ProcOutcomes
  import opened ProcCalls

  /** p->chan is null, or the slot itself while its thread is inside sleep. */
  predicate ChanOk(s: State, p: nat)
    requires p < |s.procs| && p < |s.threads|
  {
    s.procs[p].chan == if s.threads[p].pc == Waiting(WtSlept) then OnProc(p) else NoChan
  }

  /** What a statement of the thread of slot p does to its own channel. */
  lemma ChanStatements(s: State, p: nat, ch: Choice)
    requires Sizes(s) && p < |s.procs| && PcFits(s.threads[p].pc, |s.procs|) && ThreadCode(s, p, ch).Do?
    requires ChanOk(s, p)
    requires WriteOk(s, P(p), s.threads[p], Held(s.threads[p], P(p)), ThreadCode(s, p, ch).w, ThreadCode(s, p, ch).op)
    ensures Apply(s, ThreadCode(s, p, ch).w).procs[p].chan ==
            if ThreadCode(s, p, ch).pc == Waiting(WtSlept) then OnProc(p) else NoChan
  {
  }

  lemma ChanWrite(s: State, t: Tid, th: Thread, cur: set<Lock>, w: Write, op: Op, s': State, p: nat)
    requires Writes(s, t, th, cur, w, op, s') && p < |s.procs| && t != P(p)
    ensures s'.procs[p].chan == s.procs[p].chan || (w.Free? && w.i == p && s'.procs[p].chan == NoChan)
  {
  }

  lemma TrapChan(s: State, p: nat)
    requires Sizes(s) && p < |s.procs| && TrapFits(s.threads[p].trap, |s.procs|)
    requires TrapCode(s, P(p), s.threads[p]).Do?
    ensures Apply(s, TrapCode(s, P(p), s.threads[p]).w).procs[p].chan == s.procs[p].chan
  {
  }

  lemma OwnChan(s: State, e: Event, s': State, p: nat)
    requires Inv(s) && StepTo(s, e, s') && OwnStep(s, e, p) && ChanOk(s, p)
    ensures p < |s'.procs| && p < |s'.threads| && ChanOk(s', p)
  {
    OwnMoves(s, e, s', p);
    GoodWrites(s, e, s');
    ChanStatements(s, p, e.ch);
  }

  lemma InterruptedChan(s: State, e: Event, s': State, p: nat)
    requires Inv(s) && StepTo(s, e, s') && p < |s.procs| && p < |s.threads| && !OwnStep(s, e, p)
    requires s.cpus[e.cpu].run == P(p) && ChanOk(s, p)
    ensures p < |s'.procs| && p < |s'.threads| && ChanOk(s', p)
  {
    InterruptedStays(s, e, s', p);
    GoodWrites(s, e, s');
    NotDead(s, e.cpu, p);
    CodeCases(s, e.cpu, e.ch, p);
    if e.ch != Interrupt { TrapChan(s, p); }
  }

  lemma ForeignChan(s: State, e: Event, s': State, p: nat)
    requires Inv(s) && StepTo(s, e, s') && p < |s.procs| && p < |s.threads| && s.cpus[e.cpu].run != P(p) && ChanOk(s, p)
    ensures p < |s'.procs| && p < |s'.threads| && ChanOk(s', p)
  {
    ForeignStays(s, e, s', p);
    GoodWrites(s, e, s');
    var ins, t := Code(s, e.cpu, e.ch), s.cpus[e.cpu].run;
    ChanWrite(s, t, Th(s, t), HeldBy(s, e.cpu), ins.w, ins.op, s', p);
    FreedThread(s, e, s', p);
  }

  /** A slot that is freed has no thread any more. */
  lemma FreedThread(s: State, e: Event, s': State, p: nat)
    requires Inv(s) && StepTo(s, e, s') && p < |s.procs| && s.cpus[e.cpu].run != P(p)
    requires Code(s, e.cpu, e.ch).Do? && CpuShape(s, e.cpu)
    ensures p < |s'.threads|
    ensures var w := Code(s, e.cpu, e.ch).w; w.Free? && w.i == p ==> s'.threads[p].pc == NoThread
  {
    GoodStepFromExec(s, e.cpu, e.ch, s');
  }

  lemma KeepsChan(s: State, e: Event, s': State, p: nat)
    requires Inv(s) && StepTo(s, e, s') && p < |s.procs| && p < |s.threads| && ChanOk(s, p)
    ensures p < |s'.procs| && p < |s'.threads| && ChanOk(s', p)
  {
    if OwnStep(s, e, p) {
      OwnChan(s, e, s', p);
    } else if s.cpus[e.cpu].run == P(p) {
      InterruptedChan(s, e, s', p);
    } else {
      ForeignChan(s, e, s', p);
    }
  }

  /** At every moment of every run: a slot has a channel, itself, exactly while its process is inside sleep. */
  lemma {:induction false} OnlySleepersHaveChannels(states: seq<State>, events: seq<Event>, j: nat, p: nat)
    requires IsRun(states, events) && j < |states| && p < |states[j].procs|
    ensures p < |states[j].threads| && ChanOk(states[j], p)
    decreases j
  {
    if j > 0 {
      RunStep(states, events, j - 1);
      OnlySleepersHaveChannels(states, events, j - 1, p);
      KeepsChan(states[j - 1], events[j - 1], states[j], p);
    }
  }

  // ----- why a sleeper is woken

  predicate ZombieKid(s: State, q: nat, i: nat) {
    i < |s.procs| && IsKid(s, q, i) && s.procs[i].state == ZOMBIE
  }

  /** In a wakeup in the middle of the re-parenting loop. */
  predicate InLoop(pc: Pc) {
    pc.Exiting? && (pc.ex.ExWake? || pc.ex.ExWakeHeld?) && pc.ex.after.ThenScan?
  }

  /** Such a wakeup is on behalf of the ZOMBIE handed over just before. */
  predicate ReasonOk(pc: Pc, s: State) {
    InLoop(pc) ==> pc.ex.after.j > 0 && ZombieKid(s, pc.ex.chan, pc.ex.after.j - 1)
  }

  lemma ReasonStatements(s: State, p: nat, ch: Choice)
    requires Sizes(s) && p < |s.procs| && SlotShape(s, p) && SlotFits(s.initproc, |s.procs|)
    requires ThreadCode(s, p, ch).Do? && ReasonOk(s.threads[p].pc, s)
    ensures ReasonOk(ThreadCode(s, p, ch).pc, Apply(s, ThreadCode(s, p, ch).w))
  {
  }

  lemma ReasonTable(pc: Pc, a: State, s': State)
    requires ReasonOk(pc, a) && s'.procs == a.procs
    ensures ReasonOk(pc, s')
  {
  }

  lemma OwnReason(s: State, e: Event, s': State, p: nat)
    requires Inv(s) && StepTo(s, e, s') && OwnStep(s, e, p) && ReasonOk(s.threads[p].pc, s)
    ensures p < |s'.threads| && ReasonOk(s'.threads[p].pc, s')
  {
    OwnMoves(s, e, s', p);
    ReasonStatements(s, p, e.ch);
    ReasonTable(s'.threads[p].pc, Apply(s, ThreadCode(s, p, e.ch).w), s');
  }

  /** Without wait_lock nobody touches a ZOMBIE. */
  lemma ZombieFrame(s: State, t: Tid, th: Thread, cur: set<Lock>, w: Write, op: Op, s': State, i: nat)
    requires Writes(s, t, th, cur, w, op, s') && i < |s.procs| && s.procs[i].state == ZOMBIE && WaitLock !in cur
    ensures s'.procs[i] == s.procs[i]
  {
  }

  lemma ForeignReason(s: State, e: Event, s': State, p: nat)
    requires Inv(s) && StepTo(s, e, s') && p < |s.procs| && s.cpus[e.cpu].run != P(p) && p < |s.threads|
    requires ReasonOk(s.threads[p].pc, s)
    ensures p < |s'.threads| && ReasonOk(s'.threads[p].pc, s')
  {
    ForeignStays(s, e, s', p);
    GoodWrites(s, e, s');
    var pc, ins, t := s.threads[p].pc, Code(s, e.cpu, e.ch), s.cpus[e.cpu].run;
    if InLoop(pc) {
      PcExclusive(s, e.cpu, p);
      ZombieFrame(s, t, Th(s, t), HeldBy(s, e.cpu), ins.w, ins.op, s', pc.ex.after.j - 1);
    }
  }

  lemma InterruptedReason(s: State, e: Event, s': State, p: nat)
    requires Inv(s) && StepTo(s, e, s') && p < |s.procs| && p < |s.threads| && !OwnStep(s, e, p)
    requires s.cpus[e.cpu].run == P(p) && ReasonOk(s.threads[p].pc, s)
    ensures p < |s'.threads| && ReasonOk(s'.threads[p].pc, s')
  {
    InterruptedStays(s, e, s', p);
    GoodWrites(s, e, s');
    NotDead(s, e.cpu, p);
    CodeCases(s, e.cpu, e.ch, p);
    if InLoop(s.threads[p].pc) { ReasonTable(s.threads[p].pc, s, s'); }
  }

  lemma KeepsReason(s: State, e: Event, s': State, p: nat)
    requires Inv(s) && StepTo(s, e, s') && p < |s.procs| && p < |s.threads| && ReasonOk(s.threads[p].pc, s)
    ensures p < |s'.threads| && ReasonOk(s'.threads[p].pc, s')
  {
    if OwnStep(s, e, p) {
      OwnReason(s, e, s', p);
    } else if s.cpus[e.cpu].run == P(p) {
      InterruptedReason(s, e, s', p);
    } else {
      ForeignReason(s, e, s', p);
    }
  }

  lemma {:induction false} ReasonRun(states: seq<State>, events: seq<Event>, j: nat, p: nat)
    requires IsRun(states, events) && j < |states| && p < |states[j].procs|
    ensures p < |states[j].threads| && ReasonOk(states[j].threads[p].pc, states[j])
    decreases j
  {
    if j > 0 {
      RunStep(states, events, j - 1);
      ReasonRun(states, events, j - 1, p);
      KeepsReason(states[j - 1], events[j - 1], states[j], p);
    }
  }

  /** The process that takes step e. */
  function Actor(s: State, e: Event): (p: nat) {
    if e.cpu < |s.cpus| && s.cpus[e.cpu].run.P? then s.cpus[e.cpu].run.slot else 0
  }

  /**
   No sleeper is woken for nothing: whoever leaves sleep has a child that is a ZOMBIE, or whose exit is
   under way in this very step.
  */
  lemma WokenForAReason(states: seq<State>, events: seq<Event>, k: nat, i: nat)
    requires IsRun(states, events) && k < |events| && i < |states[k].procs| == |states[k + 1].procs|
    requires states[k].procs[i].state == SLEEPING && states[k + 1].procs[i].state != SLEEPING
    ensures var s, p := states[k], Actor(states[k], events[k]);
      || (exists j: nat :: ZombieKid(s, i, j))
      || (p < |s.procs| && p < |s.threads| && IsKid(s, i, p) && s.threads[p].pc.Exiting?)
  {
    RunReachable(states, events, k);
    RunStep(states, events, k);
    OnlyWakeupWakes(states[k], events[k], states[k + 1], i);
    var s, p := states[k], Actor(states[k], events[k]);
    assert SlotShape(s, p) && ThreadOk(s, p);
    ReasonRun(states, events, k, p);
    if s.threads[p].pc.ex.after.ThenScan? { assert ZombieKid(s, i, s.threads[p].pc.ex.after.j - 1); }
  }
}
