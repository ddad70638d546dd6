/** The invariant of every reachable state, and the runs it is proved over. */
module ProcInduction {
  import opened ProcModel
  import opened ProcInvariants
  import opened ProcStatements
  import opened ProcEffects
  import opened ProcPreservation
  import opened ProcFamily
  import opened ProcStep
  import opened ProcSleep
  import opened ProcHistory
  import opened ProcFlags

  ghost predicate Inv(s: State) {
    Base(s) && Sleepers(s) && History(s) && Flags(s)
  }

  // ----- no panic in acquire, release, pop_off or sched

  lemma ControlSafe(s: State, c: nat, ins: Instr)
    requires Shape(s) && c < |s.cpus| && CpuShape(s, c) && CpuLocks(s, c) && ins.Do? && Addresses(ins, |s.procs|)
    requires var t, th := s.cpus[c].run, Th(s, s.cpus[c].run);
      && LocksFollow(ins.op, Held(th, t), Held(th.(pc := ins.pc, trap := ins.trap), t), t)
      && (t.P? ==> StateFollows(s, t.slot, th.pc, ins))
    ensures Perform(s, c, s.cpus[c].run, ins) != LockPanic
  {
    ApplyFrame(s, ins.w);
    var t := s.cpus[c].run;
    assert Held(Th(s, t), t) == HeldBy(s, c);
    if ins.op.Leave? {
      assert HeldBy(s, c) == {SlotLock(t.slot)};
      assert Holding(s, c, SlotLock(t.slot));
    } else if ins.op.Unlock? || ins.op.Start? || ins.op.Resume? {
      assert Holding(s, c, ins.op.l);
      assert HeldBy(s, c) != {};
    }
  }

  lemma NoLockPanic(s: State, c: nat, ch: Choice)
    requires Inv(s) && c < |s.cpus|
    ensures Exec(s, c, ch) != LockPanic
  {
    assert CpuShape(s, c) && CpuLocks(s, c);
    CodeStatement(s, c, ch);
    if Code(s, c, ch).Do? { ControlSafe(s, c, Code(s, c, ch)); }
  }

  // ----- induction

  lemma GoodStepFromExec(s: State, c: nat, ch: Choice, s': State)
    requires Base(s) && c < |s.cpus| && Exec(s, c, ch) == Ok(s')
    ensures GoodStep(s, c, Code(s, c, ch), s') && CpuShape(s, c)
    ensures TouchesIdle(s, Code(s, c, ch).w)
  {
    assert CpuShape(s, c) && RunOk(s, c);
    CodeStatement(s, c, ch);
    var ins := Code(s, c, ch);
    AllIdle(s, c, ins.w, ins.op);
    StepEffect(s, c, ins, s');
  }

  lemma KeepsBase(s: State, c: nat, ch: Choice, s': State)
    requires Base(s) && c < |s.cpus| && Exec(s, c, ch) == Ok(s')
    ensures Base(s')
  {
    GoodStepFromExec(s, c, ch, s');
    CodeStatement(s, c, ch);
    var ins, t := Code(s, c, ch), s.cpus[c].run;
    KeepsStructure(s, c, ins, s');
    KeepsLocks(s, c, ins, s');
    KeepsTable(s, c, ins, s');
    KeepsFamily(s, t, Th(s, t), Held(Th(s, t), t), ins.w, ins.op, s');
    KeepsLocal(s, c, ch, ins, s');
  }

  lemma KeepsInv(s: State, c: nat, ch: Choice, s': State)
    requires Inv(s) && c < |s.cpus| && Exec(s, c, ch) == Ok(s')
    ensures Inv(s')
  {
    KeepsBase(s, c, ch, s');
    GoodStepFromExec(s, c, ch, s');
    CodeStatement(s, c, ch);
    var ins, t := Code(s, c, ch), s.cpus[c].run;
    StatementSleepFacts(s, c, ins);
    KeepsSleepers(s, c, ch, ins, s');
    KeepsHistory(s, t, Th(s, t), Held(Th(s, t), t), ins.w, ins.op, s');
    KeepsFlags(s, c, ch, ins, s');
  }

  lemma BootInv(s: State)
    requires Boot(s)
    ensures Inv(s)
  {
    assert Structure(s);
    forall c | 0 <= c < |s.cpus| ensures CpuShape(s, c) && CpuLocks(s, c) { }
    assert Zombies(s) == {};
  }

  // ----- runs

  /** CPU cpu takes a step with choice ch. */
  datatype Event = Event(cpu: nat, ch: Choice)

  ghost predicate StepTo(s: State, e: Event, s': State) {
    Shape(s) && e.cpu < |s.cpus| && Exec(s, e.cpu, e.ch) == Ok(s')
  }

  ghost predicate StepAt(states: seq<State>, events: seq<Event>, i: nat)
    requires i < |events| && |states| == |events| + 1
  {
    StepTo(states[i], events[i], states[i + 1])
  }

  ghost predicate IsRun(states: seq<State>, events: seq<Event>) {
    && |states| == |events| + 1
    && Boot(states[0])
    && forall i :: 0 <= i < |events| ==> StepAt(states, events, i)
  }

  lemma {:induction false} RunInv(states: seq<State>, events: seq<Event>, i: nat)
    requires IsRun(states, events) && i < |states|
    ensures Inv(states[i])
  {
    if i == 0 {
      BootInv(states[0]);
    } else {
      RunInv(states, events, i - 1);
      assert StepAt(states, events, i - 1);
      KeepsInv(states[i - 1], events[i - 1].cpu, events[i - 1].ch, states[i]);
    }
  }

  ghost predicate Reachable(s: State) {
    exists states: seq<State>, events: seq<Event> :: IsRun(states, events) && states[|events|] == s
  }

  /** Every state of a run is reachable. */
  lemma RunReachable(states: seq<State>, events: seq<Event>, j: nat)
    requires IsRun(states, events) && j < |states|
    ensures Reachable(states[j])
  {
    var ss, es := states[..j + 1], events[..j];
    forall i | 0 <= i < |es| ensures StepAt(ss, es, i) { assert StepAt(states, events, i); }
    assert IsRun(ss, es) && ss[|es|] == states[j];
  }

  lemma ReachableInv(s: State)
    requires Reachable(s)
    ensures Inv(s)
  {
    var states, events :| IsRun(states, events) && states[|events|] == s;
    RunInv(states, events, |events|);
  }
}
