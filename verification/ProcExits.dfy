/** Over whole runs: what wait_process hands out was the argument of an earlier call of exit_process. */
module ProcExits {
  import opened ProcModel
  import opened ProcInvariants
  import opened ProcEffects
  import opened ProcStep
  import opened ProcHistory
  import opened ProcInduction
  import opened ProcTheorems
  import opened ProcRuns

  /** In this step the thread function of the process with the given pid calls exit_process(status). */
  predicate CallsExit(s: State, e: Event, pid: nat, status: int) {
    && e.ch == CallExit(status) && e.cpu < |s.cpus|
    && s.cpus[e.cpu].run.P? && s.cpus[e.cpu].run.slot < |s.procs| && s.cpus[e.cpu].run.slot < |s.threads|
    && s.threads[s.cpus[e.cpu].run.slot].pc == Body && s.procs[s.cpus[e.cpu].run.slot].pid == pid
  }

  /** It did so in one of the first j steps of the run. */
  ghost predicate Passed(states: seq<State>, events: seq<Event>, j: nat, pid: nat, status: int)
    requires |states| == |events| + 1 && j <= |events|
  {
    exists i :: 0 <= i < j && CallsExit(states[i], events[i], pid, status)
  }

  // ----- one step

  /** A slot keeps its pid under every write that does not make it another process. */
  lemma PidKept(s: State, t: Tid, th: Thread, cur: set<Lock>, w: Write, op: Op, s': State, p: nat)
    requires Writes(s, t, th, cur, w, op, s') && p < |s.procs| && !((w.Alloc? || w.Free?) && w.i == p)
    ensures s'.procs[p].pid == s.procs[p].pid
  {
  }

  predicate ExitGoesOn(pc: Pc, pc': Pc) {
    pc.Exiting? && pc'.Exiting? && pc.status == pc'.status
  }

  /** Where an exiting thread comes from, if it takes the step itself. */
  lemma OwnExit(s: State, e: Event, s': State, p: nat)
    requires Inv(s) && StepTo(s, e, s') && p < |s.procs| && p < |s'.threads| && s.cpus[e.cpu].run == P(p)
    requires s'.threads[p].pc.Exiting?
    ensures ExitGoesOn(s.threads[p].pc, s'.threads[p].pc) || CallsExit(s, e, s.procs[p].pid, s'.threads[p].pc.status)
  {
    GoodStepFromExec(s, e.cpu, e.ch, s');
    assert SlotShape(s, p);
    CodeCases(s, e.cpu, e.ch, p);
    if e.ch != Interrupt && s.threads[p].trap.NoTrap? { ExitCarriesStatus(s, p, e.ch); }
  }

  lemma OtherExit(s: State, e: Event, s': State, p: nat)
    requires Inv(s) && StepTo(s, e, s') && p < |s.procs| && p < |s'.threads| && s.cpus[e.cpu].run != P(p)
    requires s'.threads[p].pc.Exiting?
    ensures s.threads[p].pc == s'.threads[p].pc
    ensures var w := Code(s, e.cpu, e.ch).w; !((w.Alloc? || w.Free?) && w.i == p)
  {
    GoodStepFromExec(s, e.cpu, e.ch, s');
    ApplyFrame(s, Code(s, e.cpu, e.ch).w);
  }

  lemma ExitingFrom(s: State, e: Event, s': State, p: nat)
    requires Inv(s) && StepTo(s, e, s') && p < |s.procs| == |s'.procs| && p < |s'.threads| && s'.threads[p].pc.Exiting?
    ensures s'.procs[p].pid == s.procs[p].pid
    ensures ExitGoesOn(s.threads[p].pc, s'.threads[p].pc) || CallsExit(s, e, s.procs[p].pid, s'.threads[p].pc.status)
  {
    GoodWrites(s, e, s');
    var ins, t := Code(s, e.cpu, e.ch), s.cpus[e.cpu].run;
    if t == P(p) { OwnExit(s, e, s', p); } else { OtherExit(s, e, s', p); }
    PidKept(s, t, Th(s, t), HeldBy(s, e.cpu), ins.w, ins.op, s', p);
  }

  // ----- runs

  ghost predicate ExitingPassed(states: seq<State>, events: seq<Event>, j: nat, p: nat)
    requires |states| == |events| + 1 && j <= |events| && p < |states[j].procs| && p < |states[j].threads|
  {
    states[j].threads[p].pc.Exiting? ==>
      Passed(states, events, j, states[j].procs[p].pid, states[j].threads[p].pc.status)
  }

  ghost predicate RecordPassed(states: seq<State>, events: seq<Event>, j: nat, x: Exit)
    requires |states| == |events| + 1 && j <= |events|
  {
    Passed(states, events, j, x.pid, x.status)
  }

  lemma PassedNext(states: seq<State>, events: seq<Event>, j: nat, pid: nat, status: int)
    requires |states| == |events| + 1 && j < |events|
    ensures Passed(states, events, j, pid, status) ==> Passed(states, events, j + 1, pid, status)
    ensures CallsExit(states[j], events[j], pid, status) ==> Passed(states, events, j + 1, pid, status)
  {
  }

  /** Every exiting thread, and every exit on record, goes back to a call. */
  ghost predicate AllPassed(states: seq<State>, events: seq<Event>, j: nat)
    requires |states| == |events| + 1 && j <= |events| && Sizes(states[j])
  {
    && (forall p :: 0 <= p < |states[j].procs| ==> ExitingPassed(states, events, j, p))
    && (forall k :: 0 <= k < |states[j].exits| ==> RecordPassed(states, events, j, states[j].exits[k]))
  }

  lemma ExitingNext(states: seq<State>, events: seq<Event>, j: nat, p: nat)
    requires |states| == |events| + 1 && j < |events| && Inv(states[j]) && StepTo(states[j], events[j], states[j + 1])
    requires Sizes(states[j + 1]) && p < |states[j].procs| == |states[j + 1].procs|
    requires ExitingPassed(states, events, j, p)
    ensures ExitingPassed(states, events, j + 1, p)
  {
    var s' := states[j + 1];
    if s'.threads[p].pc.Exiting? {
      ExitingFrom(states[j], events[j], s', p);
      PassedNext(states, events, j, s'.procs[p].pid, s'.threads[p].pc.status);
    }
  }

  /** A new record is that of a thread at the end of exit_process. */
  lemma RecordNext(states: seq<State>, events: seq<Event>, j: nat, k: nat)
    requires IsRun(states, events) && j < |events| && Sizes(states[j]) && AllPassed(states, events, j)
    requires k < |states[j + 1].exits|
    ensures RecordPassed(states, events, j + 1, states[j + 1].exits[k])
  {
    var s, s', x := states[j], states[j + 1], states[j + 1].exits[k];
    if k < |s.exits| && s'.exits[k] == s.exits[k] {
      assert RecordPassed(states, events, j, s.exits[k]);
    } else {
      assert StepAt(states, events, j);
      assert Reachable(s) by { RunReachable(states, events, j); }
      ExitReportsStatus(s, events[j], s');
      var p, status :| && 0 <= p < |s.procs| == |s.threads| && s.cpus[events[j].cpu].run == P(p)
                       && s.threads[p].pc == Exiting(status, ExDie)
                       && s'.exits == s.exits + [Exit(s.procs[p].pid, status)];
      assert ExitingPassed(states, events, j, p);
    }
    PassedNext(states, events, j, x.pid, x.status);
  }

  lemma AllPassedNext(states: seq<State>, events: seq<Event>, j: nat)
    requires IsRun(states, events) && j < |events| && Sizes(states[j]) && AllPassed(states, events, j)
    ensures Sizes(states[j + 1]) && AllPassed(states, events, j + 1)
  {
    RunInv(states, events, j);
    SizesAt(states, events, j);
    assert StepAt(states, events, j);
    var n := j + 1;
    forall p | 0 <= p < |states[n].procs| ensures ExitingPassed(states, events, n, p) {
      assert ExitingPassed(states, events, j, p);
      ExitingNext(states, events, j, p);
    }
    forall k | 0 <= k < |states[n].exits| ensures RecordPassed(states, events, n, states[n].exits[k]) {
      RecordNext(states, events, j, k);
    }
  }

  lemma {:induction false} AllPassedRun(states: seq<State>, events: seq<Event>, j: nat)
    requires IsRun(states, events) && j < |states|
    ensures Sizes(states[j]) && AllPassed(states, events, j)
  {
    if j > 0 {
      AllPassedRun(states, events, j - 1);
      AllPassedNext(states, events, j - 1);
    }
  }

  /**
   Whatever pid and status wait_process has handed out by some moment of a run: earlier in that
   run the process with this pid called exit_process with this status.
  */
  lemma ReapedWasPassed(states: seq<State>, events: seq<Event>, j: nat, k: nat) returns (i: nat)
    requires IsRun(states, events) && j < |states| && k < |states[j].reaps|
    ensures i < j && CallsExit(states[i], events[i], states[j].reaps[k].pid, states[j].reaps[k].status)
  {
    RunInv(states, events, j);
    AllPassedRun(states, events, j);
    var x := Exit(states[j].reaps[k].pid, states[j].reaps[k].status);
    assert x in states[j].exits;
    var m :| 0 <= m < |states[j].exits| && states[j].exits[m] == x;
    assert RecordPassed(states, events, j, states[j].exits[m]);
    i :| 0 <= i < j && CallsExit(states[i], events[i], x.pid, x.status);
  }
}
