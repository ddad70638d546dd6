/**
 Over whole runs: what a thread function gets from each call, told by what has happened between the
 call and its return.
*/
module ProcCalls {
  import opened ProcModel
  import opened ProcInvariants
  import opened ProcInduction
  import opened ProcRuns
  import opened ProcPreemption
  import opened ProcOutcomes

  /** At step i the thread function of slot p makes a call; up to state j it has not gone on since. */
  ghost predicate InCall(states: seq<State>, events: seq<Event>, p: nat, i: nat, j: nat) {
    && |states| == |events| + 1 && i < j <= |events|
    && OwnStep(states[i], events[i], p) && states[i].threads[p].pc == Body
    && forall m :: i < m < j ==> !AtBody(states[m], p)
  }

  predicate AtBody(s: State, p: nat) {
    p < |s.threads| && s.threads[p].pc == Body
  }

  /** The call made at step i returns with step j - 1. */
  ghost predicate Returns(states: seq<State>, events: seq<Event>, p: nat, i: nat, j: nat) {
    InCall(states, events, p, i, j) && AtBody(states[j], p)
  }

  lemma CallShorter(states: seq<State>, events: seq<Event>, p: nat, i: nat, j: nat)
    requires InCall(states, events, p, i, j) && i < j - 1
    ensures InCall(states, events, p, i, j - 1) && !AtBody(states[j - 1], p)
  {
  }

  /** The facts about one step of a run that the lemmas below start from. */
  lemma RunStep(states: seq<State>, events: seq<Event>, k: nat)
    requires IsRun(states, events) && k < |events|
    ensures Inv(states[k]) && StepTo(states[k], events[k], states[k + 1])
    ensures Sizes(states[k + 1]) && |states[k + 1].procs| == |states[k].procs|
  {
    RunInv(states, events, k);
    assert StepAt(states, events, k);
    SizesAt(states, events, k);
  }

  // ----- wait_process

  /** In step k slot p reaps a child. */
  predicate ReapsAt(states: seq<State>, events: seq<Event>, p: nat, k: nat)
    requires |states| == |events| + 1 && k < |events|
  {
    OwnStep(states[k], events[k], p) && states[k + 1].reaps != states[k].reaps
  }

  /** How many of the steps from i to j are reaps by slot p. */
  function Reaps(states: seq<State>, events: seq<Event>, p: nat, i: nat, j: nat): (n: nat)
    requires |states| == |events| + 1 && j <= |events|
    decreases j
  {
    if j <= i then 0 else Reaps(states, events, p, i, j - 1) + if ReapsAt(states, events, p, j - 1) then 1 else 0
  }

  predicate Reaped(pc: Pc) {
    pc == Waiting(WtReaped)
  }

  lemma WaitStatements(s: State, p: nat, wt: WaitPc)
    requires p < |s.procs| && PcFits(Waiting(wt), |s.procs|)
    ensures var ins := WaitCode(s, p, wt);
      && ins.Do? && (ins.pc.Waiting? || ins.pc == Body)
      && (if ins.w.Free? then Reaped(ins.pc) && !wt.WtReaped? else !Reaped(ins.pc) && (wt.WtReaped? ==> ins.pc == Body))
      && (ins.pc == Body && !wt.WtReaped? ==> ins.w == Nothing && wt == WtScan(|s.procs|, false))
      && !ins.w.Die?
  {
  }

  lemma WaitMoves(s: State, e: Event, s': State, p: nat)
    requires Inv(s) && StepTo(s, e, s') && p < |s.procs| && p < |s'.threads| && s.threads[p].pc.Waiting?
    requires OwnStep(s, e, p)
    ensures var pc, pc' := s.threads[p].pc, s'.threads[p].pc;
      && (pc'.Waiting? || pc' == Body)
      && (if s'.reaps != s.reaps then Reaped(pc') && !Reaped(pc) else !Reaped(pc') && (Reaped(pc) ==> pc' == Body))
      && (pc' == Body && !Reaped(pc) ==> s'.procs == s.procs && pc == Waiting(WtScan(|s.procs|, false)))
  {
    OwnMoves(s, e, s', p);
    WaitStatements(s, p, s.threads[p].pc.wt);
  }

  lemma SameKids(s: State, s': State, p: nat)
    requires s'.procs == s.procs
    ensures HasKid(s', p) <==> HasKid(s, p)
  {
    if HasKid(s', p) {
      var i :| 0 <= i < |s'.procs| && IsKid(s', p, i);
      assert IsKid(s, p, i);
    }
    if HasKid(s, p) {
      var i :| 0 <= i < |s.procs| && IsKid(s, p, i);
      assert IsKid(s', p, i);
    }
  }

  lemma WaitStays(s: State, e: Event, s': State, p: nat)
    requires Inv(s) && StepTo(s, e, s') && p < |s.procs| && p < |s'.threads| && s.threads[p].pc.Waiting?
    requires !OwnStep(s, e, p)
    ensures s'.threads[p].pc == s.threads[p].pc
  {
    OthersStay(s, e, s', p);
  }

  lemma NoKidAtReturn(s: State, s': State, p: nat)
    requires Inv(s) && p < |s.procs| && s.threads[p].pc == Waiting(WtScan(|s.procs|, false)) && s'.procs == s.procs
    ensures !HasKid(s, p) && !HasKid(s', p)
  {
    assert SlotShape(s, p) && ThreadOk(s, p);
    SameKids(s, s', p);
  }

  /** wait_process returns from a state of its own only after a reap, or if the caller has no child. */
  lemma WaitGoesOn(s: State, e: Event, s': State, p: nat)
    requires Reachable(s) && StepTo(s, e, s') && p < |s.procs| && p < |s.threads| && p < |s'.threads|
    requires s.threads[p].pc.Waiting? && s'.threads[p].pc == Body
    ensures Reaped(s.threads[p].pc) || (!HasKid(s, p) && !HasKid(s', p))
  {
    ReachableInv(s);
    if OwnStep(s, e, p) {
      WaitMoves(s, e, s', p);
      if !Reaped(s.threads[p].pc) { NoKidAtReturn(s, s', p); }
    } else {
      WaitStays(s, e, s', p);
    }
  }

  ghost predicate ReapedOrChildless(states: seq<State>, events: seq<Event>, p: nat, i: nat, j: nat)
    requires |states| == |events| + 1 && j <= |events|
  {
    || Reaps(states, events, p, i, j) == 1
    || (Reaps(states, events, p, i, j) == 0 && !HasKid(states[j], p))
  }

  ghost predicate WaitSoFar(states: seq<State>, events: seq<Event>, p: nat, i: nat, j: nat)
    requires |states| == |events| + 1 && j <= |events|
  {
    && p < |states[j].threads|
    && match states[j].threads[p].pc
       case Waiting(wt) =>
         Reaps(states, events, p, i, j) == if wt.WtReaped? then 1 else 0
       case Body => ReapedOrChildless(states, events, p, i, j)
       case _ => false
  }

  lemma WaitNext(states: seq<State>, events: seq<Event>, p: nat, i: nat, j: nat)
    requires IsRun(states, events) && i <= j < |events| && WaitSoFar(states, events, p, i, j) && !AtBody(states[j], p)
    ensures WaitSoFar(states, events, p, i, j + 1)
  {
    RunStep(states, events, j);
    var s, e, s' := states[j], events[j], states[j + 1];
    if OwnStep(s, e, p) {
      WaitMoves(s, e, s', p);
      if AtBody(s', p) && !Reaped(s.threads[p].pc) { NoKidAtReturn(s, s', p); }
    } else {
      WaitStays(s, e, s', p);
    }
  }

  lemma WaitBegins(states: seq<State>, events: seq<Event>, p: nat, i: nat)
    requires IsRun(states, events) && InCall(states, events, p, i, i + 1) && events[i].ch == CallWait
    ensures WaitSoFar(states, events, p, i, i + 1)
  {
    RunStep(states, events, i);
    var s, e, s' := states[i], events[i], states[i + 1];
    OwnMoves(s, e, s', p);
  }

  lemma {:induction false} WaitRun(states: seq<State>, events: seq<Event>, p: nat, i: nat, j: nat)
    requires IsRun(states, events) && InCall(states, events, p, i, j) && events[i].ch == CallWait
    ensures WaitSoFar(states, events, p, i, j)
    decreases j
  {
    if j == i + 1 {
      WaitBegins(states, events, p, i);
    } else {
      CallShorter(states, events, p, i, j);
      WaitRun(states, events, p, i, j - 1);
      WaitNext(states, events, p, i, j - 1);
    }
  }

  /** wait_process returns after it has reaped one child, or without a reap if the caller has no child. */
  lemma WaitReturns(states: seq<State>, events: seq<Event>, p: nat, i: nat, j: nat)
    requires IsRun(states, events) && Returns(states, events, p, i, j) && events[i].ch == CallWait
    ensures ReapedOrChildless(states, events, p, i, j)
  {
    WaitRun(states, events, p, i, j);
  }

  // ----- exit_process

  predicate IsExiting(s: State, p: nat, status: int) {
    p < |s.threads| && s.threads[p].pc.Exiting? && s.threads[p].pc.status == status
  }

  lemma ExitGoesOn(s: State, e: Event, s': State, p: nat, status: int)
    requires Inv(s) && Inv(s') && StepTo(s, e, s') && p < |s.procs| == |s'.procs| && IsExiting(s, p, status)
    ensures IsExiting(s', p, status) || s'.procs[p].pid == 0
  {
    if OwnStep(s, e, p) {
      OwnMoves(s, e, s', p);
      CodeLives(s, p, e.ch);
    } else {
      OthersStay(s, e, s', p);
      assert TableOk(s', p);
    }
  }

  lemma ExitBegins(states: seq<State>, events: seq<Event>, p: nat, status: int, i: nat)
    requires IsRun(states, events) && i < |events| && OwnStep(states[i], events[i], p) &&
      events[i].ch == CallExit(status)
    ensures IsExiting(states[i + 1], p, status) && 0 < states[i].procs[p].pid < states[i].nextpid
  {
    RunStep(states, events, i);
    OwnMoves(states[i], events[i], states[i + 1], p);
    NotDead(states[i], events[i].cpu, p);
    PidInUse(states[i], p);
  }

  lemma ExitNext(states: seq<State>, events: seq<Event>, p: nat, status: int, k: nat)
    requires IsRun(states, events) && k < |events| && p < |states[k].procs| && IsExiting(states[k], p, status)
    requires p < |states[k + 1].procs| && states[k + 1].procs[p].pid > 0
    ensures IsExiting(states[k + 1], p, status)
  {
    RunStep(states, events, k);
    RunInv(states, events, k + 1);
    ExitGoesOn(states[k], events[k], states[k + 1], p, status);
  }

  lemma PidSame(states: seq<State>, events: seq<Event>, p: nat, k: nat)
    requires IsRun(states, events) && k < |events| && p < |states[k + 1].procs|
    requires 0 < states[k + 1].procs[p].pid < states[k].nextpid
    ensures p < |states[k].procs| && states[k].procs[p].pid == states[k + 1].procs[p].pid
  {
    RunStep(states, events, k);
    PidStep(states[k], events[k], states[k + 1], p);
  }

  /** exit_process never returns: as long as the process has its pid, it is on its way out with the status given. */
  lemma {:induction false} ExitNeverReturns(states: seq<State>, events: seq<Event>, p: nat, status: int, i: nat, j: nat)
    requires IsRun(states, events) && i < j < |states| && OwnStep(states[i], events[i], p) &&
      events[i].ch == CallExit(status)
    requires p < |states[j].procs| && states[j].procs[p].pid == states[i].procs[p].pid
    ensures IsExiting(states[j], p, status)
    decreases j
  {
    ExitBegins(states, events, p, status, i);
    if i + 1 < j {
      var k := j - 1;
      RunStep(states, events, i);
      RunSizes(states, events, i, k);
      PidSame(states, events, p, k);
      ExitNeverReturns(states, events, p, status, i, k);
      ExitNext(states, events, p, status, k);
    }
  }
}
