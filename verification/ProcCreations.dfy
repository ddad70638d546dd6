/**
 Over whole runs: create_process takes the first slot that is free when it looks at it, makes it a
 RUNNABLE child of its caller, and panics only after it has seen every slot in use.
*/
module ProcCreations {
  import opened Prelude
  import opened ProcModel
  import opened ProcInvariants
  import opened ProcStep
  import opened ProcInduction
  import opened ProcTheorems
  import opened ProcOutcomes
  import opened ProcCalls

  // ----- what the caller has seen

  /** A CPU that runs slot p holds the lock of slot l, and slot l is in use. */
  predicate SeesInUse(s: State, p: nat, l: nat) {
    && SlotLock(l) in s.held && s.held[SlotLock(l)] < |s.cpus| && s.cpus[s.held[SlotLock(l)]].run == P(p)
    && l < |s.procs| && s.procs[l].state != UNUSED
  }

  /** It was so in one of the states between i and j. */
  ghost predicate SeenInUse(states: seq<State>, p: nat, i: nat, j: nat, l: nat)
    requires j <= |states|
  {
    exists t :: i < t < j && SeesInUse(states[t], p, l)
  }

  ghost predicate SeenBelow(states: seq<State>, p: nat, i: nat, j: nat, n: nat)
    requires j <= |states|
  {
    forall l: nat :: l < n ==> SeenInUse(states, p, i, j, l)
  }

  /** In this step the thread of slot p takes slot k for a new process, with the next pid. */
  predicate Takes(s: State, e: Event, s': State, p: nat, k: nat) {
    && OwnStep(s, e, p) && Comes(s, s', k)
    && s'.procs[k].pid == s.nextpid && s'.nextpid == s.nextpid + 1
  }

  /** In this step it makes that process RUNNABLE, as its child. */
  predicate Readies(s: State, e: Event, s': State, p: nat, k: nat, pid: nat) {
    && OwnStep(s, e, p) && k < |s.procs| == |s'.procs|
    && s.procs[k].state == USED && s'.procs[k].state == RUNNABLE
    && s'.procs[k].pid == pid && s'.procs[k].parent == Some(p)
  }

  predicate TakesAt(states: seq<State>, events: seq<Event>, p: nat, k: nat, m: nat)
    requires |states| == |events| + 1 && m < |events|
  {
    Takes(states[m], events[m], states[m + 1], p, k)
  }

  predicate ReadiesAt(states: seq<State>, events: seq<Event>, p: nat, k: nat, pid: nat, m: nat)
    requires |states| == |events| + 1 && m < |events|
  {
    Readies(states[m], events[m], states[m + 1], p, k, pid)
  }

  /** In one of the steps from i to j slot k is taken with the given pid, all lower slots having been in use. */
  ghost predicate Taken(states: seq<State>, events: seq<Event>, p: nat, i: nat, j: nat, k: nat, pid: nat)
    requires |states| == |events| + 1 && j <= |events|
  {
    exists m ::
      i <= m < j && TakesAt(states, events, p, k, m) && states[m].nextpid == pid && SeenBelow(states, p, i, m, k)
  }

  ghost predicate Readied(states: seq<State>, events: seq<Event>, p: nat, i: nat, j: nat, k: nat, pid: nat)
    requires |states| == |events| + 1 && j <= |events|
  {
    exists m :: i <= m < j && ReadiesAt(states, events, p, k, pid, m)
  }

  // ----- one step

  lemma CreateStatements(s: State, p: nat, cr: CreatePc)
    requires PcFits(Creating(cr), |s.procs|) && CreateCode(s, p, cr).Do?
    ensures var ins := CreateCode(s, p, cr);
      match cr
      case CrScan(i) => i < |s.procs| && ins.pc == Creating(CrCheck(i)) && ins.w == Nothing
      case CrCheck(i) =>
        && ins.w == Nothing
        && ins.pc == Creating(if s.procs[i].state == UNUSED then CrPid(i) else CrScan(i + 1))
      case CrPid(i) => ins.w == Alloc(i) && ins.pc == Creating(CrWait(i, s.nextpid))
      case CrWait(i, pid) => ins.w == Nothing && ins.pc == Creating(CrLink(i, pid))
      case CrLink(i, pid) => !ins.w.Alloc? && ins.pc == Creating(CrReady(i, pid))
      case CrReady(i, pid) =>
        ins.w == Put(i, s.procs[i].(state := RUNNABLE)) && ins.pc == Creating(CrReturn(i, pid))
      case CrReturn(i, pid) => ins.w == Nothing && ins.pc == Body
  {
  }

  /** What create_process has achieved at a program point: how far it has looked, or which slot it has taken. */
  ghost predicate Achieved(states: seq<State>, events: seq<Event>, p: nat, i: nat, j: nat, cr: CreatePc)
    requires |states| == |events| + 1 && j <= |events|
  {
    if cr.CrScan? || cr.CrCheck? || cr.CrPid? then SeenBelow(states, p, i, j, cr.i)
    else
      && Taken(states, events, p, i, j, cr.i, cr.pid)
      && (cr.CrReturn? ==> Readied(states, events, p, i, j, cr.i, cr.pid))
  }

  ghost predicate CreateSoFar(states: seq<State>, events: seq<Event>, p: nat, i: nat, j: nat)
    requires |states| == |events| + 1 && j <= |events|
  {
    && p < |states[j].threads| && states[j].threads[p].pc.Creating?
    && Achieved(states, events, p, i, j, states[j].threads[p].pc.cr)
  }

  lemma SeenLater(states: seq<State>, p: nat, i: nat, j: nat, n: nat)
    requires i < j < |states| && SeenBelow(states, p, i, j, n)
    ensures SeenBelow(states, p, i, j + 1, n)
    ensures SeesInUse(states[j], p, n) ==> SeenBelow(states, p, i, j + 1, n + 1)
  {
    var j' := j + 1;
    forall l: nat | l < n ensures SeenInUse(states, p, i, j', l) {
      assert SeenInUse(states, p, i, j, l);
      var t :| i < t < j && SeesInUse(states[t], p, l);
      assert i < t < j';
    }
    if SeesInUse(states[j], p, n) { assert SeenInUse(states, p, i, j', n); }
  }

  lemma TakenLater(states: seq<State>, events: seq<Event>, p: nat, i: nat, j: nat, k: nat, pid: nat)
    requires |states| == |events| + 1 && j < |events|
    ensures Taken(states, events, p, i, j, k, pid) ==> Taken(states, events, p, i, j + 1, k, pid)
    ensures Readied(states, events, p, i, j, k, pid) ==> Readied(states, events, p, i, j + 1, k, pid)
  {
    if Taken(states, events, p, i, j, k, pid) {
      var m :| i <= m < j && TakesAt(states, events, p, k, m) && states[m].nextpid == pid &&
        SeenBelow(states, p, i, m, k);
      assert TakesAt(states, events, p, k, m) && i <= m < j + 1;
    }
    if Readied(states, events, p, i, j, k, pid) {
      var m :| i <= m < j && ReadiesAt(states, events, p, k, pid, m);
      assert i <= m < j + 1;
    }
  }

  /** A statement of create_process, seen from the table. */
  lemma CreateMoves(s: State, e: Event, s': State, p: nat)
    requires Inv(s) && StepTo(s, e, s') && OwnStep(s, e, p) && p < |s'.threads| && s.threads[p].pc.Creating?
    ensures SlotShape(s, p)
    ensures var pc := s'.threads[p].pc;
      match s.threads[p].pc.cr
      case CrScan(k) => pc == Creating(CrCheck(k))
      case CrCheck(k) => if s.procs[k].state == UNUSED then pc == Creating(CrPid(k)) else pc == Creating(CrScan(k + 1))
      case CrPid(k) => pc == Creating(CrWait(k, s.nextpid)) && Takes(s, e, s', p, k)
      case CrWait(k, pid) => pc == Creating(CrLink(k, pid))
      case CrLink(k, pid) => pc == Creating(CrReady(k, pid))
      case CrReady(k, pid) => pc == Creating(CrReturn(k, pid)) && Readies(s, e, s', p, k, pid)
      case CrReturn(k, pid) => pc == Body
  {
    OwnMoves(s, e, s', p);
    CreateStatements(s, p, s.threads[p].pc.cr);
    assert SlotShape(s, p) && ThreadOk(s, p);
  }

  /** At CrCheck(k) the caller holds the lock of slot k. */
  lemma ChecksUnderLock(s: State, c: nat, p: nat, k: nat)
    requires Inv(s) && Executes(s, c, p) && s.threads[p].pc == Creating(CrCheck(k))
    requires k < |s.procs| && s.procs[k].state != UNUSED
    ensures SeesInUse(s, p, k)
  {
    RunningThread(s, c, p);
    assert CpuShape(s, c) && CpuLocks(s, c);
    assert Holding(s, c, SlotLock(k));
  }

  lemma AchievedKept(states: seq<State>, events: seq<Event>, p: nat, i: nat, j: nat, cr: CreatePc)
    requires |states| == |events| + 1 && i < j < |events| && Achieved(states, events, p, i, j, cr)
    ensures Achieved(states, events, p, i, j + 1, cr)
    ensures cr.CrCheck? && SeesInUse(states[j], p, cr.i) ==> SeenBelow(states, p, i, j + 1, cr.i + 1)
  {
    if cr.CrScan? || cr.CrCheck? || cr.CrPid? {
      SeenLater(states, p, i, j, cr.i);
    } else {
      TakenLater(states, events, p, i, j, cr.i, cr.pid);
    }
  }

  lemma TakenNow(states: seq<State>, events: seq<Event>, p: nat, i: nat, j: nat, k: nat)
    requires |states| == |events| + 1 && i <= j < |events| && TakesAt(states, events, p, k, j)
    requires SeenBelow(states, p, i, j, k)
    ensures Taken(states, events, p, i, j + 1, k, states[j].nextpid)
  {
  }

  lemma ReadiedNow(states: seq<State>, events: seq<Event>, p: nat, i: nat, j: nat, k: nat, pid: nat)
    requires |states| == |events| + 1 && i <= j < |events| && ReadiesAt(states, events, p, k, pid, j)
    ensures Readied(states, events, p, i, j + 1, k, pid)
  {
  }

  /** What a statement of the caller adds. */
  lemma CreateAdds(states: seq<State>, events: seq<Event>, p: nat, i: nat, j: nat)
    requires |states| == |events| + 1 && i < j < |events|
    requires Inv(states[j]) && StepTo(states[j], events[j], states[j + 1]) && OwnStep(states[j], events[j], p)
    requires p < |states[j + 1].threads| && CreateSoFar(states, events, p, i, j)
    ensures AtBody(states[j + 1], p) || CreateSoFar(states, events, p, i, j + 1)
  {
    var s, e, s' := states[j], events[j], states[j + 1];
    CreateMoves(s, e, s', p);
    AchievedKept(states, events, p, i, j, s.threads[p].pc.cr);
    match s.threads[p].pc.cr
    case CrCheck(k) => if s.procs[k].state != UNUSED { ChecksUnderLock(s, e.cpu, p, k); }
    case CrPid(k) => TakenNow(states, events, p, i, j, k);
    case CrReady(k, pid) => ReadiedNow(states, events, p, i, j, k, pid);
    case _ =>
  }

  lemma CreateNext(states: seq<State>, events: seq<Event>, p: nat, i: nat, j: nat)
    requires IsRun(states, events) && i < j < |events| && CreateSoFar(states, events, p, i, j)
    ensures AtBody(states[j + 1], p) || CreateSoFar(states, events, p, i, j + 1)
  {
    RunStep(states, events, j);
    var s, e, s' := states[j], events[j], states[j + 1];
    if OwnStep(s, e, p) {
      CreateAdds(states, events, p, i, j);
    } else {
      OthersStay(s, e, s', p);
      AchievedKept(states, events, p, i, j, s.threads[p].pc.cr);
    }
  }

  lemma CreateBegins(states: seq<State>, events: seq<Event>, p: nat, i: nat)
    requires IsRun(states, events) && InCall(states, events, p, i, i + 1) && events[i].ch == CallCreate
    ensures !AtBody(states[i + 1], p) && CreateSoFar(states, events, p, i, i + 1)
  {
    RunStep(states, events, i);
    OwnMoves(states[i], events[i], states[i + 1], p);
  }

  lemma {:induction false} CreateRun(states: seq<State>, events: seq<Event>, p: nat, i: nat, j: nat)
    requires IsRun(states, events) && InCall(states, events, p, i, j) && events[i].ch == CallCreate
    ensures p < |states[j].threads|
    ensures AtBody(states[j], p) || CreateSoFar(states, events, p, i, j)
    decreases j
  {
    if j == i + 1 {
      CreateBegins(states, events, p, i);
    } else {
      CallShorter(states, events, p, i, j);
      CreateRun(states, events, p, i, j - 1);
      CreateNext(states, events, p, i, j - 1);
    }
  }

  // ----- the results

  /** create_process panics only after it has seen every slot in use, each under its lock. */
  lemma CreatePanics(states: seq<State>, events: seq<Event>, p: nat, i: nat, j: nat, c: nat, ch: Choice)
    requires IsRun(states, events) && InCall(states, events, p, i, j) && events[i].ch == CallCreate
    requires Shape(states[j]) && Executes(states[j], c, p) && !AtBody(states[j], p) && Exec(states[j], c, ch) == Panic
    ensures SeenBelow(states, p, i, j, |states[j].procs|)
  {
    RunReachable(states, events, j);
    PanicsIff(states[j], c, ch);
    CreateRun(states, events, p, i, j);
  }

  /** The slot it takes is free, and it has seen every lower one in use. */
  lemma CreateTakesFirst(states: seq<State>, events: seq<Event>, p: nat, i: nat, j: nat, k: nat)
    requires IsRun(states, events) && InCall(states, events, p, i, j) && events[i].ch == CallCreate
    requires j < |events| && OwnStep(states[j], events[j], p) && !AtBody(states[j], p)
    requires Comes(states[j], states[j + 1], k)
    ensures SeenBelow(states, p, i, j, k) && TakesAt(states, events, p, k, j)
  {
    CreateRun(states, events, p, i, j);
    RunStep(states, events, j);
    ComesByTaking(states[j], events[j], states[j + 1], p, k);
  }

  lemma ComesByTaking(s: State, e: Event, s': State, p: nat, k: nat)
    requires Inv(s) && StepTo(s, e, s') && OwnStep(s, e, p) && s.threads[p].pc.Creating? && Comes(s, s', k)
    ensures s.threads[p].pc == Creating(CrPid(k)) && Takes(s, e, s', p, k)
  {
    OwnMoves(s, e, s', p);
    CreateStatements(s, p, s.threads[p].pc.cr);
    CreateMoves(s, e, s', p);
    GoodWrites(s, e, s');
  }

  /**
   When create_process returns, it has taken such a slot with the next pid, made the process RUNNABLE as a
   child of its caller, and what it returns is that pid.
  */
  lemma CreateReturns(states: seq<State>, events: seq<Event>, p: nat, i: nat, j: nat) returns (k: nat, pid: nat)
    requires IsRun(states, events) && Returns(states, events, p, i, j) && events[i].ch == CallCreate
    ensures Taken(states, events, p, i, j - 1, k, pid) && Readied(states, events, p, i, j - 1, k, pid)
    ensures k < |states[j - 1].procs| && CreateResult(states[j - 1], k) == pid
  {
    if j == i + 1 { CreateBegins(states, events, p, i); }
    CallShorter(states, events, p, i, j);
    CreateRun(states, events, p, i, j - 1);
    k, pid := LastOfCreate(states, events, p, i, j - 1);
    RunReachable(states, events, j - 1);
    CreateReturnsItsPid(states[j - 1], p, k, pid);
  }

  lemma LastOfCreate(states: seq<State>, events: seq<Event>, p: nat, i: nat, j: nat) returns (k: nat, pid: nat)
    requires IsRun(states, events) && i < j < |events| && CreateSoFar(states, events, p, i, j)
    requires AtBody(states[j + 1], p)
    ensures Sizes(states[j]) && p < |states[j].procs| && k < |states[j].procs|
    ensures states[j].threads[p].pc == Creating(CrReturn(k, pid))
  {
    RunStep(states, events, j);
    var s, e, s' := states[j], events[j], states[j + 1];
    assert SlotShape(s, p);
    if OwnStep(s, e, p) { CreateMoves(s, e, s', p); } else { OthersStay(s, e, s', p); }
    k, pid := s.threads[p].pc.cr.i, s.threads[p].pc.cr.pid;
  }
}
