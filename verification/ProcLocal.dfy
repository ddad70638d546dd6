/** What a program point knows about the table stays true under the steps of others. */
module ProcLocal {
  import opened Prelude
  import opened ProcModel
  import opened ProcInvariants
  import opened ProcStatements
  import opened ProcEffects

  /** The step of another context as seen by slot q: cur are the locks of that context. */
  ghost predicate Foreign(s: State, t: Tid, th: Thread, cur: set<Lock>, ins: Instr, s': State, q: nat) {
    && Shape(s) && Shape(s') && q < |s.procs| == |s'.procs| && TidFits(t, s) && t != P(q)
    && ins.Do? && Addresses(ins, |s.procs|) && TableFollows(s, s', ins.w)
    && WriteOk(s, t, th, cur, ins.w, ins.op)
    && s'.threads[q].pc == s.threads[q].pc && s'.threads[q].trap == s.threads[q].trap
    && (forall p :: 0 <= p < |s.procs| && Asleep(s', p) ==> Asleep(s, p) || WaitLock in cur)
  }

  lemma KidsStay(s: State, t: Tid, th: Thread, cur: set<Lock>, ins: Instr, s': State, q: nat)
    requires Foreign(s, t, th, cur, ins, s', q) && s.initproc != Some(q)
    ensures forall i :: 0 <= i < |s.procs| && !IsKid(s, q, i) ==> !IsKid(s', q, i)
  {
  }

  lemma ForeignCreate(s: State, t: Tid, th: Thread, cur: set<Lock>, ins: Instr, s': State, q: nat, cr: CreatePc)
    requires Foreign(s, t, th, cur, ins, s', q) && PcFits(Creating(cr), |s.procs|) && CreateOk(s, q, cr)
    requires cur !! HeldAtPc(Creating(cr), q) && s.procs[q].state !in {UNUSED, ZOMBIE}
    requires cr.i < |s.procs| ==> ParentOk(s, cr.i)
    ensures CreateOk(s', q, cr)
  {
    assert !cr.CrScan? && !cr.CrReturn? ==> SlotLock(cr.i) !in cur;
  }

  lemma ForeignExit(s: State, t: Tid, th: Thread, cur: set<Lock>, ins: Instr, s': State, q: nat, ex: ExitPc)
    requires Foreign(s, t, th, cur, ins, s', q) && PcFits(Exiting(0, ex), |s.procs|)
    requires SlotFits(s.procs[q].parent, |s.procs|) && SlotFits(s'.procs[q].parent, |s.procs|) && ExitOk(s, q, ex)
    requires !ex.ExGone? && !ex.ExDead? ==> WaitLock !in cur
    ensures ExitOk(s', q, ex)
  {
    KidsStay(s, t, th, cur, ins, s', q);
    if !ex.ExGone? && !ex.ExDead? {
      assert s'.procs[q].parent == s.procs[q].parent;
    }
  }

  lemma ForeignWait(s: State, t: Tid, th: Thread, cur: set<Lock>, ins: Instr, s': State, q: nat, wt: WaitPc)
    requires Foreign(s, t, th, cur, ins, s', q) && PcFits(Waiting(wt), |s.procs|) && WaitOk(s, q, wt)
    requires wt.WtScan? || wt.WtCheck? ==> WaitLock !in cur
    ensures WaitOk(s', q, wt)
  {
    if wt.WtScan? || wt.WtCheck? {
      assert forall i :: 0 <= i < |s.procs| ==> (IsKid(s', q, i) ==> IsKid(s, q, i)) by {
        forall i | 0 <= i < |s.procs| && IsKid(s', q, i) ensures IsKid(s, q, i) { }
      }
      if HasKid(s, q) {
        var i :| 0 <= i < |s.procs| && IsKid(s, q, i);
        assert IsKid(s', q, i);
      }
    }
  }

  // ----- the acting thread itself

  ghost predicate Own(s: State, p: nat, ins: Instr, s': State) {
    && Sizes(s) && Sizes(s') && p < |s.procs| == |s'.procs| && ThreadPre(s, p, s.threads[p])
    && SlotShape(s', p)
    && ins.Do? && Addresses(ins, |s.procs|) && TableFollows(s, s', ins.w)
    && s'.threads[p].pc == ins.pc && s'.threads[p].trap == ins.trap
    && (forall q :: 0 <= q < |s.procs| && q != p && AsleepPc(s'.threads[q]) ==> AsleepPc(s.threads[q]))
  }

  lemma OwnCreate(s: State, p: nat, cr: CreatePc, ins: Instr, s': State)
    requires Own(s, p, ins, s') && s.threads[p].pc == Creating(cr) && PcFits(Creating(cr), |s.procs|)
    requires ins == CreateCode(s, p, cr) && PidOk(s, p)
    requires cr.i < |s.procs| ==> TableOk(s, cr.i)
    ensures ThreadOk(s', p)
  {
  }

  lemma OwnExit(s: State, p: nat, status: int, ex: ExitPc, ins: Instr, s': State)
    requires Own(s, p, ins, s') && s.threads[p].pc == Exiting(status, ex) && PcFits(Exiting(status, ex), |s.procs|)
    requires ins == ExitCode(s, p, status, ex) && !AsleepPc(s.threads[p]) && !ex.ExWake? && !ex.ExWakeHeld?
    ensures ThreadOk(s', p)
  {
    forall i | 0 <= i < |s.procs| && IsKid(s', p, i) ensures IsKid(s, p, i) { }
    forall q | 0 <= q < |s.procs| && Asleep(s', q) ensures Asleep(s, q) { }
  }

  lemma OwnWake(s: State, p: nat, status: int, ex: ExitPc, ins: Instr, s': State)
    requires Own(s, p, ins, s') && s.threads[p].pc == Exiting(status, ex) && PcFits(Exiting(status, ex), |s.procs|)
    requires ins == ExitCode(s, p, status, ex) && !AsleepPc(s.threads[p]) && (ex.ExWake? || ex.ExWakeHeld?)
    requires ex.ExWakeHeld? && ex.k != p ==> TableOk(s, ex.k) && !AsleepPc(s.threads[ex.k])
    ensures ThreadOk(s', p)
  {
    forall i | 0 <= i < |s.procs| && IsKid(s', p, i) ensures IsKid(s, p, i) { }
    forall q | 0 <= q < |s.procs| && Asleep(s', q)
      ensures Asleep(s, q) && (ex.ExWakeHeld? && ex.k == q == ex.chan ==> q == p)
    { }
  }

  lemma OwnWait(s: State, p: nat, wt: WaitPc, ins: Instr, s': State)
    requires Own(s, p, ins, s') && s.threads[p].pc == Waiting(wt) && PcFits(Waiting(wt), |s.procs|)
    requires ins == WaitCode(s, p, wt)
    ensures ThreadOk(s', p)
  {
    if wt.WtScan? || wt.WtCheck? {
      forall i | 0 <= i < |s.procs| && IsKid(s', p, i) ensures IsKid(s, p, i) { }
      if HasKid(s, p) && ins.pc.Waiting? && ins.w == Nothing {
        var i :| 0 <= i < |s.procs| && IsKid(s, p, i);
        assert IsKid(s', p, i);
      }
    }
  }

  lemma OwnTrap(s: State, p: nat, ins: Instr, s': State)
    requires Own(s, p, ins, s') && s.threads[p].trap != NoTrap && ins == TrapCode(s, P(p), s.threads[p])
    requires s.threads[p].pc.Creating? && s.threads[p].pc.cr.i < |s.procs| ==> TableOk(s, s.threads[p].pc.cr.i)
    ensures ThreadOk(s', p)
  {
  }
}
