/** One step of one CPU keeps the invariants. */
module ProcStep {
  import opened Prelude
  import opened ProcModel
  import opened ProcInvariants
  import opened ProcStatements
  import opened ProcPreservation
  import opened ProcFamily
  import opened ProcLocal

  lemma RunningThread(s: State, c: nat, p: nat)
    requires Base(s) && c < |s.cpus| && p < |s.procs| && s.cpus[c].run == P(p)
    ensures ThreadPre(s, p, s.threads[p]) && s.threads[p].on == Some(c) && HeldBy(s, c) == Held(s.threads[p], P(p))
  {
    assert CpuShape(s, c) && RunOk(s, c) && OnOk(s, p) && SlotShape(s, p) && TableOk(s, p) && ThreadOk(s, p) &&
        ParentOk(s, p);
  }

  lemma ThreadStatement(s: State, c: nat, p: nat, ch: Choice)
    requires Base(s) && c < |s.cpus| && p < |s.procs| && s.cpus[c].run == P(p) && s.threads[p].trap == NoTrap &&
      SlotShape(s, p)
    ensures InstrFits(ThreadCode(s, p, ch), |s.procs|)
    ensures StatementOk(s, P(p), s.threads[p], ThreadCode(s, p, ch))
  {
    RunningThread(s, c, p);
    var th := s.threads[p];
    match th.pc
    case Body => CallStatement(s, p, th, ch);
    case Creating(_) => CreateStatement(s, p, th);
    case Exiting(_, _) => ExitStatement(s, p, th);
    case Waiting(_) => WaitStatement(s, p, th);
    case _ => YieldStatement(s, p, th);
  }

  lemma InterruptStatement(s: State, c: nat)
    requires Base(s) && c < |s.cpus| && CpuShape(s, c)
    requires s.cpus[c].intr.sie && Th(s, s.cpus[c].run).trap == NoTrap
    ensures var th := Th(s, s.cpus[c].run);
      var ins := Do(Nothing, SetSie(false), th.pc, TkEnter);
      InstrFits(ins, |s.procs|) && StatementOk(s, s.cpus[c].run, th, ins)
  {
    assert RunOk(s, c) && CpuLocks(s, c);
    assert HeldBy(s, c) == {};
    if s.cpus[c].run.P? {
      var p := s.cpus[c].run.slot;
      RunningThread(s, c, p);
      assert TableOk(s, p);
    }
  }

  /** Every statement a CPU is about to execute is well formed. */
  lemma CodeStatement(s: State, c: nat, ch: Choice)
    requires Base(s) && c < |s.cpus| && CpuShape(s, c)
    ensures InstrFits(Code(s, c, ch), |s.procs|)
    ensures StatementOk(s, s.cpus[c].run, Th(s, s.cpus[c].run), Code(s, c, ch))
  {
    assert RunOk(s, c);
    var t := s.cpus[c].run;
    var th := Th(s, t);
    if ch == Interrupt {
      if s.cpus[c].intr.sie && th.trap == NoTrap { InterruptStatement(s, c); }
    } else if t.P? {
      RunningThread(s, c, t.slot);
      if th.trap == NoTrap { ThreadStatement(s, c, t.slot, ch); }
      else if ch == Go { TrapStatement(s, t.slot, th); }
    } else if ch == Go {
      if th.trap == NoTrap { SchedStatement(s, c, th); } else { SchedTrapStatement(s, c, th); }
    }
  }

  // ----- what the program points know

  lemma AsleepFrame(s: State, c: nat, ins: Instr, s': State, p: nat)
    requires GoodStep(s, c, ins, s') && p < |s.procs| && Sizes(s')
    requires var t, th := s.cpus[c].run, Th(s, s.cpus[c].run);
      && WriteOk(s, t, th, Held(th, t), ins.w, ins.op)
      && (AsleepPc(Thread(ins.pc, ins.trap, false, false, None)) ==> AsleepPc(th) || WaitLock in Held(th, t))
    requires Asleep(s', p)
    ensures Asleep(s, p) || (s.cpus[c].run == P(p) && WaitLock in HeldBy(s, c))
  {
  }

  /** Only a running thread is at a program point that holds locks, apart from those that wait for swtch. */
  lemma PcExclusive(s: State, c: nat, q: nat)
    requires Structure(s) && Locks(s) && Table(s) && c < |s.cpus| && q < |s.procs| && CpuShape(s, c) &&
      s.cpus[c].run != P(q)
    requires var pc := s.threads[q].pc;
      pc.Creating? || (pc.Exiting? && !pc.ex.ExDead?) || (pc.Waiting? && !pc.wt.WtSlept?)
    ensures HeldAtPc(s.threads[q].pc, q) !! HeldBy(s, c)
    ensures s.procs[q].state != UNUSED
    ensures s.procs[q].state == ZOMBIE ==> s.threads[q].pc.Exiting? && s.threads[q].pc.ex.ExGone?
  {
    assert TableOk(s, q) && OnOk(s, q);
    if s.threads[q].on.Some? { Exclusive(s, c, q); }
  }

  lemma ForeignLocal(s: State, c: nat, ins: Instr, s': State, q: nat)
    requires Base(s) && Shape(s') && GoodStep(s, c, ins, s') && q < |s.procs| && s.cpus[c].run != P(q)
    requires SlotShape(s, q) && SlotShape(s', q) && ThreadOk(s, q)
    requires s'.threads[q].pc == s.threads[q].pc && s'.threads[q].trap == s.threads[q].trap
    requires var t, th := s.cpus[c].run, Th(s, s.cpus[c].run);
      && WriteOk(s, t, th, Held(th, t), ins.w, ins.op)
      && (AsleepPc(Thread(ins.pc, ins.trap, false, false, None)) ==> AsleepPc(th) || WaitLock in Held(th, t))
    ensures ThreadOk(s', q)
  {
    var t, th, cur := s.cpus[c].run, Th(s, s.cpus[c].run), HeldBy(s, c);
    forall p | 0 <= p < |s.procs| && Asleep(s', p) ensures Asleep(s, p) || WaitLock in cur {
      AsleepFrame(s, c, ins, s', p);
    }
    assert Foreign(s, t, th, cur, ins, s', q);
    match s.threads[q].pc
    case Creating(cr) =>
      PcExclusive(s, c, q);
      if cr.i < |s.procs| { assert ParentOk(s, cr.i); }
      ForeignCreate(s, t, th, cur, ins, s', q, cr);
    case Exiting(status, ex) =>
      if !ex.ExDead? { PcExclusive(s, c, q); }
      ForeignExit(s, t, th, cur, ins, s', q, ex);
    case Waiting(wt) =>
      if !wt.WtSlept? { PcExclusive(s, c, q); }
      ForeignWait(s, t, th, cur, ins, s', q, wt);
    case _ =>
  }

  lemma OwnThread(s: State, c: nat, ch: Choice, ins: Instr, s': State, p: nat)
    requires Base(s) && Own(s, p, ins, s') && c < |s.cpus| && s.cpus[c].run == P(p) && CpuShape(s, c)
    requires s.threads[p].trap == NoTrap && ins == ThreadCode(s, p, ch)
    ensures ThreadOk(s', p)
  {
    var th := s.threads[p];
    match th.pc
    case Creating(cr) =>
      if cr.i < |s.procs| { assert TableOk(s, cr.i); }
      assert PidOk(s, p);
      OwnCreate(s, p, cr, ins, s');
    case Exiting(status, ex) =>
      if ex.ExWake? || ex.ExWakeHeld? {
        if ex.ExWakeHeld? && ex.k != p {
          assert RunOk(s, c);
          NotFallingAsleep(s, c, ex.k);
        }
        OwnWake(s, p, status, ex, ins, s');
      } else {
        OwnExit(s, p, status, ex, ins, s');
      }
    case Waiting(wt) => OwnWait(s, p, wt, ins, s');
    case _ =>
  }

  lemma OwnReady(s: State, c: nat, ins: Instr, s': State, p: nat)
    requires Base(s) && GoodStep(s, c, ins, s') && p < |s.procs| && s.cpus[c].run == P(p) && Sizes(s') &&
      SlotShape(s', p)
    ensures Own(s, p, ins, s')
  {
    RunningThread(s, c, p);
  }

  /** Where the statement of a running process comes from. */
  lemma CodeCases(s: State, c: nat, ch: Choice, p: nat)
    requires Shape(s) && c < |s.cpus| && p < |s.procs| && s.cpus[c].run == P(p) && SlotShape(s, p)
    ensures var ins, th := Code(s, c, ch), s.threads[p];
      ins.Do? ==>
        if ch == Interrupt then ins.w == Nothing && ins.pc == th.pc && ins.trap == TkEnter && th.trap == NoTrap
        else if th.trap != NoTrap then ins == TrapCode(s, P(p), th)
        else ins == ThreadCode(s, p, ch)
  {
  }

  lemma OwnInterrupt(s: State, p: nat, ins: Instr, s': State)
    requires Own(s, p, ins, s') && ins.w == Nothing && ins.pc == s.threads[p].pc && s.threads[p].trap == NoTrap &&
      ins.trap == TkEnter
    requires s.threads[p].pc.Creating? && s.threads[p].pc.cr.i < |s.procs| ==> TableOk(s, s.threads[p].pc.cr.i)
    ensures ThreadOk(s', p)
  {
    forall q, i | 0 <= i < |s.procs| ensures IsKid(s', q, i) == IsKid(s, q, i) { }
    forall q | 0 <= q < |s.procs| && Asleep(s', q) ensures Asleep(s, q) { }
    if HasKid(s, p) {
      var i :| 0 <= i < |s.procs| && IsKid(s, p, i);
      assert IsKid(s', p, i);
    }
  }

  lemma OwnLocal(s: State, c: nat, ch: Choice, ins: Instr, s': State, p: nat)
    requires Base(s) && GoodStep(s, c, ins, s') && p < |s.procs| && s.cpus[c].run == P(p) && Sizes(s')
    requires CpuShape(s, c) && ins == Code(s, c, ch) && SlotShape(s', p) && SlotShape(s, p)
    ensures ThreadOk(s', p)
  {
    OwnReady(s, c, ins, s', p);
    CodeCases(s, c, ch, p);
    var th := s.threads[p];
    if th.pc.Creating? && th.pc.cr.i < |s.procs| { assert TableOk(s, th.pc.cr.i); }
    if ch == Interrupt {
      OwnInterrupt(s, p, ins, s');
    } else if th.trap != NoTrap {
      OwnTrap(s, p, ins, s');
    } else {
      OwnThread(s, c, ch, ins, s', p);
    }
  }

  /** While CPU c holds the lock of slot k for another slot, slot k is not between release and switch in sleep. */
  lemma NotFallingAsleep(s: State, c: nat, k: nat)
    requires Base(s) && c < |s.cpus| && k < |s.procs| && CpuShape(s, c) && s.cpus[c].run != P(k) &&
      SlotLock(k) in HeldBy(s, c)
    ensures TableOk(s, k) && !AsleepPc(s.threads[k])
  {
    assert TableOk(s, k);
    if AsleepPc(s.threads[k]) {
      assert SlotLock(k) in HeldAtPc(s.threads[k].pc, k);
      PcExclusive(s, c, k);
    }
  }

  lemma KeepsLocal(s: State, c: nat, ch: Choice, ins: Instr, s': State)
    requires Base(s) && Structure(s') && GoodStep(s, c, ins, s') && TouchesIdle(s, ins.w) && CpuShape(s, c) &&
      ins == Code(s, c, ch)
    requires var t, th := s.cpus[c].run, Th(s, s.cpus[c].run);
      && WriteOk(s, t, th, Held(th, t), ins.w, ins.op)
      && (AsleepPc(Thread(ins.pc, ins.trap, false, false, None)) ==> AsleepPc(th) || WaitLock in Held(th, t))
    ensures Knowledge(s')
  {
    forall q | 0 <= q < |s.procs| ensures SlotShape(s', q) && ThreadOk(s', q) {
      assert SlotShape(s', q) && SlotShape(s, q) && ThreadOk(s, q);
      if s.cpus[c].run == P(q) {
        OwnLocal(s, c, ch, ins, s', q);
      } else if !((ins.w.Alloc? || ins.w.Free?) && ins.w.i == q) {
        ForeignLocal(s, c, ins, s', q);
      }
    }
  }
}
