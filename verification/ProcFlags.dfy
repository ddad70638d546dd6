/** The interrupt flag belongs to the thread, whatever other threads do to cpu->intena. */
module ProcFlags {
  import opened Prelude
  import opened Interrupts
  import opened ProcModel
  import opened ProcInvariants
  import opened ProcStatements
  import opened ProcEffects
  import opened ProcPreservation

  /** Where the flag of a thread is kept while it runs with interrupt state i. */
  predicate FlagOnCpu(th: Thread, p: nat, i: Intr) {
    if th.trap == NoTrap then
      if th.pc == Entry then true
      else if th.pc in {Yielded, Waiting(WtSlept)} then th.intena == th.flag
      else if HeldAtPc(th.pc, p) == {} then i.sie == th.flag
      else i.intena == th.flag
    else
      && th.flag && !i.sie
      && (if th.trap == TkParked then !th.intena else HeldInTrap(th.trap, p) != {} ==> !i.intena)
  }

  /** Where it is kept while the thread waits for swtch to come back. */
  predicate FlagOffCpu(th: Thread) {
    if th.trap == NoTrap then th.pc in {Yielded, Waiting(WtSlept)} ==> th.intena == th.flag
    else th.flag && !th.intena
  }

  predicate FlagOk(s: State, p: nat)
    requires Sizes(s) && p < |s.procs|
  {
    var th := s.threads[p];
    if th.on.Some? && th.on.value < |s.cpus| then FlagOnCpu(th, p, s.cpus[th.on.value].intr) else FlagOffCpu(th)
  }

  ghost predicate Flags(s: State)
    requires Sizes(s)
  {
    forall p :: 0 <= p < |s.procs| ==> FlagOk(s, p)
  }

  /** The thread that runs on CPU c. */
  lemma OwnFlag(s: State, c: nat, ins: Instr, s': State, p: nat)
    requires Sizes(s) && Sizes(s') && c < |s.cpus| == |s'.cpus| && p < |s.procs| == |s'.procs| && s.cpus[c].run == P(p)
    requires ins.Do? && Addresses(ins, |s.procs|) && ThreadsFollow(s, s', c, ins) && ControlFollows(s, s', c, ins.op)
    requires s.threads[p].on == Some(c) && FlagOk(s, p)
    requires CpuLocks(s, c) && HeldBy(s, c) == Held(s.threads[p], P(p))
    requires LocksFollow(ins.op, Held(s.threads[p], P(p)), Held(s.threads[p].(pc := ins.pc, trap := ins.trap), P(p)),
      P(p))
    requires FlagFollows(s.threads[p], ins)
    requires s.threads[p].trap == NoTrap && ins.trap != NoTrap ==> s.cpus[c].intr.sie
    ensures FlagOk(s', p)
  {
  }

  /** How a statement moves between the program points that keep the flag in different places. */
  predicate FlagFollows(th: Thread, ins: Instr)
    requires ins.Do?
  {
    && (ins.op.Start? <==> th.trap == NoTrap && th.pc == Entry)
    && (ins.op.Resume? <==> (th.trap == NoTrap && th.pc in {Yielded, Waiting(WtSlept)}) || th.trap == TkParked)
    && (ins.op.Leave? <==> (ins.trap == NoTrap && ins.pc in {Yielded, Waiting(WtSlept)}) || ins.trap == TkParked
                           || (ins.trap == NoTrap && ins.pc.Exiting? && ins.pc.ex.ExDead?))
    && (ins.op.SetSie? <==> (th.trap == NoTrap && ins.trap == TkEnter) || th.trap == TkReturn)
    && (th.trap == NoTrap && ins.trap != NoTrap ==> ins.trap == TkEnter && ins.op == SetSie(false) && ins.pc == th.pc)
    && (th.trap != NoTrap && ins.trap == NoTrap ==> ins.op == SetSie(true) && ins.pc == th.pc)
    && (ins.pc == Entry ==> th.pc == Entry && th.trap != NoTrap)
    && (th.trap != NoTrap ==> ins.pc == th.pc)
    && (th.trap == TkReturn ==> ins.trap == NoTrap)
    && (ins.op.Toggle? ==> th.trap == NoTrap && th.pc == Body && ins.pc == Body && ins.trap == NoTrap)
  }

  /** A thread that CPU c does not run. */
  lemma OtherFlag(s: State, c: nat, ins: Instr, s': State, q: nat)
    requires GoodStep(s, c, ins, s') && Sizes(s') && q < |s.procs| && s.cpus[c].run != P(q) && FlagOk(s, q) &&
      OnOk(s, q)
    requires TouchesIdle(s, ins.w)
    requires ins.op.Enter? ==> s.cpus[c].run == S(c) && s.threads[ins.op.slot].on == None && !s'.cpus[c].intr.sie
                               && Parked(s.threads[ins.op.slot]) && ins.w.Put?
    requires s.threads[q].on.Some? ==> s.threads[q].on.value < |s.cpus| && s.threads[q].on.value != c
    ensures FlagOk(s', q)
  {
  }

  lemma ThreadFlag(s: State, p: nat, ch: Choice)
    requires Sizes(s) && p < |s.procs| && PcFits(s.threads[p].pc, |s.procs|) && s.threads[p].trap == NoTrap
    requires ThreadKind(s.threads[p]) && ThreadCode(s, p, ch).Do?
    ensures FlagFollows(s.threads[p], ThreadCode(s, p, ch)) && ThreadCode(s, p, ch).trap == NoTrap
  {
  }

  lemma TrapFlag(s: State, p: nat)
    requires Sizes(s) && p < |s.procs| && TrapFits(s.threads[p].trap, |s.procs|) && s.threads[p].trap != NoTrap
    requires ThreadKind(s.threads[p]) && TrapCode(s, P(p), s.threads[p]).Do?
    ensures FlagFollows(s.threads[p], TrapCode(s, P(p), s.threads[p]))
  {
  }

  lemma CodeFlag(s: State, c: nat, ch: Choice, p: nat)
    requires Shape(s) && c < |s.cpus| && p < |s.procs| && s.cpus[c].run == P(p) && SlotShape(s, p) &&
      ThreadKind(s.threads[p])
    requires Held(s.threads[p], P(p)) == {} || !s.cpus[c].intr.sie
    requires Code(s, c, ch).Do?
    ensures FlagFollows(s.threads[p], Code(s, c, ch))
    ensures s.threads[p].trap == NoTrap && Code(s, c, ch).trap != NoTrap ==> s.cpus[c].intr.sie
  {
    if ch != Interrupt {
      if s.threads[p].trap == NoTrap { ThreadFlag(s, p, ch); } else { TrapFlag(s, p); }
    }
  }

  lemma KeepsFlags(s: State, c: nat, ch: Choice, ins: Instr, s': State)
    requires Structure(s) && Locks(s) && Table(s) && Flags(s) && Structure(s') && Locks(s') && GoodStep(s, c, ins, s')
    requires TouchesIdle(s, ins.w) && CpuShape(s, c) && ins == Code(s, c, ch)
    requires var t, th := s.cpus[c].run, Th(s, s.cpus[c].run);
      && KindFollows(s, t, th, ins)
      && LocksFollow(ins.op, Held(th, t), Held(th.(pc := ins.pc, trap := ins.trap), t), t)
    ensures Flags(s')
  {
    assert CpuLocks(s, c) && CpuLocks(s', c) && RunOk(s', c);
    forall q | 0 <= q < |s.procs| ensures FlagOk(s', q) {
      assert SlotShape(s, q) && FlagOk(s, q) && OnOk(s, q) && TableOk(s, q);
      if s.cpus[c].run == P(q) {
        CodeFlag(s, c, ch, q);
        OwnFlag(s, c, ins, s', q);
      } else {
        if ins.op.Enter? { assert TableOk(s, ins.op.slot) && CpuLocks(s', c); }
        OtherFlag(s, c, ins, s', q);
      }
    }
  }
}
