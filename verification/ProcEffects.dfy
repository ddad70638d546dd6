/** From one statement to one step: what a step of a CPU leaves alone, and what it keeps. */
module ProcEffects {
  import opened Prelude
  import opened Interrupts
  import opened ProcModel

  /** CPU c performs statement ins in the context it runs. */
  ghost predicate Steps(s: State, c: nat, ins: Instr, s': State) {
    && Sizes(s) && c < |s.cpus| && TidFits(s.cpus[c].run, s) && ins.Do? && Addresses(ins, |s.procs|)
    && (ins.op.Enter? ==> s.cpus[c].run.S?)
    && (ins.w.Alloc? || ins.w.Free? ==> s.cpus[c].run != P(ins.w.i))
    && Perform(s, c, s.cpus[c].run, ins) == Ok(s')
  }

  /** Locks change hands only between CPU c and nobody. */
  ghost predicate LocksElsewhere(s: State, s': State, c: nat) {
    && (forall l :: l in s.held && s.held[l] != c ==> l in s'.held && s'.held[l] == s.held[l])
    && (forall l :: l in s'.held && s'.held[l] != c ==> l in s.held && s.held[l] == s'.held[l])
  }

  ghost predicate CpusFollow(s: State, s': State, c: nat, op: Op)
    requires c < |s.cpus|
  {
    && |s'.cpus| == |s.cpus|
    && (forall d :: 0 <= d < |s.cpus| && d != c ==> s'.cpus[d] == s.cpus[d])
    && s'.cpus[c].run == (if op.Leave? then S(c) else if op.Enter? then P(op.slot) else s.cpus[c].run)
    && s'.cpus[c].proc == (if op.ClearProc? then None else if op.Enter? then Some(op.slot) else s.cpus[c].proc)
  }

  function IntrAfter(i: Intr, saved: bool, op: Op): (r: Intr) {
    match op
    case SetSie(b) => i.(sie := b)
    case Toggle(b) => i.(sie := b)
    case Lock(_) => AfterPushOff(i)
    case Unlock(_) => if PopPanics(i) then i else AfterPopOff(i)
    case Start(_) => if PopPanics(i) then i else AfterPopOff(i)
    case Resume(_) => if PopPanics(i) then i else AfterPopOff(i.(intena := saved))
    case _ => i
  }

  /** The lock bits and the interrupt state of CPU c after the control part of a statement. */
  ghost predicate ControlFollows(s: State, s': State, c: nat, op: Op)
    requires Sizes(s) && c < |s.cpus| == |s'.cpus| && TidFits(s.cpus[c].run, s)
  {
    && s'.cpus[c].intr == IntrAfter(s.cpus[c].intr, Th(s, s.cpus[c].run).intena, op)
    && (op.Unlock? || op.Start? || op.Resume? ==>
          Holding(s, c, op.l) && s'.held == s.held - {op.l} && !PopPanics(s.cpus[c].intr))
    && (op.Lock? ==> op.l !in s.held && s'.held == s.held[op.l := c])
    && (!(op.Unlock? || op.Start? || op.Resume? || op.Lock?) ==> s'.held == s.held)
  }

  ghost predicate ThreadsFollow(s: State, s': State, c: nat, ins: Instr)
    requires Sizes(s) && c < |s.cpus| && ins.Do? && Addresses(ins, |s.procs|)
  {
    var t, a := s.cpus[c].run, Apply(s, ins.w);
    && |s'.threads| == |s.threads|
    && (forall q :: 0 <= q < |s.threads| && P(q) != t ==>
          s'.threads[q] == if ins.op == Enter(q) then a.threads[q].(on := Some(c)) else a.threads[q])
    && (t.P? && t.slot < |s.threads| ==>
          && s'.threads[t.slot].pc == ins.pc && s'.threads[t.slot].trap == ins.trap
          && s'.threads[t.slot].on == (if ins.op.Leave? then None else s.threads[t.slot].on)
          && s'.threads[t.slot].intena == (if ins.op.Leave? then s.cpus[c].intr.intena else s.threads[t.slot].intena)
          && (!ins.op.Start? && !ins.op.Toggle? ==> s'.threads[t.slot].flag == s.threads[t.slot].flag)
          && (ins.op.Toggle? ==> s'.threads[t.slot].flag == ins.op.sie)
          && (ins.op.Start? && |s'.cpus| == |s.cpus| ==> s'.threads[t.slot].flag == s'.cpus[c].intr.sie))
  }

  ghost predicate SchedsFollow(s: State, s': State, c: nat, ins: Instr)
    requires Sizes(s) && c < |s.cpus| && ins.Do?
  {
    && |s'.scheds| == |s.scheds|
    && (forall d :: 0 <= d < |s.cpus| && S(d) != s.cpus[c].run ==> s'.scheds[d] == s.scheds[d])
    && (s.cpus[c].run == S(c) ==> s'.scheds[c].pc == ins.pc && s'.scheds[c].trap == ins.trap)
  }

  ghost predicate TableFollows(s: State, s': State, w: Write)
    requires Sizes(s) && WriteFits(w, |s.procs|)
  {
    var a := Apply(s, w);
    && s'.procs == a.procs && s'.initproc == s.initproc && s'.nextpid == a.nextpid
    && s'.exits == a.exits && s'.reaps == a.reaps
  }

  // the control part alone, from state a

  ghost predicate Controls(a: State, c: nat, t: Tid, op: Op, pc: Pc, trap: Trap, s': State) {
    && Sizes(a) && c < |a.cpus| && TidFits(t, a) && (op.Enter? ==> op.slot < |a.procs| && t.S?)
    && Control(a, c, t, op, pc, trap) == Ok(s')
  }

  lemma ControlTable(a: State, c: nat, t: Tid, op: Op, pc: Pc, trap: Trap, s': State)
    requires Controls(a, c, t, op, pc, trap, s')
    ensures s'.procs == a.procs && s'.initproc == a.initproc && s'.nextpid == a.nextpid
    ensures s'.exits == a.exits && s'.reaps == a.reaps
  {
  }

  lemma ControlCpus(a: State, c: nat, t: Tid, op: Op, pc: Pc, trap: Trap, s': State)
    requires Controls(a, c, t, op, pc, trap, s') && a.cpus[c].run == t
    ensures CpusFollow(a, s', c, op)
  {
  }

  lemma ControlThreads(a: State, c: nat, t: Tid, op: Op, pc: Pc, trap: Trap, s': State)
    requires Controls(a, c, t, op, pc, trap, s')
    ensures |s'.threads| == |a.threads|
    ensures forall q :: 0 <= q < |a.threads| && P(q) != t ==>
              s'.threads[q] == if op == Enter(q) then a.threads[q].(on := Some(c)) else a.threads[q]
    ensures t.P? ==> s'.threads[t.slot].pc == pc && s'.threads[t.slot].trap == trap
                     && s'.threads[t.slot].on == (if op.Leave? then None else a.threads[t.slot].on)
                     && s'.threads[t.slot].intena ==
                         (if op.Leave? then a.cpus[c].intr.intena else a.threads[t.slot].intena)
                     && (!op.Start? && !op.Toggle? ==> s'.threads[t.slot].flag == a.threads[t.slot].flag)
                     && (op.Toggle? ==> s'.threads[t.slot].flag == op.sie)
                     && (op.Start? ==> |s'.cpus| == |a.cpus| && s'.threads[t.slot].flag == s'.cpus[c].intr.sie)
  {
  }

  lemma ControlScheds(a: State, c: nat, t: Tid, op: Op, pc: Pc, trap: Trap, s': State)
    requires Controls(a, c, t, op, pc, trap, s')
    ensures |s'.scheds| == |a.scheds|
    ensures forall d :: 0 <= d < |a.scheds| && S(d) != t ==> s'.scheds[d] == a.scheds[d]
    ensures t.S? ==> s'.scheds[t.cpu].pc == pc && s'.scheds[t.cpu].trap == trap
  {
  }

  lemma ControlIntr(a: State, c: nat, t: Tid, op: Op, pc: Pc, trap: Trap, s': State)
    requires Controls(a, c, t, op, pc, trap, s') && a.cpus[c].run == t
    ensures |s'.cpus| == |a.cpus| && ControlFollows(a, s', c, op)
  {
  }

  lemma ControlLocks(a: State, c: nat, t: Tid, op: Op, pc: Pc, trap: Trap, s': State)
    requires Controls(a, c, t, op, pc, trap, s')
    ensures LocksElsewhere(a, s', c)
  {
  }

  ghost predicate Effect(s: State, c: nat, ins: Instr, s': State)
    requires Sizes(s) && c < |s.cpus| && ins.Do? && Addresses(ins, |s.procs|)
  {
    && TableFollows(s, s', ins.w) && |s'.procs| == |s.procs|
    && CpusFollow(s, s', c, ins.op)
    && ThreadsFollow(s, s', c, ins)
    && SchedsFollow(s, s', c, ins)
    && LocksElsewhere(s, s', c)
    && (TidFits(s.cpus[c].run, s) ==> ControlFollows(s, s', c, ins.op))
  }

  lemma ApplyFrame(s: State, w: Write)
    requires Sizes(s) && WriteFits(w, |s.procs|)
    ensures var a := Apply(s, w);
      && Sizes(a) && |a.procs| == |s.procs| && a.scheds == s.scheds && a.cpus == s.cpus && a.held == s.held
      && a.initproc == s.initproc && a.nextpid >= s.nextpid
    ensures forall q :: 0 <= q < |s.procs| && !((w.Alloc? || w.Free?) && w.i == q) ==>
      Apply(s, w).threads[q] == s.threads[q]
  {
  }

  lemma StepEffect(s: State, c: nat, ins: Instr, s': State)
    requires Steps(s, c, ins, s')
    ensures Effect(s, c, ins, s')
  {
    var a, t := Apply(s, ins.w), s.cpus[c].run;
    ApplyFrame(s, ins.w);
    ControlTable(a, c, t, ins.op, ins.pc, ins.trap, s');
    ControlCpus(a, c, t, ins.op, ins.pc, ins.trap, s');
    ControlThreads(a, c, t, ins.op, ins.pc, ins.trap, s');
    ControlScheds(a, c, t, ins.op, ins.pc, ins.trap, s');
    ControlIntr(a, c, t, ins.op, ins.pc, ins.trap, s');
    ControlLocks(a, c, t, ins.op, ins.pc, ins.trap, s');
  }
}
