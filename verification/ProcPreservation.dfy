/** The basic invariants survive every step of every CPU. */
module ProcPreservation {
  import opened Prelude
  import opened ProcModel
  import opened ProcInvariants
  import opened ProcStatements
  import opened ProcEffects

  /** A write changes parent links only to the acting process, to init, or to null. */
  lemma WriteParents(s: State, t: Tid, th: Thread, cur: set<Lock>, w: Write, op: Op, q: nat)
    requires Shape(s) && WriteFits(w, |s.procs|) && q < |s.procs| && TidFits(t, s)
    requires WriteOk(s, t, th, cur, w, op)
    ensures SlotFits(Apply(s, w).procs[q].parent, |s.procs|)
  {
    assert SlotShape(s, q);
  }

  /** What the lemmas below know about the step: the statement is well formed, and its effect. */
  ghost predicate GoodStep(s: State, c: nat, ins: Instr, s': State) {
    && Shape(s) && c < |s.cpus| && CpuShape(s, c) && RunOk(s, c)
    && ins.Do? && Addresses(ins, |s.procs|) && ThreadFits(Thread(ins.pc, ins.trap, false, false, None), |s.procs|)
    && Effect(s, c, ins, s')
  }

  lemma SlotStructure(s: State, c: nat, ins: Instr, s': State, q: nat)
    requires Sizes(s) && Sizes(s') && c < |s.cpus| && CpuShape(s, c) && RunOk(s, c)
    requires ins.Do? && Addresses(ins, |s.procs|) && ThreadFits(Thread(ins.pc, ins.trap, false, false, None), |s.procs|)
    requires |s'.procs| == |s.procs| && CpusFollow(s, s', c, ins.op) && ThreadsFollow(s, s', c, ins)
    requires q < |s.procs| && SlotShape(s, q) && OnOk(s, q) && TableOk(s, q)
    requires KindFollows(s, s.cpus[c].run, Th(s, s.cpus[c].run), ins)
    requires s.threads[q].on.Some? ==> RunOk(s, s.threads[q].on.value)
    requires ThreadKind(s.threads[q])
    ensures ThreadFits(s'.threads[q], |s.procs|) && OnOk(s', q) && ThreadKind(s'.threads[q])
  {
  }

  lemma CpuStructure(s: State, c: nat, ins: Instr, s': State, d: nat)
    requires GoodStep(s, c, ins, s') && d < |s.cpus| && CpuShape(s, d) && RunOk(s, d) && SchedKind(s.scheds[d])
    requires KindFollows(s, s.cpus[c].run, Th(s, s.cpus[c].run), ins)
    requires ins.op.Enter? ==> TableOk(s, ins.op.slot)
    requires (ins.w.Alloc? || ins.w.Free?) && s.cpus[d].run.P? ==> ins.w.i != s.cpus[d].run.slot
    ensures CpuShape(s', d) && RunOk(s', d) && SchedKind(s'.scheds[d])
  {
  }

  /** A slot that is allocated or freed has no CPU on its stack. */
  lemma TouchedIdle(s: State, c: nat, w: Write, op: Op, d: nat)
    requires Shape(s) && c < |s.cpus| && d < |s.cpus| && CpuShape(s, c) && CpuShape(s, d) && RunOk(s, d)
    requires CpuLocks(s, c) && CpuLocks(s, d) && s.cpus[d].run.P? && TableOk(s, s.cpus[d].run.slot)
    requires WriteFits(w, |s.procs|) && WriteOk(s, s.cpus[c].run, Th(s, s.cpus[c].run), HeldBy(s, c), w, op)
    requires w.Alloc? || w.Free?
    ensures w.i != s.cpus[d].run.slot
  {
    assert Holding(s, c, SlotLock(w.i));
  }

  ghost predicate TouchesIdle(s: State, w: Write) {
    w.Alloc? || w.Free? ==> forall d :: 0 <= d < |s.cpus| ==> s.cpus[d].run != P(w.i)
  }

  lemma AllIdle(s: State, c: nat, w: Write, op: Op)
    requires Structure(s) && Locks(s) && Table(s) && c < |s.cpus|
    requires WriteFits(w, |s.procs|) && CpuShape(s, c) &&
      WriteOk(s, s.cpus[c].run, Th(s, s.cpus[c].run), HeldBy(s, c), w, op)
    ensures TouchesIdle(s, w)
  {
    if w.Alloc? || w.Free? {
      forall d | 0 <= d < |s.cpus| ensures s.cpus[d].run != P(w.i) {
        if s.cpus[d].run.P? {
          assert CpuShape(s, d) && RunOk(s, d) && CpuLocks(s, c) && CpuLocks(s, d);
          assert TableOk(s, s.cpus[d].run.slot);
          TouchedIdle(s, c, w, op, d);
        }
      }
    }
  }

  lemma KeepsStructure(s: State, c: nat, ins: Instr, s': State)
    requires Structure(s) && Table(s) && GoodStep(s, c, ins, s') && TouchesIdle(s, ins.w)
    requires var t := s.cpus[c].run;
      KindFollows(s, t, Th(s, t), ins) && WriteOk(s, t, Th(s, t), Held(Th(s, t), t), ins.w, ins.op)
    ensures Structure(s')
  {
    var t := s.cpus[c].run;
    forall q | 0 <= q < |s.procs|
      ensures SlotShape(s', q) && OnOk(s', q) && ThreadKind(s'.threads[q])
    {
      assert SlotShape(s, q) && OnOk(s, q) && TableOk(s, q);
      if s.threads[q].on.Some? { assert RunOk(s, s.threads[q].on.value); }
      WriteParents(s, t, Th(s, t), Held(Th(s, t), t), ins.w, ins.op, q);
      SlotStructure(s, c, ins, s', q);
    }
    forall d | 0 <= d < |s.cpus|
      ensures CpuShape(s', d) && RunOk(s', d) && SchedKind(s'.scheds[d])
    {
      assert CpuShape(s, d) && RunOk(s, d);
      if ins.op.Enter? { assert TableOk(s, ins.op.slot); }
      CpuStructure(s, c, ins, s', d);
    }
  }

  lemma HeldElsewhere(s: State, c: nat, ins: Instr, s': State, d: nat)
    requires GoodStep(s, c, ins, s') && d < |s.cpus| && d != c && CpuShape(s, d) && CpuShape(s', d) && RunOk(s, d)
    requires ins.op.Enter? ==> TableOk(s, ins.op.slot) && ins.w.Put?
    requires (ins.w.Alloc? || ins.w.Free?) && s.cpus[d].run.P? ==> ins.w.i != s.cpus[d].run.slot
    requires ins.op.Enter? ==> s.procs[ins.op.slot].state == RUNNABLE
    ensures s'.cpus[d] == s.cpus[d] && HeldBy(s', d) == HeldBy(s, d)
  {
  }

  lemma HeldHere(s: State, c: nat, ins: Instr, s': State)
    requires GoodStep(s, c, ins, s') && CpuShape(s', c)
    requires KindFollows(s, s.cpus[c].run, Th(s, s.cpus[c].run), ins)
    requires var t, th := s.cpus[c].run, Th(s, s.cpus[c].run);
      LocksFollow(ins.op, Held(th, t), Held(th.(pc := ins.pc, trap := ins.trap), t), t)
    requires ins.op.Enter? ==> TableOk(s, ins.op.slot)
    ensures
      HeldBy(s', c) ==
        match ins.op
        case Lock(l) => HeldBy(s, c) + {l}
        case Unlock(l) => HeldBy(s, c) - {l}
        case Start(l) => HeldBy(s, c) - {l}
        case Resume(l) => HeldBy(s, c) - {l}
        case _ => HeldBy(s, c)
    ensures ins.op.Lock? ==> ins.op.l !in HeldBy(s, c)
    ensures ins.op.SetSie? || ins.op.Toggle? ==> HeldBy(s, c) == {}
  {
  }

  lemma CpuLocksHere(s: State, c: nat, ins: Instr, s': State)
    requires GoodStep(s, c, ins, s') && CpuShape(s', c) && CpuLocks(s, c)
    requires
      HeldBy(s', c) ==
        match ins.op
        case Lock(l) => HeldBy(s, c) + {l}
        case Unlock(l) => HeldBy(s, c) - {l}
        case Start(l) => HeldBy(s, c) - {l}
        case Resume(l) => HeldBy(s, c) - {l}
        case _ => HeldBy(s, c)
    requires ins.op.Lock? ==> ins.op.l !in HeldBy(s, c)
    requires ins.op.SetSie? || ins.op.Toggle? ==> HeldBy(s, c) == {}
    ensures CpuLocks(s', c)
  {
  }

  lemma KeepsLocks(s: State, c: nat, ins: Instr, s': State)
    requires Structure(s) && Structure(s') && Locks(s) && Table(s) && GoodStep(s, c, ins, s')
    requires TouchesIdle(s, ins.w)
    requires var t := s.cpus[c].run;
      && KindFollows(s, t, Th(s, t), ins)
      && LocksFollow(ins.op, Held(Th(s, t), t), Held(Th(s, t).(pc := ins.pc, trap := ins.trap), t), t)
    ensures Locks(s')
  {
    if ins.op.Enter? { assert TableOk(s, ins.op.slot); }
    forall d | 0 <= d < |s.cpus| ensures CpuShape(s', d) && CpuLocks(s', d) {
      assert CpuShape(s, d) && CpuShape(s', d) && RunOk(s, d) && CpuLocks(s, d) && CpuLocks(s, c);
      if d == c {
        HeldHere(s, c, ins, s');
        CpuLocksHere(s, c, ins, s');
      } else {
        HeldElsewhere(s, c, ins, s', d);
      }
    }
  }

  lemma KeepsCreation(s: State, c: nat, ins: Instr, s': State, q: nat)
    requires Sizes(s) && Sizes(s') && c < |s.cpus| && CpuShape(s, c) && RunOk(s, c) && ins.Do? &&
      Addresses(ins, |s.procs|)
    requires |s'.procs| == |s.procs| && CpusFollow(s, s', c, ins.op) && ThreadsFollow(s, s', c, ins) &&
      LocksElsewhere(s, s', c)
    requires TableFollows(s, s', ins.w) && CpuShape(s', c) && q < |s.procs| && BeingCreated(s, q)
    requires CreationFollows(s, Th(s, s.cpus[c].run), ins)
    requires ins.op.Enter? ==> s.cpus[c].run.S?
    requires s'.procs[q].pid == s.procs[q].pid && s'.procs[q].state == USED
    requires (ins.w.Alloc? || ins.w.Free?) ==> ins.w.i != s.cpus[s.held[SlotLock(q)]].run.slot
    requires RunOk(s, s.held[SlotLock(q)])
    requires forall l :: l in Held(Th(s', s'.cpus[c].run), s'.cpus[c].run) ==> Holding(s', c, l)
    ensures BeingCreated(s', q)
  {
    if s.held[SlotLock(q)] == c {
      assert SlotLock(q) in Held(Th(s', s'.cpus[c].run), s'.cpus[c].run);
    }
  }

  /** The slot whose thread takes the step. */
  lemma ActingTable(s: State, c: nat, ins: Instr, s': State, p: nat)
    requires GoodStep(s, c, ins, s') && p < |s.procs| && s.cpus[c].run == P(p) && TableOk(s, p)
    requires StateFollows(s, p, s.threads[p].pc, ins) && KindFollows(s, P(p), s.threads[p], ins)
    requires !(ins.w.Free? && ins.w.i == p) && !(ins.w.Alloc? && ins.w.i == p)
    ensures TableOk(s', p)
  {
  }

  /** A slot the statement neither runs on nor writes to. */
  lemma UntouchedTable(s: State, c: nat, ins: Instr, s': State, q: nat)
    requires GoodStep(s, c, ins, s') && q < |s.procs| && s.cpus[c].run != P(q) && SlotShape(s, q) && TableOk(s, q)
    requires ins.w == Nothing || ins.w.i != q
    requires ins.op != Enter(q)
    requires s'.procs[q].state == USED ==> BeingCreated(s', q)
    ensures TableOk(s', q)
  {
  }

  /** A slot the statement writes to without running on it. */
  lemma TouchedTable(s: State, c: nat, ins: Instr, s': State)
    requires Sizes(s) && Sizes(s') && c < |s.cpus| && TidFits(s.cpus[c].run, s) && ins.Do? && Addresses(ins, |s.procs|)
    requires ins.w != Nothing && s.cpus[c].run != P(ins.w.i) && SlotShape(s, ins.w.i) && TableOk(s, ins.w.i)
    requires |s'.procs| == |s.procs| && TableFollows(s, s', ins.w) && ThreadsFollow(s, s', c, ins)
    requires ThreadKind(s.threads[ins.w.i])
    requires var t := s.cpus[c].run;
      && WriteOk(s, t, Th(s, t), Held(Th(s, t), t), ins.w, ins.op)
      && (t.S? ==> KindFollows(s, t, Th(s, t), ins))
      && (ins.op.Enter? ==> t.S?)
    requires ins.w.Alloc? || ins.w.Free? ==> s.threads[ins.w.i].on == None
    requires s'.procs[ins.w.i].state == USED ==> BeingCreated(s', ins.w.i)
    ensures TableOk(s', ins.w.i)
  {
  }

  /** A slot that this very statement has allocated. */
  lemma CreationStarts(s: State, c: nat, ins: Instr, s': State, q: nat)
    requires GoodStep(s, c, ins, s') && Sizes(s') && CpuShape(s', c) && CpuLocks(s', c)
    requires q < |s.procs| && TableOk(s, q) && s.cpus[c].run != P(q) && s.procs[q].state != USED
    requires WriteOk(s, s.cpus[c].run, Th(s, s.cpus[c].run), HeldBy(s, c), ins.w, ins.op)
    requires CreationFollows(s, Th(s, s.cpus[c].run), ins)
    requires KindFollows(s, s.cpus[c].run, Th(s, s.cpus[c].run), ins)
    requires s'.procs[q].state == USED
    ensures BeingCreated(s', q)
  {
    assert SlotLock(q) in HeldBy(s', c);
  }

  lemma CreationTable(s: State, c: nat, ins: Instr, s': State, q: nat)
    requires Structure(s) && Structure(s') && Locks(s') && GoodStep(s, c, ins, s')
    requires TouchesIdle(s, ins.w) && q < |s.procs| && TableOk(s, q) && s.cpus[c].run != P(q)
    requires WriteOk(s, s.cpus[c].run, Th(s, s.cpus[c].run), HeldBy(s, c), ins.w, ins.op)
    requires CreationFollows(s, Th(s, s.cpus[c].run), ins)
    requires KindFollows(s, s.cpus[c].run, Th(s, s.cpus[c].run), ins)
    requires s'.procs[q].state == USED
    ensures BeingCreated(s', q)
  {
    assert CpuShape(s', c) && CpuLocks(s', c);
    if s.procs[q].state == USED {
      assert CpuShape(s, s.held[SlotLock(q)]) && RunOk(s, s.held[SlotLock(q)]);
      KeepsCreation(s, c, ins, s', q);
    } else {
      CreationStarts(s, c, ins, s', q);
    }
  }

  lemma KeepsTable(s: State, c: nat, ins: Instr, s': State)
    requires Structure(s) && Table(s) && Structure(s') && Locks(s') && GoodStep(s, c, ins, s')
    requires TouchesIdle(s, ins.w)
    requires var t, th := s.cpus[c].run, Th(s, s.cpus[c].run);
      && WriteOk(s, t, th, Held(th, t), ins.w, ins.op) && CreationFollows(s, th, ins) && KindFollows(s, t, th, ins)
      && (t.P? ==> StateFollows(s, t.slot, th.pc, ins))
    ensures Table(s')
  {
    forall q | 0 <= q < |s.procs| ensures TableOk(s', q) {
      assert SlotShape(s, q) && TableOk(s, q) && OnOk(s, q);
      if s.cpus[c].run == P(q) {
        ActingTable(s, c, ins, s', q);
      } else {
        if s'.procs[q].state == USED { CreationTable(s, c, ins, s', q); }
        if ins.w == Nothing || ins.w.i != q {
          UntouchedTable(s, c, ins, s', q);
        } else {
          TouchedTable(s, c, ins, s');
        }
      }
    }
  }
}
