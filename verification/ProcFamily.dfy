/** Process ids, parent links and what every program point knows about them. */
module ProcFamily {
  import opened ProcModel
  import opened ProcInvariants
  import opened ProcStatements
  import opened ProcEffects

  lemma KeepsPid(s: State, t: Tid, th: Thread, cur: set<Lock>, w: Write, op: Op, i: nat)
    requires Sizes(s) && WriteFits(w, |s.procs|) && TidFits(t, s) && i < |s.procs| && PidOk(s, i) && 0 < s.nextpid
    requires WriteOk(s, t, th, cur, w, op)
    ensures PidOk(Apply(s, w), i)
  {
  }

  lemma KeepsParent(s: State, t: Tid, th: Thread, cur: set<Lock>, w: Write, op: Op, i: nat)
    requires Sizes(s) && Family(s) && WriteFits(w, |s.procs|) && TidFits(t, s) && i < |s.procs|
    requires WriteOk(s, t, th, cur, w, op)
    ensures ParentOk(Apply(s, w), i)
  {
    assert ParentOk(s, i) && PidOk(s, i);
    if s.procs[i].parent.Some? {
      var q := s.procs[i].parent.value;
      assert ParentOk(s, q) && PidOk(s, q);
      assert IsKid(s, q, i);
    }
    if w != Nothing {
      assert ParentOk(s, w.i) && PidOk(s, w.i);
      assert PidsDiffer(s, w.i, s.initproc.value);
    }
  }

  lemma KeepsFamily(s: State, t: Tid, th: Thread, cur: set<Lock>, w: Write, op: Op, s': State)
    requires Sizes(s) && Family(s) && WriteFits(w, |s.procs|) && TidFits(t, s)
    requires WriteOk(s, t, th, cur, w, op) && TableFollows(s, s', w)
    ensures Family(s')
  {
    forall i | 0 <= i < |s.procs| ensures ParentOk(s', i) && PidOk(s', i) {
      assert PidOk(s, i);
      KeepsPid(s, t, th, cur, w, op, i);
      KeepsParent(s, t, th, cur, w, op, i);
      assert ParentOk(Apply(s, w), i) && PidOk(Apply(s, w), i);
    }
    forall i, j | 0 <= i < |s.procs| && 0 <= j < |s.procs| ensures PidsDiffer(s', i, j) {
      assert PidsDiffer(s, i, j) && PidOk(s, i) && PidOk(s, j);
    }
    assert ParentOk(s, s.initproc.value);
  }

  // ----- locks of different contexts

  /** What the thread of slot q holds, no other running context holds. */
  lemma Exclusive(s: State, c: nat, q: nat)
    requires Structure(s) && Locks(s) && c < |s.cpus| && q < |s.procs| && CpuShape(s, c)
    requires s.cpus[c].run != P(q) && s.threads[q].on.Some?
    ensures Held(s.threads[q], P(q)) !! HeldBy(s, c)
  {
    var d := s.threads[q].on.value;
    assert OnOk(s, q);
    assert CpuShape(s, d) && CpuLocks(s, d) && CpuLocks(s, c);
    forall l | l in Held(s.threads[q], P(q)) ensures l !in HeldBy(s, c) {
      assert Holding(s, d, l);
    }
  }
}
