/** Exactly-once reaping: the history of exit_process and wait_process over any run. */
module ProcHistory {
  import opened ProcModel
  import opened ProcInvariants
  import opened ProcStatements
  import opened ProcEffects

  predicate Exited(s: State, pid: nat) {
    exists i :: 0 <= i < |s.exits| && s.exits[i].pid == pid
  }

  predicate Reaped(s: State, pid: nat) {
    exists i :: 0 <= i < |s.reaps| && s.reaps[i].pid == pid
  }

  function Zombies(s: State): (r: set<nat>) {
    set p | 0 <= p < |s.procs| && s.procs[p].state == ZOMBIE
  }

  predicate SlotHistory(s: State, p: nat)
    requires p < |s.procs|
  {
    var pr := s.procs[p];
    match pr.state
    case UNUSED => true
    case ZOMBIE => Exit(pr.pid, pr.xstate) in s.exits && !Reaped(s, pr.pid)
    case _ => !Exited(s, pr.pid)
  }

  ghost predicate ExitsOk(s: State) {
    && (forall i :: 0 <= i < |s.exits| ==> s.exits[i].pid < s.nextpid)
    && (forall i, j :: 0 <= i < j < |s.exits| ==> s.exits[i].pid != s.exits[j].pid)
  }

  ghost predicate ReapsOk(s: State) {
    && (forall i :: 0 <= i < |s.reaps| ==> Exit(s.reaps[i].pid, s.reaps[i].status) in s.exits)
    && (forall i, j :: 0 <= i < j < |s.reaps| ==> s.reaps[i].pid != s.reaps[j].pid)
  }

  ghost predicate History(s: State) {
    && ExitsOk(s) && ReapsOk(s)
    && (forall p :: 0 <= p < |s.procs| ==> SlotHistory(s, p))
    && |s.exits| == |s.reaps| + |Zombies(s)|
  }

  /** The table part of a step whose write is guarded by WriteOk. */
  ghost predicate Writes(s: State, t: Tid, th: Thread, cur: set<Lock>, w: Write, op: Op, s': State) {
    && Sizes(s) && TidFits(t, s) && WriteFits(w, |s.procs|) && WriteOk(s, t, th, cur, w, op)
    && |s'.procs| == |s.procs| && TableFollows(s, s', w)
  }

  lemma SameZombies(s: State, t: Tid, th: Thread, cur: set<Lock>, w: Write, op: Op, s': State)
    requires Writes(s, t, th, cur, w, op, s')
    ensures Zombies(s') == if w.Die? then Zombies(s) + {w.i} else if w.Free? then Zombies(s) - {w.i} else Zombies(s)
    ensures w.Die? ==> w.i !in Zombies(s)
    ensures w.Free? ==> w.i in Zombies(s)
  {
  }

  lemma KeepsSlotHistory(s: State, t: Tid, th: Thread, cur: set<Lock>, w: Write, op: Op, s': State, p: nat)
    requires Writes(s, t, th, cur, w, op, s') && ExitsOk(s) && ReapsOk(s)
    requires p < |s.procs| && SlotHistory(s, p) && PidOk(s, p)
    requires w != Nothing ==> SlotHistory(s, w.i) && PidOk(s, w.i) && PidsDiffer(s, w.i, p)
    ensures SlotHistory(s', p)
  {
  }

  lemma KeepsExits(s: State, t: Tid, th: Thread, cur: set<Lock>, w: Write, op: Op, s': State)
    requires Writes(s, t, th, cur, w, op, s') && ExitsOk(s) && Family(s)
    requires w != Nothing ==> SlotHistory(s, w.i)
    ensures ExitsOk(s')
  {
    if w != Nothing { assert PidOk(s, w.i); }
  }

  lemma KeepsReaps(s: State, t: Tid, th: Thread, cur: set<Lock>, w: Write, op: Op, s': State)
    requires Writes(s, t, th, cur, w, op, s') && ReapsOk(s)
    requires w != Nothing ==> SlotHistory(s, w.i)
    ensures ReapsOk(s')
  {
    if w.Free? {
      assert forall i :: 0 <= i < |s.reaps| ==> s.reaps[i].pid != s.procs[w.i].pid;
    }
  }

  lemma KeepsHistory(s: State, t: Tid, th: Thread, cur: set<Lock>, w: Write, op: Op, s': State)
    requires Writes(s, t, th, cur, w, op, s') && History(s) && Family(s)
    ensures History(s')
  {
    SameZombies(s, t, th, cur, w, op, s');
    forall p | 0 <= p < |s.procs| ensures SlotHistory(s', p) {
      assert SlotHistory(s, p) && PidOk(s, p);
      if w != Nothing { assert SlotHistory(s, w.i) && PidOk(s, w.i) && PidsDiffer(s, w.i, p); }
      KeepsSlotHistory(s, t, th, cur, w, op, s', p);
    }
    if w != Nothing { assert SlotHistory(s, w.i); }
    KeepsExits(s, t, th, cur, w, op, s');
    KeepsReaps(s, t, th, cur, w, op, s');
  }
}
