/** Processes that main created: they have no parent, and what they leave behind is never reaped. */
module ProcOrphans {
  import opened Prelude
  import opened ProcModel
  import opened ProcInvariants
  import opened ProcEffects
  import opened ProcHistory
  import opened ProcInduction
  import opened ProcTheorems

  // ----- who has a parent

  /** With n the value of nextpid when main called scheduler: only main's processes have no parent. */
  predicate OriginAt(s: State, n: nat, p: nat)
    requires p < |s.procs|
  {
    var pr := s.procs[p];
    && (pr.state == USED ==> pr.pid >= n)
    && (pr.state != UNUSED && pr.state != USED ==> (pr.parent == None <==> pr.pid < n))
  }

  ghost predicate Origin(s: State, n: nat) {
    && n <= s.nextpid
    && (forall p :: 0 <= p < |s.procs| ==> OriginAt(s, n, p))
    && (forall i :: 0 <= i < |s.reaps| ==> s.reaps[i].pid >= n)
  }

  lemma OriginWrite(s: State, t: Tid, th: Thread, cur: set<Lock>, w: Write, op: Op, s': State, n: nat, p: nat)
    requires Writes(s, t, th, cur, w, op, s') && s.initproc.Some? && n <= s.nextpid
    requires p < |s.procs| && OriginAt(s, n, p)
    ensures OriginAt(s', n, p)
  {
  }

  lemma KeepsOrigin(s: State, e: Event, s': State, n: nat)
    requires Inv(s) && StepTo(s, e, s') && Origin(s, n)
    ensures Origin(s', n)
  {
    GoodWrites(s, e, s');
    var ins, t := Code(s, e.cpu, e.ch), s.cpus[e.cpu].run;
    ApplyFrame(s, ins.w);
    forall p | 0 <= p < |s'.procs| ensures OriginAt(s', n, p) {
      assert OriginAt(s, n, p);
      OriginWrite(s, t, Th(s, t), HeldBy(s, e.cpu), ins.w, ins.op, s', n, p);
    }
    if ins.w.Free? {
      assert OriginAt(s, n, ins.w.i) && IsKid(s, ins.w.q, ins.w.i);
    }
  }

  lemma {:induction false} OriginRun(states: seq<State>, events: seq<Event>, j: nat)
    requires IsRun(states, events) && j < |states|
    ensures Origin(states[j], states[0].nextpid)
    decreases j
  {
    if j > 0 {
      OriginRun(states, events, j - 1);
      RunInv(states, events, j - 1);
      assert StepAt(states, events, j - 1);
      KeepsOrigin(states[j - 1], events[j - 1], states[j], states[0].nextpid);
    }
  }

  /**
   At every moment of every run, a process that has been made RUNNABLE has a parent if and only
   if create_process was called for it by a process, which its pid tells.
  */
  lemma ParentIffCreatedByProcess(states: seq<State>, events: seq<Event>, j: nat, p: nat)
    requires IsRun(states, events) && j < |states| && p < |states[j].procs|
    requires states[j].procs[p].state !in {UNUSED, USED}
    ensures states[j].procs[p].parent == None <==> states[j].procs[p].pid < states[0].nextpid
  {
    OriginRun(states, events, j);
    assert OriginAt(states[j], states[0].nextpid, p);
  }

  // ----- what becomes of them

  predicate IsZombie(s: State, p: nat) {
    p < |s.procs| && s.procs[p].state == ZOMBIE
  }

  lemma OrphanZombieAt(states: seq<State>, events: seq<Event>, p: nat, k: nat)
    requires IsRun(states, events) && k < |events| && IsZombie(states[k], p) && states[k].procs[p].parent == None
    ensures p < |states[k + 1].procs| && states[k + 1].procs[p] == states[k].procs[p]
  {
    RunInv(states, events, k);
    assert StepAt(states, events, k);
    OrphanZombieStays(states[k], events[k], states[k + 1], p);
  }

  lemma {:induction false} OrphanZombieForever(states: seq<State>, events: seq<Event>, p: nat, i: nat, j: nat)
    requires IsRun(states, events) && i <= j < |states| && IsZombie(states[i], p) && states[i].procs[p].parent == None
    ensures p < |states[j].procs| && states[j].procs[p] == states[i].procs[p]
    decreases j
  {
    if i < j {
      OrphanZombieForever(states, events, p, i, j - 1);
      OrphanZombieAt(states, events, p, j - 1);
    }
  }

  /**
   Which exited processes can be reaped: the others. A process of main keeps its slot for ever
   once it has exited, and no run ever reaps it; any other ZOMBIE has a live parent.
  */
  lemma ReapableIffCreatedByProcess(states: seq<State>, events: seq<Event>, i: nat, p: nat)
    requires IsRun(states, events) && i < |states| && IsZombie(states[i], p)
    ensures states[i].procs[p].pid >= states[0].nextpid <==>
              exists q: nat :: q < |states[i].procs| && IsKid(states[i], q, p) && Live(states[i].procs[q].state)
    ensures states[i].procs[p].pid < states[0].nextpid ==>
              forall j :: i <= j < |states| ==> p < |states[j].procs| && states[j].procs[p] == states[i].procs[p]
  {
    RunInv(states, events, i);
    ParentIffCreatedByProcess(states, events, i, p);
    var s := states[i];
    assert ParentOk(s, p);
    if s.procs[p].parent.Some? {
      assert IsKid(s, s.procs[p].parent.value, p);
    } else {
      forall j | i <= j < |states| ensures p < |states[j].procs| && states[j].procs[p] == s.procs[p] {
        OrphanZombieForever(states, events, p, i, j);
      }
    }
  }

  /** wait_process never hands out a pid that main created. */
  lemma NoReapOfOrphans(states: seq<State>, events: seq<Event>, j: nat)
    requires IsRun(states, events) && j < |states|
    ensures forall i :: 0 <= i < |states[j].reaps| ==> states[j].reaps[i].pid >= states[0].nextpid
  {
    OriginRun(states, events, j);
  }
}
