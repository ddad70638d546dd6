/**
 What the code guarantees statement by statement: the locks it takes and drops, and the
 conditions under which it writes to a slot.  Nothing here looks at more than one statement.
*/
module ProcStatements {
  import opened Prelude
  import opened ProcModel
  import opened ProcInvariants

  /** The locks held before and after a statement agree with its control part. */
  predicate LocksFollow(op: Op, cur: set<Lock>, next: set<Lock>, t: Tid) {
    match op
    case Lock(l) => l !in cur && next == cur + {l}
    case Unlock(l) => l in cur && next == cur - {l}
    case Start(l) => l in cur && next == cur - {l}
    case Resume(l) => l in cur && next == cur - {l}
    case Leave => t.P? && cur == {SlotLock(t.slot)}
    case Enter(i) => t.S? && cur == {SlotLock(i)}
    case SetSie(_) => cur == {} && next == {}
    case Toggle(_) => t.P? && cur == {} && next == {}
    case Local => next == cur
    case ClearProc => next == cur
  }

  /** Changes to slot i that need its own lock; t is the context that makes them. */
  predicate SlotLockedStep(o: Proc, n: Proc, i: nat, t: Tid, op: Op) {
    || (o.state == USED && o.parent != None && n == o.(state := RUNNABLE))
    || (o.state == SLEEPING && n == o.(state := RUNNABLE))
    || (o.state == RUNNABLE && op == Enter(i) && n == o.(state := RUNNING))
    || (o.state == RUNNING && t == P(i) && n == o.(state := RUNNABLE))
    || (o.state == RUNNING && t == P(i) && n == o.(chan := NoChan))
  }

  /** When context t, at program point th and with the locks in cur, may write w. */
  predicate WriteOk(s: State, t: Tid, th: Thread, cur: set<Lock>, w: Write, op: Op)
    requires Sizes(s) && TidFits(t, s) && WriteFits(w, |s.procs|) 
  {
    match w
    case Nothing => true
    case Put(i, pr) =>
      || pr == s.procs[i]
      || (SlotLock(i) in cur && SlotLockedStep(s.procs[i], pr, i, t, op))
      || (t == P(i) && s.procs[i].state == RUNNING && AsleepPc(th) &&
          pr == s.procs[i].(state := SLEEPING, chan := OnProc(i)))
      || (t.P? && t != P(i) && WaitLock in cur && SlotLock(i) in cur && Links(s.procs[i], pr, t.slot, s.procs[t.slot]))
      || (t.P? && t != P(i) && WaitLock in cur && IsKid(s, t.slot, i) && pr == s.procs[i].(parent := s.initproc))
    case Alloc(i) => s.procs[i].state == UNUSED && SlotLock(i) in cur && t.P? && t != P(i)
    case Die(i, _) =>
      && t == P(i) && s.procs[i].state == RUNNING && WaitLock in cur && s.initproc != Some(i)
      && SlotFits(s.procs[i].parent, |s.procs|) && NoKids(s, i, |s.procs|) && ParentAwake(s, i)
    case Free(i, q) =>
      t == P(q) && q != i && s.procs[i].state == ZOMBIE && WaitLock in cur && SlotLock(i) in cur && IsKid(s, q, i)
  }

  /** create_process makes process q the parent of a slot that is still being created. */
  predicate Links(o: Proc, n: Proc, q: nat, parent: Proc) {
    o.state == USED && o.parent == None && n == o.(parent := Some(q)) && parent.state == RUNNING && parent.pid < o.pid
  }

  /** The state of the acting slot after the statement fits where its thread continues. */
  predicate StateFollows(s: State, p: nat, cur: Pc, ins: Instr)
    requires Sizes(s) && p < |s.procs| && ins.Do? && WriteFits(ins.w, |s.procs|)
  {
    var pr := Apply(s, ins.w).procs[p];
    if ins.op.Leave? then
      && s.procs[p].state in {RUNNING, ZOMBIE}
      && match pr.state
         case RUNNABLE => Parked(Thread(ins.pc, ins.trap, false, false, None))
         case SLEEPING => ins.pc == Waiting(WtSlept) && ins.trap == NoTrap && pr.chan == OnProc(p)
         case ZOMBIE => ins.pc.Exiting? && ins.pc.ex == ExDead && ins.trap == NoTrap
         case _ => false
    else
      var gone := ins.pc.Exiting? && ins.pc.ex in {ExGone, ExDead};
      && pr.state == (if ins.w.Die? then ZOMBIE else RUNNING)
      && gone == ins.w.Die? && (gone ==> ins.trap == NoTrap && ins.pc.ex == ExGone)
  }

  /** A slot in creation stays with its creator until it is RUNNABLE. */
  predicate CreationFollows(s: State, cur: Thread, ins: Instr)
    requires Sizes(s) && ins.Do? && WriteFits(ins.w, |s.procs|)
  {
    && (ins.w.Alloc? ==> ins.pc == Creating(CrWait(ins.w.i, s.nextpid)) && ins.trap == NoTrap && !ins.op.Leave?)
    && (cur.trap == NoTrap && cur.pc.Creating? && (cur.pc.cr.CrWait? || cur.pc.cr.CrLink? || cur.pc.cr.CrReady?) ==>
          !ins.op.Leave? &&
          ((ins.w.Put? && ins.w.i == cur.pc.cr.i && ins.w.pr.state == RUNNABLE)
           || (ins.trap == NoTrap && ins.pc.Creating? && (ins.pc.cr.CrLink? || ins.pc.cr.CrReady?) &&
              ins.pc.cr.i == cur.pc.cr.i && ins.pc.cr.pid == cur.pc.cr.pid && !ins.w.Alloc?)))
  }

  predicate InstrFits(ins: Instr, n: nat) {
    Addresses(ins, n) && (ins.Do? ==> PcFits(ins.pc, n) && TrapFits(ins.trap, n))
  }

  /** Inside a wakeup loop on the channel of slot p that has not passed p yet. */
  predicate PendingPc(th: Thread, p: nat) {
    && th.trap == NoTrap && th.pc.Exiting?
    && (th.pc.ex.ExWake? || th.pc.ex.ExWakeHeld?) && th.pc.ex.chan == p && th.pc.ex.k <= p
  }

  /** A wakeup loop does not forget its sleeper, and a ZOMBIE handed to init starts one. */
  predicate WakeFollows(s: State, t: Tid, th: Thread, cur: set<Lock>, ins: Instr)
    requires Sizes(s) && ins.Do? && Addresses(ins, |s.procs|)
  {
    var next := Thread(ins.pc, ins.trap, false, false, None);
    && (th.pc.Exiting? && (th.pc.ex.ExWake? || th.pc.ex.ExWakeHeld?) && PendingPc(th, th.pc.ex.chan) ==>
          var p := th.pc.ex.chan;
          || t == P(p) || PendingPc(next, p)
          || (p < |s.procs| && SlotLock(p) in cur && WaitLock in cur && ins.w == Put(p, Woken(s.procs[p], OnProc(p)))))
    && (ins.w.Put? && ins.w.pr.parent != s.procs[ins.w.i].parent && ins.w.pr.state == ZOMBIE ==>
          s.initproc.Some? ==> PendingPc(next, s.initproc.value))
  }

  /** The kinds of program points the two kinds of context move between. */
  predicate KindFollows(s: State, t: Tid, th: Thread, ins: Instr)
    requires Sizes(s) && ins.Do? && Addresses(ins, |s.procs|)
  {
    var next := Thread(ins.pc, ins.trap, false, false, None);
    match t
    case P(_) => ThreadKind(next) && ins.pc != NoThread && !ins.op.ClearProc? && !ins.op.Enter?
    case S(_) =>
      && th.pc.Scheduling? && SchedKind(next) && (ins.w == Nothing || ins.w.Put?) && !ins.op.Leave?
      && (ins.op.ClearProc? <==> th.trap == NoTrap && th.pc.sd.SBack?)
      && (if ins.op.Enter? then
            && ins.pc == Scheduling(SBack(ins.op.slot)) && ins.trap == NoTrap
            && s.procs[ins.op.slot].state == RUNNABLE
            && ins.w == Put(ins.op.slot, s.procs[ins.op.slot].(state := RUNNING))
          else ins.pc.sd.SBack? ==> th.pc == ins.pc && !ins.op.ClearProc?)
  }

  /** All of the above for the context t that runs on a CPU, at th. */
  predicate StatementOk(s: State, t: Tid, th: Thread, ins: Instr)
    requires Sizes(s) && TidFits(t, s) && Addresses(ins, |s.procs|)
  {
    ins.Do? ==>
      && LocksFollow(ins.op, Held(th, t), Held(th.(pc := ins.pc, trap := ins.trap), t), t)
      && WriteOk(s, t, th, Held(th, t), ins.w, ins.op)
      && (AsleepPc(Thread(ins.pc, ins.trap, false, false, None)) ==> AsleepPc(th) || WaitLock in Held(th, t))
      && CreationFollows(s, th, ins)
      && WakeFollows(s, t, th, Held(th, t), ins)
      && KindFollows(s, t, th, ins)
      && (t.P? ==> StateFollows(s, t.slot, th.pc, ins))
  }

  /** What a running process thread may rely on when its statement starts. */
  predicate ThreadPre(s: State, p: nat, th: Thread)
    requires Sizes(s) && p < |s.procs|
  {
    && SlotShape(s, p) && SlotFits(s.initproc, |s.procs|) && th == s.threads[p]
    && ThreadKind(th) && th.pc != NoThread
    && ThreadOk(s, p)
    && s.procs[p].parent != Some(p)
    && s.procs[p].state == (if th.trap == NoTrap && th.pc.Exiting? && th.pc.ex == ExGone then ZOMBIE else RUNNING)
  }

  lemma CreateStatement(s: State, p: nat, th: Thread)
    requires Sizes(s) && p < |s.procs| && ThreadPre(s, p, th) && th.trap == NoTrap && th.pc.Creating?
    ensures InstrFits(CreateCode(s, p, th.pc.cr), |s.procs|)
    ensures StatementOk(s, P(p), th, CreateCode(s, p, th.pc.cr))
  {
  }

  lemma ExitStatement(s: State, p: nat, th: Thread)
    requires Sizes(s) && p < |s.procs| && ThreadPre(s, p, th) && th.trap == NoTrap && th.pc.Exiting?
    ensures InstrFits(ExitCode(s, p, th.pc.status, th.pc.ex), |s.procs|)
    ensures StatementOk(s, P(p), th, ExitCode(s, p, th.pc.status, th.pc.ex))
  {
  }

  lemma WaitStatement(s: State, p: nat, th: Thread)
    requires Sizes(s) && p < |s.procs| && ThreadPre(s, p, th) && th.trap == NoTrap && th.pc.Waiting?
    ensures InstrFits(WaitCode(s, p, th.pc.wt), |s.procs|)
    ensures StatementOk(s, P(p), th, WaitCode(s, p, th.pc.wt))
  {
  }

  lemma YieldStatement(s: State, p: nat, th: Thread)
    requires Sizes(s) && p < |s.procs| && ThreadPre(s, p, th) && th.trap == NoTrap
    ensures InstrFits(YieldCode(s, p), |s.procs|)
    ensures StatementOk(s, P(p), th, YieldCode(s, p))
  {
  }

  lemma CallStatement(s: State, p: nat, th: Thread, ch: Choice)
    requires Sizes(s) && p < |s.procs| && ThreadPre(s, p, th) && th.trap == NoTrap && th.pc == Body
    ensures InstrFits(CallCode(s, p, ch), |s.procs|)
    ensures StatementOk(s, P(p), th, CallCode(s, p, ch))
  {
  }

  lemma TrapStatement(s: State, p: nat, th: Thread)
    requires Sizes(s) && p < |s.procs| && ThreadPre(s, p, th) && th.trap != NoTrap
    ensures InstrFits(TrapCode(s, P(p), th), |s.procs|)
    ensures StatementOk(s, P(p), th, TrapCode(s, P(p), th))
  {
  }

  lemma SchedStatement(s: State, c: nat, th: Thread)
    requires Sizes(s) && c < |s.cpus| && ThreadFits(th, |s.procs|) && SchedKind(th) && th.trap == NoTrap
    ensures InstrFits(SchedCode(s, th.pc), |s.procs|)
    ensures StatementOk(s, S(c), th, SchedCode(s, th.pc))
  {
  }

  lemma SchedTrapStatement(s: State, c: nat, th: Thread)
    requires Sizes(s) && c < |s.cpus| && ThreadFits(th, |s.procs|) && SchedKind(th) && th.trap != NoTrap
    ensures InstrFits(TrapCode(s, S(c), th), |s.procs|)
    ensures StatementOk(s, S(c), th, TrapCode(s, S(c), th))
  {
  }
}
