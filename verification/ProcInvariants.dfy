/** The inductive invariants of the transition system in ProcModel. */
module ProcInvariants {
  import opened Prelude
  import opened ProcModel

  // ----- which locks a flow of control holds at which program point

  function HeldAtPc(pc: Pc, p: nat): (r: set<Lock>) {
    match pc
    case Entry => {SlotLock(p)}
    case Yielding => {SlotLock(p)}
    case Yielded => {SlotLock(p)}
    case Creating(CrCheck(i)) => {SlotLock(i)}
    case Creating(CrPid(i)) => {SlotLock(i), PidLock}
    case Creating(CrWait(i, _)) => {SlotLock(i)}
    case Creating(CrLink(i, _)) => {SlotLock(i), WaitLock}
    case Creating(CrReady(i, _)) => {SlotLock(i)}
    case Exiting(_, ExScan(_)) => {WaitLock}
    case Exiting(_, ExWake(_, _, _)) => {WaitLock}
    case Exiting(_, ExWakeHeld(_, k, _)) => {WaitLock, SlotLock(k)}
    case Exiting(_, ExLock) => {WaitLock}
    case Exiting(_, ExDie) => {WaitLock, SlotLock(p)}
    case Exiting(_, ExGone) => {SlotLock(p)}
    case Waiting(WtScan(_, _)) => {WaitLock}
    case Waiting(WtCheck(j, _)) => {WaitLock, SlotLock(j)}
    case Waiting(WtReaped) => {WaitLock}
    case Waiting(WtUnlock) => {WaitLock, SlotLock(p)}
    case Waiting(WtSwitch) => {SlotLock(p)}
    case Waiting(WtSlept) => {SlotLock(p)}
    case Scheduling(SLook(i)) => {SlotLock(i)}
    case Scheduling(SBack(i)) => {SlotLock(i)}
    case Scheduling(SDone(i)) => {SlotLock(i)}
    case _ => {}
  }

  function HeldInTrap(trap: Trap, p: nat): (r: set<Lock>) {
    match trap
    case TkWake(_) => {TicksLock}
    case TkHeld(k) => {TicksLock, SlotLock(k)}
    case TkSwitch => {SlotLock(p)}
    case TkParked => {SlotLock(p)}
    case _ => {}
  }

  function Held(th: Thread, t: Tid): (r: set<Lock>) {
    var p := if t.P? then t.slot else 0;
    if th.trap == NoTrap then HeldAtPc(th.pc, p) else HeldInTrap(th.trap, p)
  }

  /** The locks the context running on CPU c holds according to its program point. */
  function HeldBy(s: State, c: nat): (r: set<Lock>)
    requires Sizes(s) && c < |s.cpus| && TidFits(s.cpus[c].run, s)
  {
    Held(Th(s, s.cpus[c].run), s.cpus[c].run)
  }

  // ----- structure

  predicate SchedKind(th: Thread) {
    && th.pc.Scheduling? && !th.trap.TkYield? && !th.trap.TkSwitch? && !th.trap.TkParked?
    && (th.trap != NoTrap ==> HeldAtPc(th.pc, 0) == {})
  }

  /** Only a program point without locks is ever interrupted. */
  predicate ThreadKind(th: Thread) {
    && !th.pc.Scheduling?
    && (th.trap != NoTrap ==>
          HeldAtPc(th.pc, 0) == {} && th.pc != NoThread && !(th.pc.Exiting? && th.pc.ex == ExDead))
  }

  predicate RunOk(s: State, c: nat)
    requires Sizes(s) && c < |s.cpus| && TidFits(s.cpus[c].run, s)
  {
    match s.cpus[c].run
    case S(d) =>
      d == c && s.scheds[c].pc.Scheduling? &&
      s.cpus[c].proc == if s.scheds[c].pc.sd.SBack? then Some(s.scheds[c].pc.sd.i) else None
    case P(p) =>
      && s.cpus[c].proc == Some(p)
      && s.threads[p].on == Some(c)
      && s.scheds[c].pc == Scheduling(SBack(p)) && s.scheds[c].trap == NoTrap
  }

  predicate OnOk(s: State, p: nat)
    requires Sizes(s) && p < |s.procs|
  {
    s.threads[p].on.Some? ==>
      s.threads[p].on.value < |s.cpus| && s.cpus[s.threads[p].on.value].run == P(p)
  }

  ghost predicate Structure(s: State) {
    && Shape(s)
    && (forall c :: 0 <= c < |s.cpus| ==> CpuShape(s, c) && RunOk(s, c) && SchedKind(s.scheds[c]))
    && (forall p :: 0 <= p < |s.procs| ==> OnOk(s, p) && ThreadKind(s.threads[p]))
  }

  // ----- locks

  ghost predicate CpuLocks(s: State, c: nat)
    requires Sizes(s) && c < |s.cpus| && TidFits(s.cpus[c].run, s)
  {
    && (forall l :: l in HeldBy(s, c) <==> Holding(s, c, l))
    && s.cpus[c].intr.noff == |HeldBy(s, c)|
    && (s.cpus[c].intr.noff > 0 ==> !s.cpus[c].intr.sie)
  }

  ghost predicate Locks(s: State)
    requires Shape(s)
  {
    && (forall c :: 0 <= c < |s.cpus| ==> CpuShape(s, c) && CpuLocks(s, c))
    && (forall l :: l in s.held ==> s.held[l] < |s.cpus|)
  }

  // ----- process states and program points

  predicate Parked(th: Thread) {
    && th.on == None
    && if th.trap == NoTrap then th.pc in {Entry, Yielded, Waiting(WtSlept)}
       else th.trap == TkParked
  }

  /** The creator of slot p, between allocpid and the release of the slot's lock. */
  predicate BeingCreated(s: State, p: nat)
    requires Sizes(s) && p < |s.procs|
  {
    && SlotLock(p) in s.held && s.held[SlotLock(p)] < |s.cpus|
    && var c := s.held[SlotLock(p)];
    && s.cpus[c].run.P? && s.cpus[c].run.slot < |s.procs|
    && var th := s.threads[s.cpus[c].run.slot];
    && th.trap == NoTrap && th.pc.Creating?
    && th.pc.cr in {CrWait(p, s.procs[p].pid), CrLink(p, s.procs[p].pid), CrReady(p, s.procs[p].pid)}
  }

  predicate TableOk(s: State, p: nat)
    requires Sizes(s) && p < |s.procs|
  {
    var pr, th := s.procs[p], s.threads[p];
    && (th.pc.NoThread? <==> pr.state == UNUSED)
    && match pr.state
       case UNUSED => pr.pid == 0 && pr.parent == None && th.on == None && th.trap == NoTrap
       case USED => th.on == None && th.trap == NoTrap && th.pc == Entry && BeingCreated(s, p)
       case RUNNABLE => Parked(th)
       case RUNNING => th.on.Some? && !(th.pc.Exiting? && th.pc.ex in {ExGone, ExDead})
       case SLEEPING => th.on == None && th.trap == NoTrap && th.pc == Waiting(WtSlept) && pr.chan == OnProc(p)
       case ZOMBIE => th.trap == NoTrap && th.pc.Exiting? && th.pc.ex == if th.on.Some? then ExGone else ExDead
  }

  ghost predicate Table(s: State)
    requires Sizes(s)
  {
    forall p :: 0 <= p < |s.procs| ==> TableOk(s, p)
  }


  // ----- what each program point knows about the table

  /** Asleep in wait_process, or past the point of no return in sleep. */
  predicate AsleepPc(th: Thread) {
    th.trap == NoTrap && th.pc in {Waiting(WtUnlock), Waiting(WtSwitch)}
  }

  predicate Asleep(s: State, p: nat)
    requires Sizes(s) && p < |s.procs|
  {
    s.procs[p].state == SLEEPING || AsleepPc(s.threads[p])
  }

  predicate IsKid(s: State, p: nat, i: nat)
    requires i < |s.procs|
  {
    s.procs[i].parent == Some(p)
  }

  predicate NoKids(s: State, p: nat, j: nat)
    requires j <= |s.procs|
  {
    forall i :: 0 <= i < j ==> !IsKid(s, p, i)
  }

  predicate HasKid(s: State, p: nat) {
    exists i :: 0 <= i < |s.procs| && IsKid(s, p, i)
  }

  /** What wait_process knows after it has looked at the first j slots. */
  predicate Scanned(s: State, p: nat, j: nat, kids: bool)
    requires j <= |s.procs|
  {
    && (forall i :: 0 <= i < j && IsKid(s, p, i) ==> s.procs[i].state != ZOMBIE)
    && (if kids then HasKid(s, p) else NoKids(s, p, j))
  }

  predicate Live(st: PState) {
    st in {SLEEPING, RUNNABLE, RUNNING}
  }

  predicate CreateOk(s: State, p: nat, cr: CreatePc)
    requires p < |s.procs| && PcFits(Creating(cr), |s.procs|)
  {
    match cr
    case CrPid(i) => s.procs[i].state == UNUSED
    case CrWait(i, pid) => s.procs[i] == Proc(USED, s.procs[i].chan, s.procs[i].xstate, pid, None) &&
        s.procs[p].pid < pid
    case CrLink(i, pid) => s.procs[i] == Proc(USED, s.procs[i].chan, s.procs[i].xstate, pid, None) &&
        s.procs[p].pid < pid
    case CrReady(i, pid) => s.procs[i].state == USED && s.procs[i].pid == pid && IsKid(s, p, i)
    case CrReturn(i, pid) => s.procs[i].state != USED && s.procs[i].pid == pid && IsKid(s, p, i)
    case _ => true
  }

  predicate ExitOk(s: State, p: nat, ex: ExitPc)
    requires Sizes(s) && p < |s.procs| && PcFits(Exiting(0, ex), |s.procs|) && SlotFits(s.procs[p].parent, |s.procs|)
  {
    && s.initproc != Some(p)
    && match ex
       case ExScan(j) => NoKids(s, p, j)
       case ExWake(q, k, ThenScan(j)) => NoKids(s, p, j)
       case ExWakeHeld(q, k, ThenScan(j)) => NoKids(s, p, j)
       case ExWake(q, k, ThenDie) =>
         NoKids(s, p, |s.procs|) && IsKid(s, q, p) && (q < k ==> !Asleep(s, q))
       case ExWakeHeld(q, k, ThenDie) =>
         NoKids(s, p, |s.procs|) && IsKid(s, q, p) && (q < k ==> !Asleep(s, q))
       case ExLock => NoKids(s, p, |s.procs|) && ParentAwake(s, p)
       case ExDie => NoKids(s, p, |s.procs|) && ParentAwake(s, p)
       case _ => true
  }

  predicate ParentAwake(s: State, p: nat)
    requires Sizes(s) && p < |s.procs| && SlotFits(s.procs[p].parent, |s.procs|)
  {
    s.procs[p].parent.Some? ==> !Asleep(s, s.procs[p].parent.value)
  }

  predicate WaitOk(s: State, p: nat, wt: WaitPc)
    requires p < |s.procs| && PcFits(Waiting(wt), |s.procs|)
  {
    match wt
    case WtScan(j, kids) => Scanned(s, p, j, kids)
    case WtCheck(j, kids) => Scanned(s, p, j, kids) && IsKid(s, p, j)
    case _ => true
  }

  predicate ThreadOk(s: State, p: nat)
    requires Sizes(s) && p < |s.procs| && SlotShape(s, p)
  {
    match s.threads[p].pc
    case Creating(cr) => CreateOk(s, p, cr)
    case Exiting(_, ex) => ExitOk(s, p, ex)
    case Waiting(wt) => WaitOk(s, p, wt)
    case _ => true
  }

  ghost predicate Knowledge(s: State)
    requires Shape(s)
  {
    forall p :: 0 <= p < |s.procs| ==> SlotShape(s, p) && ThreadOk(s, p)
  }

  // ----- the process family

  predicate ParentOk(s: State, i: nat)
    requires i < |s.procs|
  {
    s.procs[i].parent.Some? ==>
      var q := s.procs[i].parent.value;
      q < |s.procs| && s.procs[i].state != UNUSED && Live(s.procs[q].state) && s.procs[q].pid < s.procs[i].pid
  }

  predicate PidOk(s: State, i: nat)
    requires i < |s.procs|
  {
    s.procs[i].state != UNUSED ==> 0 < s.procs[i].pid < s.nextpid
  }

  predicate PidsDiffer(s: State, i: nat, j: nat)
    requires i < |s.procs| && j < |s.procs|
  {
    i != j && s.procs[i].state != UNUSED && s.procs[j].state != UNUSED ==> s.procs[i].pid != s.procs[j].pid
  }

  predicate InitOk(s: State) {
    && s.initproc.Some? && s.initproc.value < |s.procs|
    && var z := s.procs[s.initproc.value];
    && Live(z.state) && z.pid == 1 && z.parent == None
  }

  ghost predicate Family(s: State) {
    && InitOk(s) && 1 < s.nextpid
    && (forall i :: 0 <= i < |s.procs| ==> ParentOk(s, i) && PidOk(s, i))
    && (forall i, j :: 0 <= i < |s.procs| && 0 <= j < |s.procs| ==> PidsDiffer(s, i, j))
  }

  // ----- all but the wakeup and history parts

  ghost predicate Base(s: State) {
    Structure(s) && Locks(s) && Table(s) && Knowledge(s) && Family(s)
  }
}
