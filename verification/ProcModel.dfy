/**
 The process table, the scheduler and the locking protocol of kernel/proc.c, together with
 the timer path of kernel/trap.c, as a transition system.

 One step of a CPU is one lock operation (or one context switch, or one purely local move)
 together with the unsynchronised code that follows it up to the next such point.  Any
 number of CPUs and any number of process slots is allowed; kernel/spinlock.c supplies the
 effect of a lock operation on the lock and on the interrupt state of the CPU.
*/
module ProcModel {
  import opened Prelude
  import opened Interrupts

  /** enum procstate (include/proc.h) */
  datatype PState = UNUSED | USED | SLEEPING | RUNNABLE | RUNNING | ZOMBIE

  /** A sleep channel: null, the address of a process slot, or &ticks. */
  datatype Chan = NoChan | OnProc(slot: nat) | OnTicks

  /** The fields of struct proc that p->lock and wait_lock protect. */
  datatype Proc = Proc(state: PState, chan: Chan, xstate: int, pid: nat, parent: Option<nat>)

  datatype Lock = SlotLock(slot: nat) | WaitLock | PidLock | TicksLock

  /** Program points of create_process, called from a process. */
  datatype CreatePc =
    | CrScan(i: nat)             // about to acquire proc[i].lock
    | CrCheck(i: nat)            // proc[i].lock held, state not read yet
    | CrPid(i: nat)              // inside allocpid
    | CrWait(i: nat, pid: nat)   // slot filled in, about to acquire wait_lock
    | CrLink(i: nat, pid: nat)   // wait_lock held, parent not set yet
    | CrReady(i: nat, pid: nat)  // wait_lock released again, not RUNNABLE yet
    | CrReturn(i: nat, pid: nat) // no lock held, about to read p->pid for the result

  /** Where exit_process continues after wakeup returns. */
  datatype After = ThenScan(j: nat) | ThenDie

  /** Program points of exit_process. */
  datatype ExitPc =
    | ExScan(j: nat)                              // re-parenting loop
    | ExWake(chan: nat, k: nat, after: After)     // wakeup loop, between two slots
    | ExWakeHeld(chan: nat, k: nat, after: After) // wakeup loop, proc[k].lock held
    | ExLock                                      // about to acquire the own lock
    | ExDie                                       // own lock and wait_lock held
    | ExGone                                      // ZOMBIE, own lock held, about to switch
    | ExDead                                      // switched out for good

  /** Program points of wait_process and of the sleep it calls. */
  datatype WaitPc =
    | WtScan(j: nat, kids: bool)
    | WtCheck(j: nat, kids: bool)  // the child's lock held
    | WtReaped                     // child freed, about to release wait_lock
    | WtUnlock                     // in sleep: own lock held, about to release wait_lock
    | WtSwitch                     // in sleep: about to record the channel and switch
    | WtSlept                      // switched out inside sleep
    | WtRelock                     // in sleep: about to acquire wait_lock again

  /** Program points of scheduler. */
  datatype SchedPc =
    | SLoop          // top of the endless loop
    | SOpen          // between intr_on and intr_off
    | SPick(i: nat)  // about to acquire proc[i].lock
    | SLook(i: nat)  // proc[i].lock held
    | SBack(i: nat)  // switched to proc[i]; continues here after switching back
    | SDone(i: nat)  // c->proc cleared, proc[i].lock still held

  datatype Pc =
    | NoThread | Entry | Body | Yielding | Yielded
    | Creating(cr: CreatePc)
    | Exiting(status: int, ex: ExitPc)
    | Waiting(wt: WaitPc)
    | Scheduling(sd: SchedPc)

  /** Program points of kerneltrap for a timer interrupt, on top of an interrupted Pc. */
  datatype Trap =
    | NoTrap
    | TkEnter          // about to acquire tickslock
    | TkWake(k: nat)   // wakeup(&ticks), between two slots
    | TkHeld(k: nat)   // wakeup(&ticks), proc[k].lock held
    | TkYield          // a process was interrupted: about to yield
    | TkSwitch         // in yield: own lock held
    | TkParked         // switched out inside that yield
    | TkReturn         // about to restore sstatus and return with sret

  /**
   A flow of control.  `intena` is the local variable of sched that survives swtch.
   `flag` and `on` are history variables: the interrupt flag the thread got when it started or
   last set itself, and the CPU that executes on its stack, if any.
  */
  datatype Thread = Thread(pc: Pc, trap: Trap, intena: bool, flag: bool, on: Option<nat>)

  /** The kernel stacks a CPU can execute on: that of a slot or its own scheduler stack. */
  datatype Tid = P(slot: nat) | S(cpu: nat)

  datatype Cpu = Cpu(proc: Option<nat>, run: Tid, intr: Intr)

  /** History: what exit_process was given and what wait_process handed out. */
  datatype Exit = Exit(pid: nat, status: int)
  datatype Reap = Reap(reaper: nat, pid: nat, status: int)

  datatype State = State(
    procs: seq<Proc>, threads: seq<Thread>, scheds: seq<Thread>, cpus: seq<Cpu>,
    held: map<Lock, nat>,  // lk->cpu of every lock with lk->locked == 1
    nextpid: nat, initproc: Option<nat>,
    exits: seq<Exit>, reaps: seq<Reap>)

  /** What the thread at Body does next (FnReturns: its function returns), or whether a timer interrupt comes first. */
  datatype Choice =
    | Go | CallYield | CallCreate | CallExit(status: int) | CallWait | CallIntrOn | CallIntrOff | FnReturns | Interrupt

  /** What a statement writes to the table, with the history it leaves behind. */
  datatype Write =
    | Nothing
    | Put(i: nat, pr: Proc)        // field assignments to proc[i]
    | Alloc(i: nat)                // pid, state and context of a new process
    | Die(i: nat, status: int)     // xstate and ZOMBIE
    | Free(i: nat, q: nat)         // free_process(proc[i]) in wait_process of proc[q]

  /** The control part of a statement. */
  datatype Op =
    | Local                 // no shared control state
    | SetSie(sie: bool)     // intr_on and intr_off in scheduler, and the trap entry and exit of the hardware
    | Toggle(sie: bool)     // intr_on and intr_off called by a thread function
    | Lock(l: Lock)         // acquire
    | Unlock(l: Lock)       // release
    | Start(l: Lock)        // release in forkret: the thread gets its interrupt flag
    | Resume(l: Lock)       // the end of sched, and the release after it
    | Leave                 // the checks of sched and swtch to the scheduler
    | Enter(slot: nat)      // c->proc = p and swtch to p
    | ClearProc             // c->proc = 0

  /** One statement: write, then the control part, then continue at (pc, trap). */
  datatype Instr =
    | Do(w: Write, op: Op, pc: Pc, trap: Trap)
    | Panics      // one of the panics that are not about locking
    | Refuses     // not a step of this program point

  /**
   Spin: the lock is taken by someone else, nothing happens.  LockPanic: a panic of acquire,
   release, pop_off or sched.  Panic: another panic.  Refused: the choice is not an option here.
  */
  datatype Res = Ok(s: State) | Spin | LockPanic | Panic | Refused

  // ----- shape: every index a program point carries is an index into the table

  predicate PcFits(pc: Pc, n: nat) {
    match pc
    case Creating(cr) => cr.i <= n && (cr.CrScan? || cr.i < n)
    case Exiting(_, ExScan(j)) => j <= n
    case Exiting(_, ExWake(q, k, a)) => q < n && k <= n && (a.ThenScan? ==> a.j <= n)
    case Exiting(_, ExWakeHeld(q, k, a)) => q < n && k < n && (a.ThenScan? ==> a.j <= n)
    case Waiting(WtScan(j, _)) => j <= n
    case Waiting(WtCheck(j, _)) => j < n
    case Scheduling(SPick(i)) => i <= n
    case Scheduling(SLook(i)) => i < n
    case Scheduling(SBack(i)) => i < n
    case Scheduling(SDone(i)) => i < n
    case _ => true
  }

  predicate TrapFits(trap: Trap, n: nat) {
    match trap
    case TkWake(k) => k <= n
    case TkHeld(k) => k < n
    case _ => true
  }

  predicate ThreadFits(t: Thread, n: nat) {
    PcFits(t.pc, n) && TrapFits(t.trap, n)
  }

  predicate TidFits(t: Tid, s: State) {
    match t case P(p) => p < |s.procs| case S(c) => c < |s.cpus|
  }

  predicate SlotFits(o: Option<nat>, n: nat) {
    o.Some? ==> o.value < n
  }

  predicate Sizes(s: State) {
    |s.threads| == |s.procs| && |s.scheds| == |s.cpus|
  }

  predicate SlotShape(s: State, p: nat)
    requires Sizes(s) && p < |s.procs|
  {
    ThreadFits(s.threads[p], |s.procs|) && SlotFits(s.procs[p].parent, |s.procs|)
  }

  predicate CpuShape(s: State, c: nat)
    requires Sizes(s) && c < |s.cpus|
  {
    && ThreadFits(s.scheds[c], |s.procs|)
    && TidFits(s.cpus[c].run, s) && (s.cpus[c].run.S? ==> s.cpus[c].run == S(c))
  }

  predicate Shape(s: State) {
    && Sizes(s)
    && SlotFits(s.initproc, |s.procs|)
    && (forall p :: 0 <= p < |s.procs| ==> SlotShape(s, p))
    && (forall c :: 0 <= c < |s.cpus| ==> CpuShape(s, c))
  }

  // ----- accessors

  function Th(s: State, t: Tid): (r: Thread)
    requires Sizes(s) && TidFits(t, s)
  {
    match t case P(p) => s.threads[p] case S(c) => s.scheds[c]
  }

  function SetTh(s: State, t: Tid, th: Thread): (r: State)
    requires Sizes(s) && TidFits(t, s)
  {
    match t
    case P(p) => s.(threads := s.threads[p := th])
    case S(c) => s.(scheds := s.scheds[c := th])
  }

  function Continue(s: State, t: Tid, pc: Pc, trap: Trap): (r: State)
    requires Sizes(s) && TidFits(t, s)
  {
    SetTh(s, t, Th(s, t).(pc := pc, trap := trap))
  }

  function SetIntr(s: State, c: nat, i: Intr): (r: State)
    requires c < |s.cpus|
  {
    s.(cpus := s.cpus[c := s.cpus[c].(intr := i)])
  }

  // ----- statements

  predicate Holding(s: State, c: nat, l: Lock) {
    l in s.held && s.held[l] == c
  }

  /** free_process, as far as the fields modelled here go. */
  const FREE_PROC := Proc(UNUSED, NoChan, 0, 0, None)

  const NEW_THREAD := Thread(Entry, NoTrap, false, false, None)
  const FREE_THREAD := Thread(NoThread, NoTrap, false, false, None)

  predicate WriteFits(w: Write, n: nat) {
    match w
    case Nothing => true
    case Put(i, pr) => i < n
    case Free(i, q) => i < n && q < n
    case _ => w.i < n
  }

  function Apply(s: State, w: Write): (r: State)
    requires Sizes(s) && WriteFits(w, |s.procs|)
  {
    match w
    case Nothing => s
    case Put(i, pr) => s.(procs := s.procs[i := pr])
    case Alloc(i) =>
      s.(procs := s.procs[i := s.procs[i].(pid := s.nextpid, state := USED)],
         threads := s.threads[i := NEW_THREAD], nextpid := s.nextpid + 1)
    case Die(i, status) =>
      s.(procs := s.procs[i := s.procs[i].(xstate := status, state := ZOMBIE)],
         exits := s.exits + [Exit(s.procs[i].pid, status)])
    case Free(i, q) =>
      s.(procs := s.procs[i := FREE_PROC], threads := s.threads[i := FREE_THREAD],
         reaps := s.reaps + [Reap(s.procs[q].pid, s.procs[i].pid, s.procs[i].xstate)])
  }

  /** The control part of a statement that context t executes on CPU c. */
  function Control(s: State, c: nat, t: Tid, op: Op, pc: Pc, trap: Trap): (r: Res)
    requires Sizes(s) && c < |s.cpus| && TidFits(t, s) && (op.Enter? ==> op.slot < |s.procs|)
  {
    var i := s.cpus[c].intr;
    match op
    case Local => Ok(Continue(s, t, pc, trap))
    case SetSie(b) => Ok(Continue(SetIntr(s, c, i.(sie := b)), t, pc, trap))
    case Toggle(b) => Ok(SetTh(SetIntr(s, c, i.(sie := b)), t, Th(s, t).(pc := pc, trap := trap, flag := b)))
    case Lock(l) =>
      // kernel/spinlock.c: acquire, at the moment its test-and-set succeeds
      if Holding(s, c, l) then LockPanic
      else if l in s.held then Spin
      else Ok(Continue(SetIntr(s, c, AfterPushOff(i)).(held := s.held[l := c]), t, pc, trap))
    case Unlock(l) =>
      // kernel/spinlock.c: release, with the panics of pop_off
      if !Holding(s, c, l) || PopPanics(i) then LockPanic
      else Ok(Continue(SetIntr(s, c, AfterPopOff(i)).(held := s.held - {l}), t, pc, trap))
    case Start(l) =>
      if !Holding(s, c, l) || PopPanics(i) then LockPanic
      else
        var s1 := SetIntr(s, c, AfterPopOff(i)).(held := s.held - {l});
        Ok(SetTh(s1, t, Th(s1, t).(pc := pc, trap := trap, flag := AfterPopOff(i).sie)))
    case Resume(l) =>
      var j := i.(intena := Th(s, t).intena);
      if !Holding(s, c, l) || PopPanics(j) then LockPanic
      else Ok(Continue(SetIntr(s, c, AfterPopOff(j)).(held := s.held - {l}), t, pc, trap))
    case Leave =>
      if t.S? || !Holding(s, c, SlotLock(t.slot)) || i.noff != 1 || s.procs[t.slot].state == RUNNING || i.sie
      then LockPanic
      else
        var th := Thread(pc, trap, i.intena, s.threads[t.slot].flag, None);
        Ok(s.(threads := s.threads[t.slot := th], cpus := s.cpus[c := s.cpus[c].(run := S(c))]))
    case Enter(q) =>
      Ok(Continue(s, t, pc, trap).(
           threads := s.threads[q := s.threads[q].(on := Some(c))],
           cpus := s.cpus[c := s.cpus[c].(proc := Some(q), run := P(q))]))
    case ClearProc => Ok(Continue(s.(cpus := s.cpus[c := s.cpus[c].(proc := None)]), t, pc, trap))
  }

  /** The slots a statement names exist. */
  predicate Addresses(ins: Instr, n: nat) {
    ins.Do? ==> WriteFits(ins.w, n) && (ins.op.Enter? ==> ins.op.slot < n)
  }

  function Perform(s: State, c: nat, t: Tid, ins: Instr): (r: Res)
    requires Sizes(s) && c < |s.cpus| && TidFits(t, s) && Addresses(ins, |s.procs|)
  {
    match ins
    case Do(w, op, pc, trap) => Control(Apply(s, w), c, t, op, pc, trap)
    case Panics => Panic
    case Refuses => Refused
  }

  // ----- the code of the scheduler

  function Then(op: Op, pc: Pc): (r: Instr) {
    Do(Nothing, op, pc, NoTrap)
  }

  function SchedCode(s: State, pc: Pc): (ins: Instr)
    requires PcFits(pc, |s.procs|)
    ensures Addresses(ins, |s.procs|)
  {
    match pc
    case Scheduling(SLoop) => Then(SetSie(true), Scheduling(SOpen))
    case Scheduling(SOpen) => Then(SetSie(false), Scheduling(SPick(0)))
    case Scheduling(SPick(i)) =>
      if i == |s.procs| then Then(Local, Scheduling(SLoop))
      else Then(Lock(SlotLock(i)), Scheduling(SLook(i)))
    case Scheduling(SLook(i)) =>
      if s.procs[i].state == RUNNABLE
      then Do(Put(i, s.procs[i].(state := RUNNING)), Enter(i), Scheduling(SBack(i)), NoTrap)
      else Then(Unlock(SlotLock(i)), Scheduling(SPick(i + 1)))
    case Scheduling(SBack(i)) => Then(ClearProc, Scheduling(SDone(i)))
    case Scheduling(SDone(i)) => Then(Unlock(SlotLock(i)), Scheduling(SPick(i + 1)))
    case _ => Refuses
  }

  // ----- the code of a process thread

  /** The thread's own code calls into the kernel. */
  function CallCode(s: State, p: nat, ch: Choice): (r: Instr) {
    match ch
    case CallYield => Then(Lock(SlotLock(p)), Yielding)
    case CallCreate => Then(Local, Creating(CrScan(0)))
    case CallExit(status) =>
      if s.initproc == Some(p) then Panics else Then(Lock(WaitLock), Exiting(status, ExScan(0)))
    case CallWait => Then(Lock(WaitLock), Waiting(WtScan(0, false)))
    case CallIntrOn => Then(Toggle(true), Body)
    case CallIntrOff => Then(Toggle(false), Body)
    case FnReturns => Panics
    case _ => Refuses
  }

  /** forkret up to the call of the thread function, and the two halves of yield. */
  function YieldCode(s: State, p: nat): (ins: Instr)
    requires Sizes(s) && p < |s.procs|
    ensures Addresses(ins, |s.procs|)
  {
    match s.threads[p].pc
    case Entry => Then(Start(SlotLock(p)), Body)
    case Yielding => Do(Put(p, s.procs[p].(state := RUNNABLE)), Leave, Yielded, NoTrap)
    case Yielded => Then(Resume(SlotLock(p)), Body)
    case _ => Refuses
  }

  /** create_process with alloc_process and allocpid inlined. */
  function CreateCode(s: State, p: nat, cr: CreatePc): (ins: Instr)
    requires PcFits(Creating(cr), |s.procs|)
    ensures Addresses(ins, |s.procs|)
  {
    match cr
    case CrScan(i) =>
      if i == |s.procs| then Panics else Then(Lock(SlotLock(i)), Creating(CrCheck(i)))
    case CrCheck(i) =>
      if s.procs[i].state == UNUSED then Then(Lock(PidLock), Creating(CrPid(i)))
      else Then(Unlock(SlotLock(i)), Creating(CrScan(i + 1)))
    case CrPid(i) => Do(Alloc(i), Unlock(PidLock), Creating(CrWait(i, s.nextpid)), NoTrap)
    case CrWait(i, pid) => Then(Lock(WaitLock), Creating(CrLink(i, pid)))
    case CrLink(i, pid) =>
      Do(Put(i, s.procs[i].(parent := Some(p))), Unlock(WaitLock), Creating(CrReady(i, pid)), NoTrap)
    case CrReady(i, pid) =>
      Do(Put(i, s.procs[i].(state := RUNNABLE)), Unlock(SlotLock(i)), Creating(CrReturn(i, pid)), NoTrap)
    case CrReturn(i, pid) => Then(Local, Body)
  }

  /** What create_process hands back at CrReturn: p->pid, read without a lock. */
  function CreateResult(s: State, i: nat): (r: nat)
    requires i < |s.procs|
  {
    s.procs[i].pid
  }

  /** The body of the wakeup loop for one slot, its lock held. */
  function Woken(pr: Proc, chan: Chan): (r: Proc) {
    if pr.state == SLEEPING && pr.chan == chan then pr.(state := RUNNABLE) else pr
  }

  function ExitCode(s: State, p: nat, status: int, ex: ExitPc): (ins: Instr)
    requires p < |s.procs| && PcFits(Exiting(status, ex), |s.procs|)
    ensures Addresses(ins, |s.procs|)
  {
    match ex
    case ExScan(j) =>
      if j == |s.procs| then
        if s.procs[p].parent.Some?
        then Then(Local, Exiting(status, ExWake(s.procs[p].parent.value, 0, ThenDie)))
        else Then(Local, Exiting(status, ExLock))
      else if s.procs[j].parent == Some(p) then
        var next := if s.procs[j].state == ZOMBIE && s.initproc.Some?
                    then ExWake(s.initproc.value, 0, ThenScan(j + 1)) else ExScan(j + 1);
        Do(Put(j, s.procs[j].(parent := s.initproc)), Local, Exiting(status, next), NoTrap)
      else Then(Local, Exiting(status, ExScan(j + 1)))
    case ExWake(q, k, after) =>
      if k == |s.procs| then Then(Local, Exiting(status, if after.ThenScan? then ExScan(after.j) else ExLock))
      else if k == p then Then(Local, Exiting(status, ExWake(q, k + 1, after)))
      else Then(Lock(SlotLock(k)), Exiting(status, ExWakeHeld(q, k, after)))
    case ExWakeHeld(q, k, after) =>
      Do(Put(k, Woken(s.procs[k], OnProc(q))), Unlock(SlotLock(k)), Exiting(status, ExWake(q, k + 1, after)), NoTrap)
    case ExLock => Then(Lock(SlotLock(p)), Exiting(status, ExDie))
    case ExDie => Do(Die(p, status), Unlock(WaitLock), Exiting(status, ExGone), NoTrap)
    case ExGone => Then(Leave, Exiting(status, ExDead))
    case ExDead => Panics
  }

  function WaitCode(s: State, p: nat, wt: WaitPc): (ins: Instr)
    requires p < |s.procs| && PcFits(Waiting(wt), |s.procs|)
    ensures Addresses(ins, |s.procs|)
  {
    match wt
    case WtScan(j, kids) =>
      if j == |s.procs| then
        if kids then Then(Lock(SlotLock(p)), Waiting(WtUnlock)) else Then(Unlock(WaitLock), Body)
      else if s.procs[j].parent == Some(p) then Then(Lock(SlotLock(j)), Waiting(WtCheck(j, kids)))
      else Then(Local, Waiting(WtScan(j + 1, kids)))
    case WtCheck(j, kids) =>
      if s.procs[j].state == ZOMBIE then Do(Free(j, p), Unlock(SlotLock(j)), Waiting(WtReaped), NoTrap)
      else Then(Unlock(SlotLock(j)), Waiting(WtScan(j + 1, true)))
    case WtReaped => Then(Unlock(WaitLock), Body)
    case WtUnlock => Then(Unlock(WaitLock), Waiting(WtSwitch))
    case WtSwitch =>
      Do(Put(p, s.procs[p].(chan := OnProc(p), state := SLEEPING)), Leave, Waiting(WtSlept), NoTrap)
    case WtSlept => Do(Put(p, s.procs[p].(chan := NoChan)), Resume(SlotLock(p)), Waiting(WtRelock), NoTrap)
    case WtRelock => Then(Lock(WaitLock), Waiting(WtScan(0, false)))
  }

  function ThreadCode(s: State, p: nat, ch: Choice): (ins: Instr)
    requires Sizes(s) && p < |s.procs| && PcFits(s.threads[p].pc, |s.procs|)
    ensures Addresses(ins, |s.procs|)
  {
    match s.threads[p].pc
    case Body => CallCode(s, p, ch)
    case Creating(cr) => if ch == Go then CreateCode(s, p, cr) else Refuses
    case Exiting(status, ex) => if ch == Go then ExitCode(s, p, status, ex) else Refuses
    case Waiting(wt) => if ch == Go then WaitCode(s, p, wt) else Refuses
    case _ => if ch == Go then YieldCode(s, p) else Refuses
  }

  // ----- kerneltrap for a timer interrupt; myproc() != 0 only on the stack of a slot

  function TrapCode(s: State, t: Tid, th: Thread): (ins: Instr)
    requires TidFits(t, s) && TrapFits(th.trap, |s.procs|)
    ensures Addresses(ins, |s.procs|)
  {
    match th.trap
    case NoTrap => Refuses
    case TkEnter => Do(Nothing, Lock(TicksLock), th.pc, TkWake(0))
    case TkWake(k) =>
      if k == |s.procs| then Do(Nothing, Unlock(TicksLock), th.pc, if t.P? then TkYield else TkReturn)
      else if t == P(k) then Do(Nothing, Local, th.pc, TkWake(k + 1))
      else Do(Nothing, Lock(SlotLock(k)), th.pc, TkHeld(k))
    case TkHeld(k) => Do(Put(k, Woken(s.procs[k], OnTicks)), Unlock(SlotLock(k)), th.pc, TkWake(k + 1))
    case TkReturn => Do(Nothing, SetSie(true), th.pc, NoTrap)
    case TkYield => if t.S? then Refuses else Do(Nothing, Lock(SlotLock(t.slot)), th.pc, TkSwitch)
    case TkSwitch =>
      if t.S? then Refuses
      else Do(Put(t.slot, s.procs[t.slot].(state := RUNNABLE)), Leave, th.pc, TkParked)
    case TkParked => if t.S? then Refuses else Do(Nothing, Resume(SlotLock(t.slot)), th.pc, TkReturn)
  }

  // ----- one step of a CPU

  function Code(s: State, c: nat, ch: Choice): (ins: Instr)
    requires Shape(s) && c < |s.cpus|
    ensures Addresses(ins, |s.procs|)
  {
    assert CpuShape(s, c) && (s.cpus[c].run.P? ==> SlotShape(s, s.cpus[c].run.slot));
    var t := s.cpus[c].run;
    var th := Th(s, t);
    if ch == Interrupt then
      // the hardware clears SIE when it takes the interrupt
      if s.cpus[c].intr.sie && th.trap == NoTrap then Do(Nothing, SetSie(false), th.pc, TkEnter) else Refuses
    else if th.trap != NoTrap then (if ch == Go then TrapCode(s, t, th) else Refuses)
    else
      match t
      case S(_) => if ch == Go then SchedCode(s, th.pc) else Refuses
      case P(p) => ThreadCode(s, p, ch)
  }

  function Exec(s: State, c: nat, ch: Choice): (r: Res)
    requires Shape(s) && c < |s.cpus|
  {
    assert CpuShape(s, c) && (s.cpus[c].run.P? ==> SlotShape(s, s.cpus[c].run.slot));
    Perform(s, c, s.cpus[c].run, Code(s, c, ch))
  }

  // ----- boot

  /**
   The state when main calls scheduler: init in slot 0 and further processes created by main,
   which have no parent (kernel/main.c:54-57); every CPU starts at the top of its loop.
   The interrupt flag of a CPU at that point is left open.
  */
  ghost predicate Boot(s: State) {
    && |s.threads| == |s.procs| && |s.scheds| == |s.cpus|
    && 1 < s.nextpid <= |s.procs| + 1
    && s.initproc == Some(0)
    && s.held == map[] && s.exits == [] && s.reaps == []
    && (forall p :: 0 <= p < |s.procs| ==>
          s.procs[p] == if p + 1 < s.nextpid then Proc(RUNNABLE, NoChan, 0, p + 1, None)
                        else Proc(UNUSED, NoChan, 0, 0, None))
    && (forall p :: 0 <= p < |s.threads| ==>
          s.threads[p] == Thread(if p + 1 < s.nextpid then Entry else NoThread, NoTrap, false, false, None))
    && (forall c :: 0 <= c < |s.scheds| ==> s.scheds[c] == Thread(Scheduling(SLoop), NoTrap, false, false, None))
    && (forall c :: 0 <= c < |s.cpus| ==>
          s.cpus[c].proc == None && s.cpus[c].run == S(c) && s.cpus[c].intr.noff == 0)
  }
}
