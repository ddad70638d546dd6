/**
 Things that do happen: two CPUs deadlock, a process leaves its slot for ever, a process is preempted,
 one yields to another, one sleeps until its child exits.
*/
module ProcReached {
  import opened Prelude
  import opened ProcModel
  import opened ProcInduction
  import opened ProcDeadlock
  import opened ProcScenarios

  /** A run can be extended by a step. */
  lemma Extend(s: State, e: Event, s': State)
    requires Reachable(s) && StepTo(s, e, s')
    ensures Reachable(s')
  {
    var states, events :| IsRun(states, events) && states[|events|] == s;
    var states', events' := states + [s'], events + [e];
    forall i | 0 <= i < |events'| ensures StepAt(states', events', i) {
      if i < |events| { assert StepAt(states, events, i); }
    }
    assert IsRun(states', events') && states'[|events'|] == s';
  }

  lemma BootReachable(s: State)
    requires Boot(s)
    ensures Reachable(s)
  {
    assert IsRun([s], []) && [s][0] == s;
  }

  lemma ReachableClosed()
    ensures Closed(s => Reachable(s))
  {
    forall s | Reachable(s) ensures Shape(s) { ReachableInv(s); }
    forall s, c: nat, ch, s' | Reachable(s) && Shape(s) && c < |s.cpus| && Exec(s, c, ch) == Ok(s')
      ensures Reachable(s')
    {
      Extend(s, Event(c, ch), s');
    }
  }

  // ----- the machine at boot

  function BootRow(pid: nat): (row: Row) {
    Row(Proc(RUNNABLE, NoChan, 0, pid, None), Entry, NoTrap, false)
  }

  /** Init in slot 0, and one more process of main in slot 1 if `two`. */
  function Start(two: bool): (g: Board) {
    Board(BootRow(1), if two then BootRow(2) else FREE_ROW, FREE_ROW, Side(SLoop, 0, false), Side(SLoop, 0, false),
          if two then 3 else 2)
  }

  lemma StartBoots(two: bool)
    ensures Boot(Machine(Start(two), map[]))
  {
  }

  lemma Starts(two: bool)
    ensures Closed(s => Reachable(s)) && Reachable(Machine(Start(two), map[]))
  {
    ReachableClosed();
    StartBoots(two);
    BootReachable(Machine(Start(two), map[]));
  }

  /** Init runs on CPU 0. */
  function Begun(two: bool): (g: Board) {
    Running(Start(two), 0, Body, 0)
  }

  lemma Begins(r: State -> bool, two: bool)
    requires Closed(r) && r(Machine(Start(two), map[]))
    ensures r(Machine(Begun(two), map[]))
  {
    Dispatches(r, Start(two), 0);
  }

  // ----- deadlock

  function Child(): (g: Board) {
    OnTo(Begun(false), 0, Body, NoTrap, 0).(b := Kid(RUNNABLE), nextpid := 3)
  }

  /** Init creates slot 1. */
  lemma InitCreates(r: State -> bool)
    requires Closed(r) && r(Machine(Begun(false), map[]))
    ensures r(Machine(Child(), map[]))
  {
    var g := Begun(false);
    GoesOn(r, g, map[], 0, CallCreate, Creating(CrScan(0)), NoTrap);
    InitPasses(r, g, map[], 0);
    InitFinds(r, g, map[], 1);
    InitLinks(r, Found(g, 1));
    InitReadies(r, Found(g, 1).(b := Kid(USED)));
  }

  /** Slot 1 runs on CPU 1 and exits. */
  lemma ChildExits(r: State -> bool)
    requires Closed(r) && r(Machine(Child(), map[]))
    ensures r(Machine(AtExit(Running(Child(), 1, Body, 0), ExWake(0, 2, ThenDie), 1), map[WaitLock := 1]))
  {
    Dispatches(r, Child(), 1);
    var g := Running(Child(), 1, Body, 0);
    ExitScans(r, g, 3);
    ExitWakes(r, g);
  }

  /** Init creates another process meanwhile. */
  lemma InitCreatesAgain(r: State -> bool, g: Board)
    requires Closed(r) && Runs(g, 0) && g.a.pc == Body && g.a.trap == NoTrap && g.left.noff == 0
    requires g.a.pr.state == RUNNING && g.b.pr.state == RUNNING && g.d == FREE_ROW
    requires r(Machine(g, map[WaitLock := 1]))
    ensures r(Machine(Found(g, 2), map[WaitLock := 1, SlotLock(2) := 0]))
  {
    var h := map[WaitLock := 1];
    GoesOn(r, g, h, 0, CallCreate, Creating(CrScan(0)), NoTrap);
    InitPasses(r, g, h, 0);
    InitPasses(r, g, h, 1);
    InitFinds(r, g, h, 2);
  }

  function BothStuck(): (s: State) {
    var g := AtExit(Running(Child(), 1, Body, 0), ExWake(0, 2, ThenDie), 1);
    Machine(Found(g, 2), map[WaitLock := 1, SlotLock(2) := 0])
  }

  lemma DeadlockRun(r: State -> bool)
    requires Closed(r) && r(Machine(Start(false), map[]))
    ensures r(BothStuck())
  {
    Begins(r, false);
    InitCreates(r);
    ChildExits(r);
    InitCreatesAgain(r, AtExit(Running(Child(), 1, Body, 0), ExWake(0, 2, ThenDie), 1));
  }

  lemma BothCrossed()
    ensures Sizes(BothStuck()) && |BothStuck().cpus| == 2 && |BothStuck().procs| == 3
    ensures Crossed(BothStuck(), 0, 1, 2)
  {
  }

  lemma BothStuckReachable()
    ensures Reachable(BothStuck())
  {
    Starts(false);
    DeadlockRun(s => Reachable(s));
  }

  /**
   From boot, with two CPUs and three slots: init creates a process, which exits on the other CPU
   while init creates another one; both CPUs then spin for ever.
  */
  lemma DeadlockIsReached() returns (s: State)
    ensures Reachable(s) && Shape(s) && |s.cpus| == 2 && |s.procs| == 3 && Crossed(s, 0, 1, 2)
    ensures forall ch :: NoStep(Exec(s, 0, ch)) && NoStep(Exec(s, 1, ch))
  {
    s := BothStuck();
    BothStuckReachable();
    BothCrossed();
    ReachableInv(s);
    forall ch ensures NoStep(Exec(s, 0, ch)) && NoStep(Exec(s, 1, ch)) { CreateAndExitBlock(s, 0, 1, 2, ch); }
  }

  // ----- a slot lost for ever

  lemma OrphanExits(r: State -> bool)
    requires Closed(r) && r(Machine(Begun(true), map[]))
    ensures r(Machine(AtExit(Running(Begun(true), 1, Body, 0), ExDie, 2), map[WaitLock := 1, SlotLock(1) := 1]))
  {
    Dispatches(r, Begun(true), 1);
    var g := Running(Begun(true), 1, Body, 0);
    ExitScans(r, g, 3);
    ExitLocks(r, g);
  }

  /** Just before the process becomes a ZOMBIE. */
  function Exiter(): (s: State) {
    Machine(AtExit(Running(Begun(true), 1, Body, 0), ExDie, 2), map[WaitLock := 1, SlotLock(1) := 1])
  }

  lemma ExiterReachable()
    ensures Reachable(Exiter())
  {
    Starts(true);
    var r := s => Reachable(s);
    Begins(r, true);
    OrphanExits(r);
  }

  lemma ExiterDies()
    requires Shape(Exiter())
    ensures var t := Exec(Exiter(), 1, Go);
      t.Ok? && |t.s.procs| == 3 && t.s.procs[1].state == ZOMBIE && t.s.procs[1].parent == None
  {
  }

  /** A process that main created exits: its slot is a ZOMBIE that no other process may reap. */
  lemma OrphanIsReached() returns (s: State)
    ensures Reachable(s) && |s.procs| == 3 && s.procs[1].state == ZOMBIE && s.procs[1].parent == None
  {
    ExiterReachable();
    ReachableInv(Exiter());
    ExiterDies();
    s := Exec(Exiter(), 1, Go).s;
    Extend(Exiter(), Event(1, Go), s);
  }

  // ----- preemption

  function Ticked(): (g: Board) {
    Begun(false).(a := Begun(false).a.(flag := true))
  }

  /** Just before the yield in a timer interrupt gives up the CPU. */
  function Yielder(): (s: State) {
    Machine(Tick(Ticked(), TkSwitch, 1), map[SlotLock(0) := 0])
  }

  lemma TickRun(r: State -> bool)
    requires Closed(r) && r(Machine(Begun(false), map[]))
    ensures r(Yielder())
  {
    Interrupted(r, Begun(false));
    TickYields(r, Ticked());
  }

  lemma YielderReachable()
    ensures Reachable(Yielder())
  {
    Starts(false);
    var r := s => Reachable(s);
    Begins(r, false);
    TickRun(r);
  }

  lemma YielderParks()
    requires Shape(Yielder())
    ensures var t := Exec(Yielder(), 0, Go);
      t.Ok? && |t.s.procs| == |t.s.threads| == 3
      && t.s.threads[0].trap == TkParked && t.s.threads[0].pc == Body && t.s.procs[0].state == RUNNABLE
  {
  }

  /** A process that has called intr_on is switched out by a timer interrupt, though it did not yield. */
  lemma PreemptionIsReached() returns (s: State)
    ensures Reachable(s) && |s.procs| == |s.threads| == 3
    ensures s.threads[0].trap == TkParked && s.threads[0].pc == Body && s.procs[0].state == RUNNABLE
  {
    YielderReachable();
    ReachableInv(Yielder());
    YielderParks();
    s := Exec(Yielder(), 0, Go).s;
    Extend(Yielder(), Event(0, Go), s);
  }

  // ----- yield

  /** The scheduler of CPU 0 has the lock of slot 1 after slot 0 has yielded. */
  function Yielded0(): (s: State) {
    Machine(Sched(Yields(Begun(true)), 0, SLook(1), 1, false), map[SlotLock(1) := 0])
  }

  lemma YieldRun(r: State -> bool)
    requires Closed(r) && r(Machine(Begun(true), map[]))
    ensures r(Yielded0())
  {
    var g := Begun(true);
    Takes(r, g, map[], 0, CallYield, SlotLock(0), Yielding, NoTrap);
    YieldLeaves(r, g);
    YieldClears(r, g);
    YieldUnlocks(r, g);
    SchedLooks(r, Yields(g), 0, 1);
  }

  lemma YieldedReachable()
    ensures Reachable(Yielded0())
  {
    Starts(true);
    var r := s => Reachable(s);
    Begins(r, true);
    YieldRun(r);
  }

  lemma YieldedSwitches()
    requires Shape(Yielded0())
    ensures var t := Exec(Yielded0(), 0, Go);
      t.Ok? && |t.s.procs| == |t.s.threads| == 3 && |t.s.cpus| == 2
      && t.s.cpus[0].run == P(1) && t.s.threads[0].pc == Yielded && t.s.procs[0].state == RUNNABLE
  {
  }

  /** A process that has called yield is RUNNABLE in the middle of it, and its CPU runs another process. */
  lemma YieldIsReached() returns (s: State)
    ensures Reachable(s) && |s.procs| == |s.threads| == 3 && |s.cpus| == 2
    ensures s.cpus[0].run == P(1) && s.threads[0].pc == Yielded && s.procs[0].state == RUNNABLE
  {
    YieldedReachable();
    ReachableInv(Yielded0());
    YieldedSwitches();
    s := Exec(Yielded0(), 0, Go).s;
    Extend(Yielded0(), Event(0, Go), s);
  }

  // ----- sleep

  /** Just before init, whose child has not run yet, goes to sleep in wait_process. */
  function Sleeper(): (s: State) {
    Machine(Waits(Child(), WtSwitch, 1), map[SlotLock(0) := 0])
  }

  lemma SleepRun(r: State -> bool)
    requires Closed(r) && r(Machine(Child(), map[]))
    ensures r(Sleeper())
  {
    var g := Child();
    Takes(r, g, map[], 0, CallWait, WaitLock, Waiting(WtScan(0, false)), NoTrap);
    WaitPasses(r, g, 0, false);
    WaitFinds(r, g);
    WaitPasses(r, g, 2, true);
    WaitSleeps(r, g);
  }

  lemma SleeperReachable()
    ensures Reachable(Sleeper())
  {
    Starts(false);
    var r := s => Reachable(s);
    Begins(r, false);
    InitCreates(r);
    SleepRun(r);
  }

  lemma SleeperSleeps()
    requires Shape(Sleeper())
    ensures var t := Exec(Sleeper(), 0, Go);
      t.Ok? && |t.s.procs| == 3 && t.s.procs[0].state == SLEEPING && t.s.procs[1].state == RUNNABLE
      && t.s.procs[1].parent == Some(0)
  {
  }

  /** A process that calls wait_process while its only child is RUNNABLE sleeps. */
  lemma SleepIsReached() returns (s: State)
    ensures Reachable(s) && |s.procs| == 3 && s.procs[0].state == SLEEPING
    ensures s.procs[1].state == RUNNABLE && s.procs[1].parent == Some(0)
  {
    SleeperReachable();
    ReachableInv(Sleeper());
    SleeperSleeps();
    s := Exec(Sleeper(), 0, Go).s;
    Extend(Sleeper(), Event(0, Go), s);
  }
}
