/**
 Stretches of runs on a machine with two CPUs and three slots, step by step, for any property
 of states that steps preserve.
*/
module ProcScenarios {
  import opened Prelude
  import opened Interrupts
  import opened ProcModel

  ghost predicate Closed(r: State -> bool) {
    && (forall s :: r(s) ==> Shape(s))
    && (forall s, c: nat, ch, s' :: r(s) && Shape(s) && c < |s.cpus| && Exec(s, c, ch) == Ok(s') ==> r(s'))
  }

  // ----- the machine

  /** A slot and its thread. */
  datatype Row = Row(pr: Proc, pc: Pc, trap: Trap, flag: bool)

  /** CPU c; it runs slot c once its scheduler has switched there. */
  datatype Side = Side(sd: SchedPc, noff: nat, sie: bool)

  datatype Board = Board(a: Row, b: Row, d: Row, left: Side, right: Side, nextpid: nat)

  const FREE_ROW := Row(FREE_PROC, NoThread, NoTrap, false)

  function RowThread(row: Row, on: Option<nat>): (th: Thread) {
    Thread(row.pc, row.trap, false, row.flag, on)
  }

  function SideCpu(side: Side, c: nat): (cpu: ProcModel.Cpu) {
    var on := side.sd == SBack(c);
    ProcModel.Cpu(if on then Some(c) else None, if on then P(c) else S(c), Intr(side.noff, false, side.sie))
  }

  function Machine(g: Board, held: map<Lock, nat>): (s: State) {
    State([g.a.pr, g.b.pr, g.d.pr],
          [RowThread(g.a, if g.left.sd == SBack(0) then Some(0) else None),
           RowThread(g.b, if g.right.sd == SBack(1) then Some(1) else None),
           RowThread(g.d, None)],
          [Thread(Scheduling(g.left.sd), NoTrap, false, false, None),
           Thread(Scheduling(g.right.sd), NoTrap, false, false, None)],
          [SideCpu(g.left, 0), SideCpu(g.right, 1)],
          held, g.nextpid, Some(0), [], [])
  }

  // ----- a step of CPU c in slot c

  function RowOf(g: Board, c: nat): (row: Row) {
    if c == 0 then g.a else if c == 1 then g.b else g.d
  }

  function SideOf(g: Board, c: nat): (side: Side) {
    if c == 0 then g.left else g.right
  }

  function WithRow(g: Board, c: nat, row: Row): (g': Board) {
    if c == 0 then g.(a := row) else if c == 1 then g.(b := row) else g.(d := row)
  }

  function WithSide(g: Board, c: nat, side: Side): (g': Board) {
    if c == 0 then g.(left := side) else g.(right := side)
  }

  /** The board after the thread on CPU c has gone on to (pc, trap) with noff at n. */
  function OnTo(g: Board, c: nat, pc: Pc, trap: Trap, n: nat): (g': Board) {
    WithSide(WithRow(g, c, RowOf(g, c).(pc := pc, trap := trap)), c, SideOf(g, c).(noff := n))
  }

  /** CPU c executes slot c with interrupts off. */
  predicate Runs(g: Board, c: nat) {
    c < 2 && SideOf(g, c).sd == SBack(c) && !SideOf(g, c).sie
  }

  lemma LockControl(g: Board, held: map<Lock, nat>, c: nat, l: Lock, pc: Pc, trap: Trap)
    requires Runs(g, c) && l !in held
    ensures Sizes(Machine(g, held))
    ensures Control(Machine(g, held), c, P(c), Lock(l), pc, trap) ==
            Ok(Machine(OnTo(g, c, pc, trap, SideOf(g, c).noff + 1), held[l := c]))
  {
  }

  lemma UnlockControl(g: Board, held: map<Lock, nat>, c: nat, l: Lock, pc: Pc, trap: Trap)
    requires Runs(g, c) && SideOf(g, c).noff > 0 && l in held && held[l] == c
    ensures Sizes(Machine(g, held))
    ensures Control(Machine(g, held), c, P(c), Unlock(l), pc, trap) ==
            Ok(Machine(OnTo(g, c, pc, trap, SideOf(g, c).noff - 1), held - {l}))
  {
  }

  lemma LocalControl(g: Board, held: map<Lock, nat>, c: nat, pc: Pc, trap: Trap)
    requires Runs(g, c)
    ensures Sizes(Machine(g, held))
    ensures Control(Machine(g, held), c, P(c), Local, pc, trap) ==
            Ok(Machine(OnTo(g, c, pc, trap, SideOf(g, c).noff), held))
  {
  }

  lemma Takes(r: State -> bool, g: Board, h: map<Lock, nat>, c: nat, ch: Choice, l: Lock, pc: Pc, trap: Trap)
    requires Closed(r) && r(Machine(g, h)) && Runs(g, c) && l !in h
    requires Code(Machine(g, h), c, ch) == Do(Nothing, Lock(l), pc, trap)
    ensures r(Machine(OnTo(g, c, pc, trap, SideOf(g, c).noff + 1), h[l := c]))
  {
    LockControl(g, h, c, l, pc, trap);
    assert Exec(Machine(g, h), c, ch).Ok?;
  }

  /** The statement may write to the table, which turns board g into g'. */
  lemma Drops(r: State -> bool, g: Board, h: map<Lock, nat>, c: nat, l: Lock, w: Write, g': Board, pc: Pc, trap: Trap)
    requires Closed(r) && r(Machine(g, h[l := c])) && l !in h
    requires Runs(g, c) && Runs(g', c) && SideOf(g', c).noff > 0
    requires Code(Machine(g, h[l := c]), c, Go) == Do(w, Unlock(l), pc, trap)
    requires Apply(Machine(g, h[l := c]), w) == Machine(g', h[l := c])
    ensures r(Machine(OnTo(g', c, pc, trap, SideOf(g', c).noff - 1), h))
  {
    UnlockControl(g', h[l := c], c, l, pc, trap);
    assert h[l := c] - {l} == h;
    assert Exec(Machine(g, h[l := c]), c, Go).Ok?;
  }

  lemma GoesOn(r: State -> bool, g: Board, h: map<Lock, nat>, c: nat, ch: Choice, pc: Pc, trap: Trap)
    requires Closed(r) && r(Machine(g, h)) && Runs(g, c)
    requires Code(Machine(g, h), c, ch) == Do(Nothing, Local, pc, trap)
    ensures r(Machine(OnTo(g, c, pc, trap, SideOf(g, c).noff), h))
  {
    LocalControl(g, h, c, pc, trap);
    assert Exec(Machine(g, h), c, ch).Ok?;
  }

  // ----- init creates another process

  /** Init at the given program point of create_process, with noff at n. */
  function Init(g: Board, cr: CreatePc, n: nat): (g': Board) {
    OnTo(g, 0, Creating(cr), NoTrap, n)
  }

  lemma InitPasses(r: State -> bool, g: Board, h: map<Lock, nat>, i: nat)
    requires Closed(r) && Runs(g, 0) && SlotLock(i) !in h && i < 3 && RowOf(g, i).pr.state != UNUSED
    requires r(Machine(Init(g, CrScan(i), 0), h))
    ensures r(Machine(Init(g, CrScan(i + 1), 0), h))
  {
    Takes(r, Init(g, CrScan(i), 0), h, 0, Go, SlotLock(i), Creating(CrCheck(i)), NoTrap);
    var g1 := Init(g, CrCheck(i), 1);
    Drops(r, g1, h, 0, SlotLock(i), Nothing, g1, Creating(CrScan(i + 1)), NoTrap);
  }

  /** A slot in creation. */
  function NewRow(pid: nat): (row: Row) {
    Row(Proc(USED, NoChan, 0, pid, None), Entry, NoTrap, false)
  }

  /** Init has found slot i, and is about to acquire wait_lock. */
  function Found(g: Board, i: nat): (g': Board) {
    WithRow(Init(g, CrWait(i, g.nextpid), 1), i, NewRow(g.nextpid)).(nextpid := g.nextpid + 1)
  }

  lemma InitFinds(r: State -> bool, g: Board, h: map<Lock, nat>, i: nat)
    requires Closed(r) && Runs(g, 0) && SlotLock(i) !in h && PidLock !in h && 0 < i < 3 && RowOf(g, i) == FREE_ROW
    requires i == 1 ==> g.right.sd != SBack(1)
    requires r(Machine(Init(g, CrScan(i), 0), h))
    ensures r(Machine(Found(g, i), h[SlotLock(i) := 0]))
  {
    var h1 := h[SlotLock(i) := 0];
    Takes(r, Init(g, CrScan(i), 0), h, 0, Go, SlotLock(i), Creating(CrCheck(i)), NoTrap);
    Takes(r, Init(g, CrCheck(i), 1), h1, 0, Go, PidLock, Creating(CrPid(i)), NoTrap);
    InitTakes(r, g, h1, i);
  }

  lemma AllocApplies(g: Board, h: map<Lock, nat>, i: nat)
    requires 0 < i < 3 && RowOf(g, i) == FREE_ROW && (i == 1 ==> g.right.sd != SBack(1))
    ensures Sizes(Machine(g, h))
    ensures Apply(Machine(g, h), Alloc(i)) == Machine(WithRow(g, i, NewRow(g.nextpid)).(nextpid := g.nextpid + 1), h)
  {
  }

  lemma InitTakes(r: State -> bool, g: Board, h: map<Lock, nat>, i: nat)
    requires Closed(r) && Runs(g, 0) && PidLock !in h && 0 < i < 3 && RowOf(g, i) == FREE_ROW
    requires i == 1 ==> g.right.sd != SBack(1)
    requires r(Machine(Init(g, CrPid(i), 2), h[PidLock := 0]))
    ensures r(Machine(Found(g, i), h))
  {
    var g2 := Init(g, CrPid(i), 2);
    var g3 := WithRow(g2, i, NewRow(g.nextpid)).(nextpid := g.nextpid + 1);
    AllocApplies(g2, h[PidLock := 0], i);
    Drops(r, g2, h, 0, PidLock, Alloc(i), g3, Creating(CrWait(i, g.nextpid)), NoTrap);
  }

  function Kid(st: PState): (row: Row) {
    Row(Proc(st, NoChan, 0, 2, Some(0)), Entry, NoTrap, false)
  }

  /** Init finishes the creation of slot 1. */
  lemma InitLinks(r: State -> bool, g: Board)
    requires Closed(r) && Runs(g, 0) && g.b == NewRow(2) && r(Machine(Init(g, CrWait(1, 2), 1), map[SlotLock(1) := 0]))
    ensures r(Machine(Init(g, CrReady(1, 2), 1).(b := Kid(USED)), map[SlotLock(1) := 0]))
  {
    var h := map[SlotLock(1) := 0];
    Takes(r, Init(g, CrWait(1, 2), 1), h, 0, Go, WaitLock, Creating(CrLink(1, 2)), NoTrap);
    var g1 := Init(g, CrLink(1, 2), 2);
    Drops(r, g1, h, 0, WaitLock, Put(1, Kid(USED).pr), g1.(b := Kid(USED)), Creating(CrReady(1, 2)), NoTrap);
  }

  lemma InitReadies(r: State -> bool, g: Board)
    requires Closed(r) && Runs(g, 0) && g.b == Kid(USED) && r(Machine(Init(g, CrReady(1, 2), 1), map[SlotLock(1) := 0]))
    ensures r(Machine(OnTo(g, 0, Body, NoTrap, 0).(b := Kid(RUNNABLE)), map[]))
  {
    var g1 := Init(g, CrReady(1, 2), 1);
    var g2 := g1.(b := Kid(RUNNABLE));
    Drops(r, g1, map[], 0, SlotLock(1), Put(1, Kid(RUNNABLE).pr), g2, Creating(CrReturn(1, 2)), NoTrap);
    GoesOn(r, Init(g2, CrReturn(1, 2), 0), map[], 0, Go, Body, NoTrap);
  }

  // ----- the scheduler of CPU c switches to slot c

  function Sched(g: Board, c: nat, sd: SchedPc, n: nat, sie: bool): (g': Board) {
    WithSide(g, c, Side(sd, n, sie))
  }

  lemma SchedOpens(r: State -> bool, g: Board, c: nat)
    requires Closed(r) && c < 2 && r(Machine(Sched(g, c, SLoop, 0, false), map[]))
    ensures r(Machine(Sched(g, c, SOpen, 0, true), map[]))
  {
    var s, s' := Machine(Sched(g, c, SLoop, 0, false), map[]), Machine(Sched(g, c, SOpen, 0, true), map[]);
    assert Exec(s, c, Go) == Ok(s');
  }

  lemma SchedScans(r: State -> bool, g: Board, c: nat)
    requires Closed(r) && c < 2 && r(Machine(Sched(g, c, SOpen, 0, true), map[]))
    ensures r(Machine(Sched(g, c, SPick(0), 0, false), map[]))
  {
    var s, s' := Machine(Sched(g, c, SOpen, 0, true), map[]), Machine(Sched(g, c, SPick(0), 0, false), map[]);
    assert Exec(s, c, Go) == Ok(s');
  }

  lemma LookPerforms(g: Board, c: nat, i: nat)
    requires c < 2 && i < 3
    ensures var s := Machine(Sched(g, c, SPick(i), 0, false), map[]);
      Sizes(s) && Perform(s, c, S(c), Do(Nothing, Lock(SlotLock(i)), Scheduling(SLook(i)), NoTrap)) ==
      Ok(Machine(Sched(g, c, SLook(i), 1, false), map[SlotLock(i) := c]))
  {
  }

  lemma SchedLooks(r: State -> bool, g: Board, c: nat, i: nat)
    requires Closed(r) && c < 2 && i < 3 && r(Machine(Sched(g, c, SPick(i), 0, false), map[]))
    ensures r(Machine(Sched(g, c, SLook(i), 1, false), map[SlotLock(i) := c]))
  {
    var s := Machine(Sched(g, c, SPick(i), 0, false), map[]);
    LookPerforms(g, c, i);
    assert Exec(s, c, Go).Ok?;
  }

  lemma SchedSkips(r: State -> bool, g: Board)
    requires Closed(r) && g.a.pr.state != RUNNABLE && r(Machine(Sched(g, 1, SLook(0), 1, false), map[SlotLock(0) := 1]))
    ensures r(Machine(Sched(g, 1, SPick(1), 0, false), map[]))
  {
    assert map[SlotLock(0) := 1] - {SlotLock(0)} == map[];
    assert Exec(Machine(Sched(g, 1, SLook(0), 1, false), map[SlotLock(0) := 1]), 1, Go) ==
           Ok(Machine(Sched(g, 1, SPick(1), 0, false), map[]));
  }

  /** Slot c runs on CPU c, at the given program point. */
  function Running(g: Board, c: nat, pc: Pc, n: nat): (g': Board) {
    WithRow(Sched(g, c, SBack(c), n, false), c, Row(RowOf(g, c).pr.(state := RUNNING), pc, NoTrap, false))
  }

  lemma EnterPerforms(g: Board, c: nat, held: map<Lock, nat>)
    requires c < 2 && RowOf(g, c).trap == NoTrap && !RowOf(g, c).flag && RowOf(g, c).pc == Entry
    ensures var s := Machine(Sched(g, c, SLook(c), 1, false), held);
      Sizes(s) &&
      Perform(s, c, S(c), Do(Put(c, s.procs[c].(state := RUNNING)), Enter(c), Scheduling(SBack(c)), NoTrap)) ==
      Ok(Machine(Running(g, c, Entry, 1), held))
  {
  }

  lemma SchedEnters(r: State -> bool, g: Board, c: nat)
    requires Closed(r) && c < 2 && RowOf(g, c).pr.state == RUNNABLE && RowOf(g, c).pc == Entry
    requires RowOf(g, c).trap == NoTrap && !RowOf(g, c).flag
    requires r(Machine(Sched(g, c, SLook(c), 1, false), map[SlotLock(c) := c]))
    ensures r(Machine(Running(g, c, Entry, 1), map[SlotLock(c) := c]))
  {
    var s := Machine(Sched(g, c, SLook(c), 1, false), map[SlotLock(c) := c]);
    EnterPerforms(g, c, map[SlotLock(c) := c]);
    assert Exec(s, c, Go).Ok?;
  }

  /** forkret releases the lock. */
  lemma ThreadStarts(r: State -> bool, g: Board, c: nat)
    requires Closed(r) && c < 2 && r(Machine(Running(g, c, Entry, 1), map[SlotLock(c) := c]))
    ensures r(Machine(Running(g, c, Body, 0), map[]))
  {
    var s, s' := Machine(Running(g, c, Entry, 1), map[SlotLock(c) := c]), Machine(Running(g, c, Body, 0), map[]);
    assert map[SlotLock(c) := c] - {SlotLock(c)} == map[];
    assert Exec(s, c, Go) == Ok(s');
  }

  /** From the top of the scheduler's loop on CPU c to the thread function of slot c. */
  lemma Dispatches(r: State -> bool, g: Board, c: nat)
    requires Closed(r) && c < 2 && RowOf(g, c).pr.state == RUNNABLE && RowOf(g, c).pc == Entry
    requires RowOf(g, c).trap == NoTrap && !RowOf(g, c).flag && (c == 1 ==> g.a.pr.state != RUNNABLE)
    requires r(Machine(Sched(g, c, SLoop, 0, false), map[]))
    ensures r(Machine(Running(g, c, Body, 0), map[]))
  {
    SchedOpens(r, g, c);
    SchedScans(r, g, c);
    SchedLooks(r, g, c, 0);
    if c == 1 {
      SchedSkips(r, g);
      SchedLooks(r, g, 1, 1);
    }
    SchedEnters(r, g, c);
    ThreadStarts(r, g, c);
  }

  // ----- slot 1 exits on CPU 1

  function AtExit(g: Board, ex: ExitPc, n: nat): (g': Board) {
    OnTo(g, 1, Exiting(0, ex), NoTrap, n)
  }

  /** Slot 1 calls exit_process and passes the slots up to j, none of which is its child. */
  lemma {:induction false} ExitScans(r: State -> bool, g: Board, j: nat)
    requires Closed(r) && Runs(g, 1) && j <= 3 && r(Machine(OnTo(g, 1, Body, NoTrap, 0), map[]))
    requires forall i: nat :: i < 3 ==> RowOf(g, i).pr.parent != Some(1)
    ensures r(Machine(AtExit(g, ExScan(j), 1), map[WaitLock := 1]))
  {
    if j == 0 {
      Takes(r, OnTo(g, 1, Body, NoTrap, 0), map[], 1, CallExit(0), WaitLock, Exiting(0, ExScan(0)), NoTrap);
    } else {
      ExitScans(r, g, j - 1);
      assert RowOf(g, j - 1).pr.parent != Some(1);
      GoesOn(r, AtExit(g, ExScan(j - 1), 1), map[WaitLock := 1], 1, Go, Exiting(0, ExScan(j)), NoTrap);
    }
  }

  lemma ExitWakesInit(r: State -> bool, g: Board)
    requires Closed(r) && Runs(g, 1) && g.a.pr.state == RUNNING
    requires r(Machine(AtExit(g, ExWake(0, 0, ThenDie), 1), map[WaitLock := 1]))
    ensures r(Machine(AtExit(g, ExWake(0, 1, ThenDie), 1), map[WaitLock := 1]))
  {
    var h := map[WaitLock := 1];
    Takes(r, AtExit(g, ExWake(0, 0, ThenDie), 1), h, 1, Go, SlotLock(0), Exiting(0, ExWakeHeld(0, 0, ThenDie)), NoTrap);
    var g1 := AtExit(g, ExWakeHeld(0, 0, ThenDie), 2);
    Drops(r, g1, h, 1, SlotLock(0), Put(0, g.a.pr), g1, Exiting(0, ExWake(0, 1, ThenDie)), NoTrap);
  }

  /** The wakeup of a child of init passes init and the child itself, up to the lock of slot 2. */
  lemma ExitWakes(r: State -> bool, g: Board)
    requires Closed(r) && Runs(g, 1) && g.b.pr.parent == Some(0) && g.a.pr.state == RUNNING
    requires r(Machine(AtExit(g, ExScan(3), 1), map[WaitLock := 1]))
    ensures r(Machine(AtExit(g, ExWake(0, 2, ThenDie), 1), map[WaitLock := 1]))
  {
    var h := map[WaitLock := 1];
    GoesOn(r, AtExit(g, ExScan(3), 1), h, 1, Go, Exiting(0, ExWake(0, 0, ThenDie)), NoTrap);
    ExitWakesInit(r, g);
    GoesOn(r, AtExit(g, ExWake(0, 1, ThenDie), 1), h, 1, Go, Exiting(0, ExWake(0, 2, ThenDie)), NoTrap);
  }

  /** A process without a parent goes on to take its own lock. */
  lemma ExitLocks(r: State -> bool, g: Board)
    requires Closed(r) && Runs(g, 1) && g.b.pr.parent == None
    requires r(Machine(AtExit(g, ExScan(3), 1), map[WaitLock := 1]))
    ensures r(Machine(AtExit(g, ExDie, 2), map[WaitLock := 1, SlotLock(1) := 1]))
  {
    var h := map[WaitLock := 1];
    GoesOn(r, AtExit(g, ExScan(3), 1), h, 1, Go, Exiting(0, ExLock), NoTrap);
    Takes(r, AtExit(g, ExLock, 1), h, 1, Go, SlotLock(1), Exiting(0, ExDie), NoTrap);
  }

  // ----- a timer interrupt of slot 0 on CPU 0

  function Tick(g: Board, trap: Trap, n: nat): (g': Board) {
    OnTo(g, 0, Body, trap, n)
  }

  /** The thread function calls intr_on, and an interrupt comes. */
  lemma Interrupted(r: State -> bool, g: Board)
    requires Closed(r) && Runs(g, 0) && r(Machine(OnTo(g, 0, Body, NoTrap, 0), map[]))
    ensures r(Machine(Tick(g, TkEnter, 0).(a := g.a.(pc := Body, trap := TkEnter, flag := true)), map[]))
  {
    var s0, g1 := Machine(OnTo(g, 0, Body, NoTrap, 0), map[]), OnTo(g, 0, Body, NoTrap, 0);
    var g2 := g1.(a := g1.a.(flag := true), left := g1.left.(sie := true));
    assert Exec(s0, 0, CallIntrOn) == Ok(Machine(g2, map[]));
    assert Exec(Machine(g2, map[]), 0, Interrupt) ==
           Ok(Machine(g2.(a := g2.a.(trap := TkEnter), left := g1.left), map[]));
  }

  /** wakeup(&ticks) passes a slot that does not sleep. */
  lemma TickPasses(r: State -> bool, g: Board, k: nat)
    requires Closed(r) && Runs(g, 0) && 0 < k < 3 && RowOf(g, k).pr.state != SLEEPING
    requires r(Machine(Tick(g, TkWake(k), 1), map[TicksLock := 0]))
    ensures r(Machine(Tick(g, TkWake(k + 1), 1), map[TicksLock := 0]))
  {
    var h := map[TicksLock := 0];
    Takes(r, Tick(g, TkWake(k), 1), h, 0, Go, SlotLock(k), Body, TkHeld(k));
    var g1 := Tick(g, TkHeld(k), 2);
    Drops(r, g1, h, 0, SlotLock(k), Put(k, RowOf(g, k).pr), g1, Body, TkWake(k + 1));
  }

  lemma TickYields(r: State -> bool, g: Board)
    requires Closed(r) && Runs(g, 0) && g.b.pr.state != SLEEPING && g.d.pr.state != SLEEPING
    requires r(Machine(Tick(g, TkEnter, 0), map[]))
    ensures r(Machine(Tick(g, TkSwitch, 1), map[SlotLock(0) := 0]))
  {
    var h := map[TicksLock := 0];
    Takes(r, Tick(g, TkEnter, 0), map[], 0, Go, TicksLock, Body, TkWake(0));
    GoesOn(r, Tick(g, TkWake(0), 1), h, 0, Go, Body, TkWake(1));
    TickPasses(r, g, 1);
    TickPasses(r, g, 2);
    var g3 := Tick(g, TkWake(3), 1);
    Drops(r, g3, map[], 0, TicksLock, Nothing, g3, Body, TkYield);
    Takes(r, Tick(g, TkYield, 0), map[], 0, Go, SlotLock(0), Body, TkSwitch);
  }

  // ----- slot 0 yields on CPU 0

  /** Slot 0 has given up CPU 0, whose scheduler still holds its lock. */
  function Yields(g: Board): (g': Board) {
    var row := g.a.(pr := g.a.pr.(state := RUNNABLE), pc := Yielded, trap := NoTrap);
    WithSide(g.(a := row), 0, Side(SDone(0), 1, false))
  }

  /** Between the two ends of swtch: CPU 0 is back on its scheduler's stack, and c->proc is still slot 0. */
  function Switching(g: Board): (s: State) {
    var s := Machine(Yields(g), map[SlotLock(0) := 0]);
    s.(scheds := s.scheds[0 := s.scheds[0].(pc := Scheduling(SBack(0)))],
       cpus := s.cpus[0 := s.cpus[0].(proc := Some(0))])
  }

  lemma LeavePerforms(g: Board)
    requires Runs(g, 0) && g.a.pr.state == RUNNING
    ensures var s := Machine(OnTo(g, 0, Yielding, NoTrap, 1), map[SlotLock(0) := 0]);
      Sizes(s) &&
      Perform(s, 0, P(0), Do(Put(0, s.procs[0].(state := RUNNABLE)), Leave, Yielded, NoTrap)) == Ok(Switching(g))
  {
  }

  lemma YieldLeaves(r: State -> bool, g: Board)
    requires Closed(r) && Runs(g, 0) && g.a.pr.state == RUNNING
    requires r(Machine(OnTo(g, 0, Yielding, NoTrap, 1), map[SlotLock(0) := 0]))
    ensures r(Switching(g))
  {
    LeavePerforms(g);
    assert Exec(Machine(OnTo(g, 0, Yielding, NoTrap, 1), map[SlotLock(0) := 0]), 0, Go).Ok?;
  }

  lemma YieldClears(r: State -> bool, g: Board)
    requires Closed(r) && r(Switching(g))
    ensures r(Machine(Yields(g), map[SlotLock(0) := 0]))
  {
    assert Exec(Switching(g), 0, Go) == Ok(Machine(Yields(g), map[SlotLock(0) := 0]));
  }

  lemma YieldUnlocks(r: State -> bool, g: Board)
    requires Closed(r) && r(Machine(Yields(g), map[SlotLock(0) := 0]))
    ensures r(Machine(Sched(Yields(g), 0, SPick(1), 0, false), map[]))
  {
    assert map[SlotLock(0) := 0] - {SlotLock(0)} == map[];
    assert Exec(Machine(Yields(g), map[SlotLock(0) := 0]), 0, Go) ==
           Ok(Machine(Sched(Yields(g), 0, SPick(1), 0, false), map[]));
  }

  // ----- slot 0 waits on CPU 0 for slot 1

  function Waits(g: Board, wt: WaitPc, n: nat): (g': Board) {
    OnTo(g, 0, Waiting(wt), NoTrap, n)
  }

  lemma WaitPasses(r: State -> bool, g: Board, j: nat, kids: bool)
    requires Closed(r) && Runs(g, 0) && j < 3 && RowOf(g, j).pr.parent != Some(0)
    requires r(Machine(Waits(g, WtScan(j, kids), 1), map[WaitLock := 0]))
    ensures r(Machine(Waits(g, WtScan(j + 1, kids), 1), map[WaitLock := 0]))
  {
    GoesOn(r, Waits(g, WtScan(j, kids), 1), map[WaitLock := 0], 0, Go, Waiting(WtScan(j + 1, kids)), NoTrap);
  }

  lemma WaitFinds(r: State -> bool, g: Board)
    requires Closed(r) && Runs(g, 0) && g.b.pr.parent == Some(0) && g.b.pr.state != ZOMBIE
    requires r(Machine(Waits(g, WtScan(1, false), 1), map[WaitLock := 0]))
    ensures r(Machine(Waits(g, WtScan(2, true), 1), map[WaitLock := 0]))
  {
    var h := map[WaitLock := 0];
    Takes(r, Waits(g, WtScan(1, false), 1), h, 0, Go, SlotLock(1), Waiting(WtCheck(1, false)), NoTrap);
    var g1 := Waits(g, WtCheck(1, false), 2);
    Drops(r, g1, h, 0, SlotLock(1), Nothing, g1, Waiting(WtScan(2, true)), NoTrap);
  }

  /** Slot 0 has found no ZOMBIE and is about to fall asleep. */
  lemma WaitSleeps(r: State -> bool, g: Board)
    requires Closed(r) && Runs(g, 0) && r(Machine(Waits(g, WtScan(3, true), 1), map[WaitLock := 0]))
    ensures r(Machine(Waits(g, WtSwitch, 1), map[SlotLock(0) := 0]))
  {
    var h, own := map[WaitLock := 0], map[SlotLock(0) := 0];
    Takes(r, Waits(g, WtScan(3, true), 1), h, 0, Go, SlotLock(0), Waiting(WtUnlock), NoTrap);
    assert h[SlotLock(0) := 0] == own[WaitLock := 0];
    var g1 := Waits(g, WtUnlock, 2);
    Drops(r, g1, own, 0, WaitLock, Nothing, g1, Waiting(WtSwitch), NoTrap);
  }
}
