/**
 kernel/spinlock.c: the interrupt state of a CPU (cpu->noff, cpu->intena and the SIE bit),
 first as values, then as the objects that push_off, pop_off, acquire and release update.
*/
module Interrupts {
  import opened Prelude

  datatype Intr = Intr(noff: nat, intena: bool, sie: bool)

  function AfterPushOff(i: Intr): (r: Intr) {
    Intr(i.noff + 1, if i.noff == 0 then i.sie else i.intena, false)
  }

  predicate PopPanics(i: Intr) {
    i.sie || i.noff < 1
  }

  function AfterPopOff(i: Intr): (r: Intr)
    requires !PopPanics(i)
  {
    Intr(i.noff - 1, i.intena, i.noff == 1 && i.intena)
  }

  // ----- any nesting of push_off and pop_off

  /** Interrupts are off inside a critical section. */
  predicate Consistent(i: Intr) {
    i.noff > 0 ==> !i.sie
  }

  /** The flag the code outside all critical sections sees. */
  function OuterFlag(i: Intr): (r: bool) {
    if i.noff == 0 then i.sie else i.intena
  }

  datatype Nest = Push | Pop

  function Depth(ops: seq<Nest>): (r: int) {
    if ops == [] then 0 else Depth(ops[..|ops| - 1]) + (if ops[|ops| - 1].Push? then 1 else -1)
  }

  /** The interrupt state after a sequence of calls; None after a panic of pop_off. */
  function RunNest(i: Intr, ops: seq<Nest>): (r: Option<Intr>) {
    if ops == [] then Some(i)
    else
      match RunNest(i, ops[..|ops| - 1])
      case None => None
      case Some(j) =>
        if ops[|ops| - 1].Push? then Some(AfterPushOff(j))
        else if PopPanics(j) then None
        else Some(AfterPopOff(j))
  }

  /** No prefix of the calls pops more than was pushed before. */
  predicate NeverBelow(noff: nat, ops: seq<Nest>) {
    forall k :: 0 <= k <= |ops| ==> noff + Depth(ops[..k]) >= 0
  }

  /**
   Calls may nest and be undone in any order: they panic exactly when one of them pops too
   often, and otherwise the outer flag comes back whenever the depth does.
  */
  lemma {:induction false} NestingKeepsFlag(i: Intr, ops: seq<Nest>)
    requires Consistent(i)
    ensures RunNest(i, ops).Some? <==> NeverBelow(i.noff, ops)
    ensures var r := RunNest(i, ops);
      r.Some? ==>
        && r.value.noff == i.noff + Depth(ops)
        && OuterFlag(r.value) == OuterFlag(i)
        && Consistent(r.value)
  {
    if ops == [] {
      assert ops[..0] == [];
    } else {
      var init := ops[..|ops| - 1];
      NestingKeepsFlag(i, init);
      forall k | 0 <= k <= |init| ensures init[..k] == ops[..k] { }
      assert ops[..|ops|] == ops;
      if RunNest(i, ops).Some? {
        forall k | 0 <= k <= |ops| ensures i.noff + Depth(ops[..k]) >= 0 {
          if k < |ops| { assert init[..k] == ops[..k]; }
        }
      }
      if NeverBelow(i.noff, ops) {
        forall k | 0 <= k <= |init| ensures i.noff + Depth(init[..k]) >= 0 { assert init[..k] == ops[..k]; }
        assert i.noff + Depth(ops[..|ops|]) >= 0;
      }
    }
  }

  // ----- the objects

  class Cpu {
    var noff: nat
    var intena: bool
    var sie: bool  // SSTATUS_SIE of this hart

    function View(): (r: Intr)
      reads this
    {
      Intr(noff, intena, sie)
    }

    constructor (sie: bool)
      ensures View() == Intr(0, false, sie)
    {
      noff, intena, this.sie := 0, false, sie;
    }

    method IntrOn()
      modifies this
      ensures View() == old(View()).(sie := true)
    {
      sie := true;
    }

    method IntrOff()
      modifies this
      ensures View() == old(View()).(sie := false)
    {
      sie := false;
    }

    method PushOff()
      modifies this
      ensures View() == AfterPushOff(old(View()))
      ensures OuterFlag(View()) == OuterFlag(old(View())) && Consistent(View())
    {
      var was := sie;
      IntrOff();
      if noff == 0 {
        intena := was;
      }
      noff := noff + 1;
    }

    method PopOff() returns (r: Outcome)
      modifies this
      ensures r.Panicked? <==> PopPanics(old(View()))
      ensures r.Panicked? ==> View() == old(View())
      ensures r.Done? ==> View() == AfterPopOff(old(View())) && OuterFlag(View()) == OuterFlag(old(View()))
    {
      if sie {
        return Panicked;
      }
      if noff < 1 {
        return Panicked;
      }
      noff := noff - 1;
      if noff == 0 && intena {
        IntrOn();
      }
      r := Done;
    }
  }

  class Spinlock {
    var locked: bool
    var cpu: Cpu?

    constructor ()
      ensures !locked && cpu == null
    {
      locked, cpu := false, null;
    }

    predicate Holding(c: Cpu)
      reads this
    {
      locked && cpu == c
    }

    /** __sync_lock_test_and_set(&lk->locked, 1) */
    method TestAndSet() returns (was: bool)
      modifies this
      ensures was == old(locked) && locked && cpu == old(cpu)
    {
      was, locked := locked, true;
    }

    /**
     acquire on CPU c.  `rivals` is how often the test-and-set still finds the lock taken by
     another CPU; that CPU's release is the environment's part of the loop.
    */
    method Acquire(c: Cpu, rivals: nat) returns (r: Outcome)
      requires rivals > 0 <==> locked && cpu != c
      modifies this, c
      ensures c.View() == AfterPushOff(old(c.View()))
      ensures r.Panicked? <==> old(Holding(c))
      ensures r.Panicked? ==> locked == old(locked) && cpu == old(cpu)
      ensures r.Done? ==> Holding(c)
    {
      c.PushOff();
      if Holding(c) {
        return Panicked;
      }
      var left := rivals;
      var was := TestAndSet();
      while was
        invariant left > 0 <==> was
        invariant locked
        invariant c.View() == AfterPushOff(old(c.View()))
        decreases left
      {
        left := left - 1;
        if left == 0 {
          locked, cpu := false, null;
        }
        was := TestAndSet();
      }
      cpu := c;
      r := Done;
    }

    /** release on CPU c. */
    method Release(c: Cpu) returns (r: Outcome)
      modifies this, c
      ensures r.Panicked? <==> !old(Holding(c)) || PopPanics(old(c.View()))
      ensures r.Done? ==> !locked && cpu == null && c.View() == AfterPopOff(old(c.View()))
      ensures !old(Holding(c)) ==> locked == old(locked) && cpu == old(cpu) && c.View() == old(c.View())
    {
      if !Holding(c) {
        return Panicked;
      }
      cpu := null;
      locked := false;
      r := c.PopOff();
    }
  }

  /**
   Two locks taken and given back in the order they were taken in: noff and the interrupt flag
   are as before, whatever the flag was.
  */
  method CrossedSections(c: Cpu, a: Spinlock, b: Spinlock) returns (r: Outcome)
    requires a != b && !a.locked && !b.locked && Consistent(c.View())
    modifies a, b, c
    ensures r.Done? && !a.locked && !b.locked
    ensures c.noff == old(c.noff) && OuterFlag(c.View()) == OuterFlag(old(c.View())) && c.sie == old(c.sie)
  {
    r := a.Acquire(c, 0);
    r := b.Acquire(c, 0);
    r := a.Release(c);
    r := b.Release(c);
  }
}
