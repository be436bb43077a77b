/** The dashboard's "Total Users" counter (`Dashboard`): an interval timer
    steps the count by one per tick until it reaches 215, where the tick
    leaves it and stops the timer. */
module Dashboard {

  const Limit: int := 215

  /** The updater handed to `setUserCount` on each tick. */
  function Next(count: int): (next: int)
    ensures count < Limit ==> next == count + 1
    ensures count >= Limit ==> next == count
    ensures count <= Limit ==> count <= next <= Limit
  {
    if count < Limit then count + 1 else count
  }

  /** The count after `ticks` ticks starting from `count`. */
  function After(count: int, ticks: nat): int
    decreases ticks
  {
    if ticks == 0 then count else After(Next(count), ticks - 1)
  }

  /** From a count in 0..215 the count stays in range and never goes down. */
  lemma {:induction false} AfterBounded(count: int, ticks: nat)
    requires 0 <= count <= Limit
    ensures count <= After(count, ticks) <= Limit
    decreases ticks
  {
    if ticks > 0 {
      AfterBounded(Next(count), ticks - 1);
    }
  }

  /** One more tick never lowers the count. */
  lemma {:induction false} AfterMonotone(count: int, ticks: nat)
    requires 0 <= count <= Limit
    ensures After(count, ticks) <= After(count, ticks + 1)
    decreases ticks
  {
    if ticks == 0 {
      assert After(count, 1) == Next(count);
    } else {
      AfterMonotone(Next(count), ticks - 1);
    }
  }

  /** From `count`, `ticks` ticks add one each until the limit is reached. */
  lemma {:induction false} AfterClosedForm(count: int, ticks: nat)
    requires 0 <= count <= Limit
    ensures After(count, ticks) == if count + ticks <= Limit then count + ticks else Limit
    decreases ticks
  {
    if ticks > 0 {
      AfterClosedForm(Next(count), ticks - 1);
    }
  }

  /** Starting from 0 the count reads `ticks` until it reaches 215, after
      215 ticks it is 215, and it stays there. The second clause follows
      from the first; it is spelled out for the reader. */
  lemma FromZero(ticks: nat)
    ensures After(0, ticks) == if ticks <= Limit then ticks else Limit
    ensures ticks >= Limit ==> After(0, ticks) == Limit
  {
    AfterClosedForm(0, ticks);
  }

  class UserCounter {
    /** The `userCount` state. */
    var userCount: int
    /** Whether the interval is still scheduled. */
    var running: bool

    /** The count stays in 0..215, and the timer only stops at 215. */
    ghost predicate Valid()
      reads this
    {
      0 <= userCount <= Limit && (!running ==> userCount == Limit)
    }

    /** Mounting: `useState(0)` and the interval scheduled. */
    constructor ()
      ensures Valid() && userCount == 0 && running
    {
      userCount := 0;
      running := true;
    }

    /** One interval tick. */
    method Step()
      requires Valid() && running
      modifies this
      ensures Valid()
      ensures userCount == Next(old(userCount))
      ensures old(userCount) < Limit ==> userCount == old(userCount) + 1 && running
      ensures old(userCount) == Limit ==> userCount == Limit && !running
    {
      if userCount < Limit {
        userCount := userCount + 1;
      } else {
        running := false;
      }
    }
  }
}
