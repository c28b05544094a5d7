/** The crawler's life bar: a number that starts at 100, is clamped below
    at 0 but not above, and is drawn red below 30. */
module Lifebars {

  datatype Colour = Red | Green

  /** The clamp both `reduceLife` and `addLife` apply after changing the value. */
  function ClampLow(v: real): real {
    if v < 0.0 then 0.0 else v
  }

  /** The value after `n` calls of `reduceLife(amount)`. */
  function ReduceTimes(life: real, amount: real, n: nat): real {
    if n == 0 then life else ClampLow(ReduceTimes(life, amount, n - 1) - amount)
  }

  /** The fill colour `draw` picks for a value. */
  function ColourOf(value: real): Colour {
    if value < 30.0 then Red else Green
  }

  /** Clamping after every step is the same as clamping once at the end:
      n reductions by a non-negative amount lower the value by n times the
      amount, but never below 0. */
  lemma {:induction false} RepeatedReduce(life: real, amount: real, n: nat)
    requires life >= 0.0 && amount >= 0.0
    ensures ReduceTimes(life, amount, n) == ClampLow(life - n as real * amount)
  {
    if n > 0 {
      RepeatedReduce(life, amount, n - 1);
      assert n as real * amount == (n - 1) as real * amount + amount;
    }
  }

  /** From a full bar, the tenth penalty of 10 empties it exactly, and any
      further penalty leaves it at 0. */
  lemma TenPenaltiesEmptyTheBar(n: nat)
    requires n >= 10
    ensures ReduceTimes(100.0, 10.0, 10) == 0.0
    ensures ReduceTimes(100.0, 10.0, n) == 0.0
  {
    RepeatedReduce(100.0, 10.0, 10);
    RepeatedReduce(100.0, 10.0, n);
    assert n as real * 10.0 >= 100.0;
  }

  /** From a full bar, the bar turns red exactly from the eighth penalty of 10 on. */
  lemma PenaltiesTurnTheBarRed(n: nat)
    ensures ColourOf(ReduceTimes(100.0, 10.0, n)) == Red <==> n >= 8
  {
    RepeatedReduce(100.0, 10.0, n);
    if n >= 8 {
      assert n as real * 10.0 >= 80.0;
    } else {
      assert n as real * 10.0 <= 70.0;
    }
  }

  class Lifebar {
    var value: real

    /** The value is never negative: every change is followed by the clamp. */
    ghost predicate Valid()
      reads this
    {
      value >= 0.0
    }

    constructor ()
      ensures Valid() && value == 100.0
    {
      value := 100.0;
    }

    /** `reduceLife(amount)`: subtract, then clamp below at 0. */
    method ReduceLife(amount: real)
      modifies this
      ensures Valid()
      ensures value == ClampLow(old(value) - amount)
      ensures amount >= 0.0 && old(value) >= 0.0 ==> value <= old(value)
    {
      value := value - amount;
      if value < 0.0 {
        value := 0.0;
      }
    }

    /** `addLife(amount)`: add, then clamp below at 0; there is no cap at 100. */
    method AddLife(amount: real)
      modifies this
      ensures Valid()
      ensures value == ClampLow(old(value) + amount)
      ensures amount >= 0.0 && old(value) >= 0.0 ==> value == old(value) + amount
    {
      value := value + amount;
      if value < 0.0 {
        value := 0.0;
      }
    }

    /** `getLife()`: reads the value and changes nothing. */
    method GetLife() returns (life: real)
      ensures life == value
    {
      life := value;
    }
  }
}
