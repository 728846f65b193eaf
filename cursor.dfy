/** The animation cursor: which transition the next timer tick propagates.
    With `count` layers the cursor runs 0, 1, ..., count - 1 and a tick at
    `count - 1` only rewinds it to 0, without propagating. */
module Cursor {

  /** The cursor after one tick from `step`. */
  function NextStep(step: nat, count: nat): (r: nat)
    requires count >= 1
    ensures r < count
    ensures r == 0 <==> step >= count - 1
    ensures r != 0 ==> r == step + 1
  {
    if step >= count - 1 then 0 else step + 1
  }

  /** Whether a tick at cursor `step` propagates (every tick but the wrap tick). */
  predicate Propagates(step: nat, count: nat)
  {
    step < count - 1
  }

  /** The cursor after `n` ticks from `start`. */
  function StepsFrom(start: nat, count: nat, n: nat): (c: nat)
    requires count >= 1
  {
    if n == 0 then start else NextStep(StepsFrom(start, count, n - 1), count)
  }

  /** How many of the first `n` ticks from `start` propagate. */
  function PropagationsFrom(start: nat, count: nat, n: nat): (p: nat)
    requires count >= 1
  {
    if n == 0 then 0
    else
      var tick := if Propagates(StepsFrom(start, count, n - 1), count) then 1 else 0;
      PropagationsFrom(start, count, n - 1) + tick
  }

  /** Within one round, starting where the cursor is 0, the cursor counts the
      ticks and every one of them propagates. */
  lemma {:induction false} WithinRound(count: nat, base: nat, r: nat)
    requires count >= 1 && r < count
    requires StepsFrom(0, count, base) == 0
    ensures StepsFrom(0, count, base + r) == r
    ensures PropagationsFrom(0, count, base + r) == PropagationsFrom(0, count, base) + r
  {
    if r > 0 {
      WithinRound(count, base, r - 1);
    }
  }

  /** From 0, after `q` full rounds of `count` ticks and `r` more, the cursor
      is at `r`: it cycles through every position and wraps after
      `count - 1`. All those ticks propagate except the one wrap tick that
      closes each round. */
  lemma {:induction false} CursorCycle(count: nat, q: nat, r: nat)
    requires count >= 1 && r < count
    ensures StepsFrom(0, count, q * count + r) == r
    ensures PropagationsFrom(0, count, q * count + r) == q * (count - 1) + r
  {
    if q == 0 {
      WithinRound(count, 0, r);
    } else {
      CursorCycle(count, q - 1, count - 1);
      var wrap := (q - 1) * count + (count - 1);
      assert q * count == wrap + 1;
      assert StepsFrom(0, count, q * count) == 0;
      WithinRound(count, q * count, r);
    }
  }

  /** For the widget's four layers the cursor runs 1, 2, 3, 0, 1, ... and
      three of every four ticks propagate. */
  lemma DefaultCycle(q: nat)
    ensures StepsFrom(0, 4, 4 * q + 1) == 1
    ensures StepsFrom(0, 4, 4 * q + 2) == 2
    ensures StepsFrom(0, 4, 4 * q + 3) == 3
    ensures StepsFrom(0, 4, 4 * q + 4) == 0
    ensures PropagationsFrom(0, 4, 4 * q) == 3 * q
  {
    CursorCycle(4, q, 1);
    CursorCycle(4, q, 2);
    CursorCycle(4, q, 3);
    CursorCycle(4, q + 1, 0);
    CursorCycle(4, q, 0);
  }
}
