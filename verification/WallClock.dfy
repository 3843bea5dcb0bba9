/**
 Turning a wall-clock time into an instant: the loop corrects a guess by the difference between the
 wanted and the shown time, at most three times. Instants and offsets are whole minutes and `off(t)`
 is what the zone adds to the instant `t`.
 */
module WallClock {

  /** The instant `t` shows the wall-clock time `target`. */
  predicate Shows(off: int -> int, target: int, t: int) {
    t + off(t) == target
  }

  function Guess(off: int -> int, target: int, n: nat): int {
    if n == 0 then target else target - off(Guess(off, target, n - 1))
  }

  method LocalDateTimeToUtc(off: int -> int, target: int) returns (guess: int, ghost corrections: nat)
    ensures guess == Guess(off, target, 3)
    ensures corrections <= 3 && guess == Guess(off, target, corrections)
    ensures corrections < 3 ==> Shows(off, target, guess)
    ensures forall n | 0 <= n < corrections :: !Shows(off, target, Guess(off, target, n))
  {
    guess, corrections := target, 0;
    for i := 0 to 3
      invariant corrections == i && guess == Guess(off, target, i)
      invariant forall n | 0 <= n < i :: !Shows(off, target, Guess(off, target, n))
    {
      var diff := target - (guess + off(guess));
      if diff == 0 {
        ConvergedStays(off, target, i, 3);
        break;
      }
      guess := guess + diff;
      corrections := corrections + 1;
    }
  }

  /** A guess that shows the wanted time is not corrected any more. */
  lemma {:induction false} ConvergedStays(off: int -> int, target: int, m: nat, n: nat)
    requires m <= n && Shows(off, target, Guess(off, target, m))
    ensures Guess(off, target, n) == Guess(off, target, m)
  {
    if m < n { ConvergedStays(off, target, m, n - 1); }
  }

  /**
   Within `reach` minutes of the target the zone has offset `a` before the instant `change` and `b`
   from it on, neither larger than `reach`. With `a == b` there is no change.
   */
  ghost predicate OneChange(off: int -> int, target: int, reach: int, change: int, a: int, b: int) {
    && -reach <= a <= reach && -reach <= b <= reach
    && forall t | target - reach <= t <= target + reach :: off(t) == if t < change then a else b
  }

  predicate InGap(target: int, change: int, a: int, b: int) {
    change + a <= target < change + b
  }

  ghost predicate Attainable(off: int -> int, target: int, reach: int) {
    exists t | target - reach <= t <= target + reach :: Shows(off, target, t)
  }

  /** A wall-clock time is shown by no instant exactly when a spring-forward change skips it. */
  lemma GapIsUnattainable(off: int -> int, target: int, reach: int, change: int, a: int, b: int)
    requires OneChange(off, target, reach, change, a, b)
    ensures Attainable(off, target, reach) <==> !InGap(target, change, a, b)
  {
    if !InGap(target, change, a, b) {
      var t := if target - a < change then target - a else target - b;
      assert Shows(off, target, t);
    }
  }

  /**
   If any nearby instant shows the wanted time, two corrections find one; the loop fails to converge
   exactly in the spring-forward gap, and then the returned instant shows the wanted time moved by
   the size of the gap.
   */
  lemma OneChangeConverges(off: int -> int, target: int, reach: int, change: int, a: int, b: int)
    requires OneChange(off, target, reach, change, a, b)
    ensures Attainable(off, target, reach) ==> Shows(off, target, Guess(off, target, 2))
    ensures Shows(off, target, Guess(off, target, 3)) <==> !InGap(target, change, a, b)
    ensures InGap(target, change, a, b)
      ==> var t := Guess(off, target, 3);
          && t == (if target < change then target - a else target - b)
          && t + off(t) == (if target < change then target + (b - a) else target - (b - a))
  {
    GapIsUnattainable(off, target, reach, change, a, b);
    var g1 := Guess(off, target, 1);
    assert Guess(off, target, 0) == target;
    assert g1 == target - off(target);
    var g2 := Guess(off, target, 2);
    assert g2 == target - off(g1);
    assert Guess(off, target, 3) == target - off(g2);
  }

  /**
   A wall-clock time shown twice, before and after a fall-back change, resolves to the first showing
   exactly when the target read as UTC lies before the change.
   */
  lemma OverlapChoice(off: int -> int, target: int, reach: int, change: int, a: int, b: int)
    requires OneChange(off, target, reach, change, a, b)
    requires change + b <= target < change + a
    ensures Shows(off, target, target - a) && Shows(off, target, target - b) && target - a < target - b
    ensures Guess(off, target, 3) == if target < change then target - a else target - b
  {
    OneChangeConverges(off, target, reach, change, a, b);
    assert Guess(off, target, 1) == target - off(target);
    ConvergedStays(off, target, 1, 3);
  }

  /** Every instant comes back from its own wall-clock time, unless that time is shown twice. */
  lemma RoundTrip(off: int -> int, t: int, reach: int, change: int, a: int, b: int)
    requires -reach <= off(t) <= reach && OneChange(off, t + off(t), reach, change, a, b)
    ensures var target := t + off(t);
      && Shows(off, target, Guess(off, target, 3))
      && (Guess(off, target, 3) == t
          <==> !(change + b <= target < change + a) || (target < change <==> t < change))
  {
    var target := t + off(t);
    assert Shows(off, target, t);
    OneChangeConverges(off, target, reach, change, a, b);
    var r := Guess(off, target, 3);
    assert r == target - off(Guess(off, target, 2));
    if change + b <= target < change + a {
      OverlapChoice(off, target, reach, change, a, b);
    }
    ConvergedStays(off, target, 2, 3);
    assert Guess(off, target, 1) == target - off(target);
    assert Guess(off, target, 2) == target - off(Guess(off, target, 1));
  }

  /** Two changes of an hour forward, 60 minutes apart: an instant shows the time, the loop misses it. */
  lemma TwoChangesCanMiss()
    ensures var off := t => if t < -150 then 60 else if t < -90 then 120 else 180;
      Shows(off, 0, -120) && !Shows(off, 0, Guess(off, 0, 3))
  {
    var off := t => if t < -150 then 60 else if t < -90 then 120 else 180;
    assert Guess(off, 0, 1) == -180;
    assert Guess(off, 0, 2) == -60;
  }
}
