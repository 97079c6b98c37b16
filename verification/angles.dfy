/**
 Degree arithmetic used by the collision test: JavaScript's `%` on angles,
 the "add a turn when negative" normalisation, and the shortest-arc
 separation between two angles on the circle.
 */
module Angles {

  const FullTurn: real := 360.0
  const HalfTurn: real := 180.0

  function Abs(x: real): (r: real)
    ensures 0.0 <= r && (r == x || r == -x)
  {
    if x < 0.0 then -x else x
  }

  /** Truncation toward zero, the quotient JavaScript's `%` is defined by. */
  function Trunc(x: real): (t: int)
    ensures 0.0 <= x ==> 0 <= t && t as real <= x < t as real + 1.0
    ensures x < 0.0 ==> t <= 0 && t as real - 1.0 < x <= t as real
  {
    if 0.0 <= x then x.Floor else -((-x).Floor)
  }

  /** d is a whole number of turns. */
  predicate WholeTurns(d: real) {
    (d / FullTurn).Floor as real == d / FullTurn
  }

  /**
   `a % 360` in JavaScript: the remainder of truncated division, which keeps
   the sign of the dividend, so a negative angle stays negative.
   */
  function RemTurn(a: real): (r: real)
    ensures -FullTurn < r < FullTurn
    ensures 0.0 <= a ==> 0.0 <= r
    ensures a <= 0.0 ==> r <= 0.0
    ensures WholeTurns(a - r)
    ensures -FullTurn < a < FullTurn ==> r == a
  {
    var t := Trunc(a / FullTurn);
    assert (a - (a - FullTurn * t as real)) / FullTurn == t as real;
    a - FullTurn * t as real
  }

  /** A signed angle of less than a turn, moved into [0, 360) by adding one turn when negative. */
  function Unsigned(a: real): (r: real)
    requires -FullTurn < a < FullTurn
    ensures 0.0 <= r < FullTurn
    ensures WholeTurns(r - a)
    ensures 0.0 <= a ==> r == a
  {
    if a < 0.0 then a + FullTurn else a
  }

  /**
   Taking JavaScript's remainder and then adding a turn when negative yields
   the angle's residue: in [0, 360) and a whole number of turns from the input.
   */
  lemma NormalisedIsResidue(a: real)
    ensures 0.0 <= Unsigned(RemTurn(a)) < FullTurn
    ensures WholeTurns(a - Unsigned(RemTurn(a)))
  {
    var r := RemTurn(a);
    var u := Unsigned(r);
    var k := ((a - r) / FullTurn).Floor;
    assert a - r == FullTurn * k as real;
    if r < 0.0 {
      assert a - u == FullTurn * (k - 1) as real;
      assert (a - u) / FullTurn == (k - 1) as real;
    } else {
      assert (a - u) / FullTurn == k as real;
    }
  }

  /**
   Shortest-arc separation of two angles in [0, 360): the length of the
   shorter of the two arcs joining them.
   */
  function Separation(a: real, b: real): (r: real)
    requires 0.0 <= a < FullTurn && 0.0 <= b < FullTurn
    ensures 0.0 <= r <= HalfTurn
    ensures r == 0.0 <==> a == b
    ensures r <= Abs(a - b) && r <= FullTurn - Abs(a - b)
    ensures r == Abs(a - b) || r == FullTurn - Abs(a - b)
  {
    var d := Abs(a - b);
    if d > HalfTurn then FullTurn - d else d
  }

  lemma SeparationSymmetric(a: real, b: real)
    requires 0.0 <= a < FullTurn && 0.0 <= b < FullTurn
    ensures Separation(a, b) == Separation(b, a)
  {
    assert Abs(a - b) == Abs(b - a);
  }

  /** b lies within h of a when going round the circle in either direction. */
  predicate WithinArc(a: real, b: real, h: real) {
    Abs(b - a) < h || Abs(b - a + FullTurn) < h || Abs(b - a - FullTurn) < h
  }

  /**
   The strict separation test is the same as asking whether the one angle
   lies inside the open arc of half-width h centred on the other.
   */
  lemma SeparationBelowIffWithinArc(a: real, b: real, h: real)
    requires 0.0 <= a < FullTurn && 0.0 <= b < FullTurn
    requires 0.0 < h <= HalfTurn
    ensures Separation(a, b) < h <==> WithinArc(a, b, h)
  {
  }

  /**
   A shield at 0 turning backwards keeps a negative stored angle, which the
   normalisation turns into the equivalent angle in [0, 360); a full turn
   backwards brings the stored angle back to 0.
   */
  lemma NegativeAngleExample()
    ensures RemTurn(0.0 - 1.0) == -1.0
    ensures Unsigned(RemTurn(0.0 - 1.0)) == 359.0
    ensures Separation(Unsigned(RemTurn(0.0 - 1.0)), 0.0) == 1.0
    ensures RemTurn(-359.0 - 1.0) == 0.0
  {
  }
}
