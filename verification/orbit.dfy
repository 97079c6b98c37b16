/**
 One tick of the orbit game: the shield turns, the ball moves, and the tick
 is classified as free flight, a deflection by the shield, a miss that ends
 the round, or a grazing pass near the ring.

 The square root and arc tangent the tick needs are not computed here: the
 caller supplies them in a `Measure`, and `Measured` states what makes the
 supplied values the right ones.
 */
module Orbit {
  import opened Geometry
  import opened Angles

  const OrbitRadius: real := 120.0
  const BallRadius: real := 8.0
  const ShieldArc: real := 60.0
  const ShieldThickness: real := 10.0

  /** Inner face of the shield less the ball's radius: 107. At or beyond it the ball touches the ring. */
  const ContactRadius: real := OrbitRadius - ShieldThickness / 2.0 - BallRadius

  /** Distance beyond which a ball outside the shield arc has escaped: 130. */
  const EscapeRadius: real := OrbitRadius + 10.0

  /** Half the shield's angular width: 30 degrees either side of its centre. */
  const HalfArc: real := ShieldArc / 2.0

  /** Speed gained on every deflection. */
  const SpeedUp: real := 0.05

  /**
   Everything a tick reads and writes. `shieldAngle` is the stored angle, which
   may be negative; `ballSpeed` is tracked apart from the velocity vector.
   */
  datatype Snapshot = Snapshot(
    shieldAngle: real,
    shieldSpeed: real,
    pos: Vec,
    vel: Vec,
    ballSpeed: real,
    score: nat,
    started: bool,
    over: bool)

  /** Ticks are scheduled only while the round has started and is not over. */
  predicate Active(s: Snapshot) {
    s.started && !s.over
  }

  /**
   Values the tick obtains from floating-point library calls: the distance of
   the moved ball from the centre, the moved ball's heading in degrees as
   returned by the arc tangent, and the length of the velocity vector.
   */
  datatype Measure = Measure(dist: real, heading: real, velNorm: real)

  /** Ball position after adding the velocity once. */
  function Moved(s: Snapshot): Vec {
    Add(s.pos, s.vel)
  }

  /** The stored shield angle after one tick: `(angle + speed) % 360` with JavaScript's `%`. */
  function NextShieldAngle(s: Snapshot): (r: real)
    ensures -FullTurn < r < FullTurn
    ensures WholeTurns(s.shieldAngle + s.shieldSpeed - r)
  {
    RemTurn(s.shieldAngle + s.shieldSpeed)
  }

  /**
   The measure holds the true distance and velocity length for this snapshot
   and a heading in the arc tangent's range. The velocity length must be
   positive, because the deflection divides by it.
   */
  predicate Measured(s: Snapshot, m: Measure) {
    && 0.0 <= m.dist && m.dist * m.dist == SqLen(Moved(s))
    && -HalfTurn <= m.heading <= HalfTurn
    && 0.0 < m.velNorm && m.velNorm * m.velNorm == SqLen(s.vel)
  }

  /** The four mutually exclusive ways a tick can end. */
  datatype Outcome = FreeFlight | Deflected | Missed | Grazing

  /** The moved ball's heading lies strictly inside the turned shield's arc. */
  predicate InShieldArc(s: Snapshot, m: Measure)
    requires -HalfTurn <= m.heading <= HalfTurn
  {
    WithinArc(Unsigned(NextShieldAngle(s)), Unsigned(m.heading), HalfArc)
  }

  /**
   Shortest-arc separation between the moved ball's heading and the turned
   shield, both first brought into [0, 360).
   */
  function ArcGap(s: Snapshot, m: Measure): (r: real)
    requires -HalfTurn <= m.heading <= HalfTurn
    ensures 0.0 <= r <= HalfTurn
    ensures r < HalfArc <==> InShieldArc(s, m)
  {
    var ball := Unsigned(m.heading);
    var shield := Unsigned(NextShieldAngle(s));
    SeparationBelowIffWithinArc(shield, ball, HalfArc);
    SeparationSymmetric(ball, shield);
    Separation(ball, shield)
  }

  function Classify(s: Snapshot, m: Measure): Outcome
    requires Measured(s, m)
  {
    if m.dist < ContactRadius then FreeFlight
    else if ArcGap(s, m) < HalfArc then Deflected
    else if m.dist > EscapeRadius then Missed
    else Grazing
  }

  /** One tick of the game loop. A snapshot that is not active is returned unchanged. */
  function Step(s: Snapshot, m: Measure): (r: Snapshot)
    requires Active(s) ==> Measured(s, m)
    ensures !Active(s) ==> r == s
    ensures Active(s) ==>
      && r.started
      && r.shieldAngle == NextShieldAngle(s)
      && r.shieldSpeed == s.shieldSpeed
    ensures Active(s) && Classify(s, m) == FreeFlight ==>
      r == s.(shieldAngle := NextShieldAngle(s), pos := Moved(s))
    ensures Active(s) && Classify(s, m) == Grazing ==>
      r == s.(shieldAngle := NextShieldAngle(s), pos := Moved(s))
    ensures Active(s) && Classify(s, m) == Missed ==>
      r == s.(shieldAngle := NextShieldAngle(s), over := true)
    ensures Active(s) && Classify(s, m) == Deflected ==>
      && !r.over
      && r.score == s.score + 1
      && r.ballSpeed == s.ballSpeed + SpeedUp
      && r.pos == Add(Moved(s), Scale(2.0, r.vel))
    ensures r.over <==> s.over || (Active(s) && Classify(s, m) == Missed)
  {
    if !Active(s) then s
    else
      var angle := NextShieldAngle(s);
      var moved := Moved(s);
      if m.dist >= ContactRadius then
        if ArcGap(s, m) < HalfArc then
          var speed := s.ballSpeed + SpeedUp;
          var vel := Scale(speed / m.velNorm, Neg(s.vel));
          s.(shieldAngle := angle, vel := vel, ballSpeed := speed,
             pos := Add(moved, Scale(2.0, vel)), score := s.score + 1)
        else if m.dist > EscapeRadius then
          s.(shieldAngle := angle, over := true)
        else
          s.(shieldAngle := angle, pos := moved)
      else
        s.(shieldAngle := angle, pos := moved)
  }

  /**
   A deflection turns the velocity exactly around and gives it the raised
   speed as its length, whatever length it had before.
   */
  lemma DeflectionReverses(s: Snapshot, m: Measure)
    requires Active(s) && Measured(s, m) && Classify(s, m) == Deflected
    requires -SpeedUp < s.ballSpeed
    ensures Cross(Step(s, m).vel, s.vel) == 0.0
    ensures Dot(Step(s, m).vel, s.vel) < 0.0
    ensures SqLen(Step(s, m).vel) == (s.ballSpeed + SpeedUp) * (s.ballSpeed + SpeedUp)
  {
    var speed := s.ballSpeed + SpeedUp;
    assert Step(s, m).vel == Scale(speed / m.velNorm, Neg(s.vel));
    RescaledLength(s.vel, m.velNorm, speed);
    ReversedDirection(speed / m.velNorm, s.vel);
  }

  /**
   The contact and escape tests on the measured distance agree with the same
   tests on the squared length of the moved position, so they do not depend
   on how the square root is taken.
   */
  lemma ThresholdsBySquares(s: Snapshot, m: Measure)
    requires Measured(s, m)
    ensures m.dist < ContactRadius <==> SqLen(Moved(s)) < ContactRadius * ContactRadius
    ensures m.dist > EscapeRadius <==> SqLen(Moved(s)) > EscapeRadius * EscapeRadius
  {
    SquareMonotone(m.dist, ContactRadius);
    SquareMonotone(EscapeRadius, m.dist);
  }

  /** A ball exactly at the contact radius is in contact: the test is `>=`, not `>`. */
  lemma ContactIncludesThreshold(s: Snapshot, m: Measure)
    requires Measured(s, m) && m.dist == ContactRadius
    ensures Classify(s, m) != FreeFlight
  {
  }

  /**
   A ball exactly half an arc away from the shield's centre is not deflected:
   the hit test is strict. It ends the round only beyond the escape radius.
   */
  lemma ArcEdgeIsNotHit(s: Snapshot, m: Measure)
    requires Measured(s, m) && ContactRadius <= m.dist && ArcGap(s, m) == HalfArc
    ensures Classify(s, m) == (if m.dist > EscapeRadius then Missed else Grazing)
  {
  }

  /**
   The four outcomes described without square roots or the separation
   formula: by the squared distance of the moved ball and by whether its
   heading lies inside the shield's arc.
   */
  lemma OutcomeBySquaresAndArc(s: Snapshot, m: Measure)
    requires Measured(s, m)
    ensures var d2 := SqLen(Moved(s));
      && (Classify(s, m) == FreeFlight <==> d2 < ContactRadius * ContactRadius)
      && (Classify(s, m) == Deflected <==>
            ContactRadius * ContactRadius <= d2 && InShieldArc(s, m))
      && (Classify(s, m) == Missed <==>
            ContactRadius * ContactRadius <= d2 && !InShieldArc(s, m)
            && EscapeRadius * EscapeRadius < d2)
      && (Classify(s, m) == Grazing <==>
            ContactRadius * ContactRadius <= d2 && !InShieldArc(s, m)
            && d2 <= EscapeRadius * EscapeRadius)
  {
    ThresholdsBySquares(s, m);
  }
}
