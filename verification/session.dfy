/**
 Sequences of ticks and taps, and what holds of every snapshot the game can
 reach from its initial state.
 */
module Session {
  import opened Geometry
  import opened Angles
  import opened Orbit
  import opened Lifecycle

  /**
   The invariant of reachable snapshots. Before the first tap the state is
   still the initial one. Once started, the shield turns one degree per tick
   in either direction, the stored shield angle is less than a turn either
   way, the tracked speed is 1 plus 0.05 per point scored, and the velocity's
   length equals that speed.
   */
  predicate Valid(s: Snapshot) {
    && (s.over ==> s.started)
    && (!s.started ==> s == Initial())
    && (s.started ==>
          && -FullTurn < s.shieldAngle < FullTurn
          && (s.shieldSpeed == 1.0 || s.shieldSpeed == -1.0)
          && s.ballSpeed == 1.0 + SpeedUp * s.score as real
          && SqLen(s.vel) == s.ballSpeed * s.ballSpeed)
  }

  lemma InitialValid()
    ensures Valid(Initial())
  {
  }

  /** In a valid active snapshot the measured velocity length is the tracked speed. */
  lemma NormIsTrackedSpeed(s: Snapshot, m: Measure)
    requires Valid(s) && Active(s) && Measured(s, m)
    ensures m.velNorm == s.ballSpeed
  {
    SquareMonotone(m.velNorm, s.ballSpeed);
  }

  lemma StepPreservesValid(s: Snapshot, m: Measure)
    requires Valid(s)
    requires Active(s) ==> Measured(s, m)
    ensures Valid(Step(s, m))
  {
    if Active(s) && Classify(s, m) == Deflected {
      DeflectionReverses(s, m);
      var r := Step(s, m);
      assert r.ballSpeed == 1.0 + SpeedUp * r.score as real;
    }
  }

  lemma TapPreservesValid(s: Snapshot, dir: Vec)
    requires Valid(s) && SqLen(dir) == 1.0
    ensures Valid(Tap(s, dir))
  {
  }

  /** What the player and the clock feed the game: a tap, or one frame's tick. */
  datatype Input = Touch(dir: Vec) | Frame(m: Measure)

  /** The input is well formed for the snapshot it is applied to. */
  predicate Admits(s: Snapshot, i: Input) {
    match i
    case Touch(dir) => SqLen(dir) == 1.0
    case Frame(m) => Active(s) ==> Measured(s, m)
  }

  function Apply(s: Snapshot, i: Input): Snapshot
    requires Admits(s, i)
  {
    match i
    case Touch(dir) => Tap(s, dir)
    case Frame(m) => Step(s, m)
  }

  predicate Admissible(s: Snapshot, ins: seq<Input>)
    decreases |ins|
  {
    |ins| == 0 || (Admits(s, ins[0]) && Admissible(Apply(s, ins[0]), ins[1..]))
  }

  /** The snapshot after feeding the inputs in order. */
  function Play(s: Snapshot, ins: seq<Input>): Snapshot
    requires Admissible(s, ins)
    decreases |ins|
  {
    if |ins| == 0 then s else Play(Apply(s, ins[0]), ins[1..])
  }

  lemma {:induction false} PlayPreservesValid(s: Snapshot, ins: seq<Input>)
    requires Valid(s) && Admissible(s, ins)
    ensures Valid(Play(s, ins))
    decreases |ins|
  {
    if |ins| > 0 {
      match ins[0] {
        case Touch(dir) => TapPreservesValid(s, dir);
        case Frame(m) => StepPreservesValid(s, m);
      }
      PlayPreservesValid(Apply(s, ins[0]), ins[1..]);
    }
  }

  /**
   Every snapshot reachable from the initial one keeps the invariant; in
   particular, once a round is under way the speed is 1 plus 0.05 per point.
   */
  lemma ReachableValid(ins: seq<Input>)
    requires Admissible(Initial(), ins)
    ensures Valid(Play(Initial(), ins))
    ensures Play(Initial(), ins).started ==>
      Play(Initial(), ins).ballSpeed == 1.0 + SpeedUp * Play(Initial(), ins).score as real
  {
    InitialValid();
    PlayPreservesValid(Initial(), ins);
  }

  /** Each measure is well formed for the snapshot the preceding ticks lead to. */
  predicate TicksAdmissible(s: Snapshot, ms: seq<Measure>)
    decreases |ms|
  {
    |ms| == 0 || ((Active(s) ==> Measured(s, ms[0])) && TicksAdmissible(Step(s, ms[0]), ms[1..]))
  }

  /** The snapshot after the clock has ticked once per measure. */
  function Ticks(s: Snapshot, ms: seq<Measure>): Snapshot
    requires TicksAdmissible(s, ms)
    decreases |ms|
  {
    if |ms| == 0 then s else Ticks(Step(s, ms[0]), ms[1..])
  }

  /** How many of those ticks were deflections. */
  function Hits(s: Snapshot, ms: seq<Measure>): nat
    requires TicksAdmissible(s, ms)
    decreases |ms|
  {
    if |ms| == 0 then 0
    else
      var hit := if Active(s) && Classify(s, ms[0]) == Deflected then 1 else 0;
      hit + Hits(Step(s, ms[0]), ms[1..])
  }

  /** Each deflection adds exactly one point and exactly 0.05 to the speed; nothing else changes either. */
  lemma {:induction false} HitsAccumulate(s: Snapshot, ms: seq<Measure>)
    requires TicksAdmissible(s, ms)
    ensures Ticks(s, ms).score == s.score + Hits(s, ms)
    ensures Ticks(s, ms).ballSpeed == s.ballSpeed + SpeedUp * Hits(s, ms) as real
    decreases |ms|
  {
    if |ms| > 0 {
      HitsAccumulate(Step(s, ms[0]), ms[1..]);
    }
  }

  /** After N deflections in a round begun by a start, the speed is 1 + 0.05 N and the score is N. */
  lemma SpeedAfterHits(s: Snapshot, dir: Vec, ms: seq<Measure>)
    requires SqLen(dir) == 1.0
    requires TicksAdmissible(Start(s, dir), ms)
    ensures Ticks(Start(s, dir), ms).ballSpeed == 1.0 + SpeedUp * Hits(Start(s, dir), ms) as real
    ensures Ticks(Start(s, dir), ms).score == Hits(Start(s, dir), ms)
  {
    HitsAccumulate(Start(s, dir), ms);
  }

  /** Once a round is over, further ticks change nothing until a tap restarts it. */
  lemma {:induction false} OverIsAbsorbing(s: Snapshot, ms: seq<Measure>)
    requires s.over && TicksAdmissible(s, ms)
    ensures Ticks(s, ms) == s
    ensures Hits(s, ms) == 0
    decreases |ms|
  {
    if |ms| > 0 {
      OverIsAbsorbing(Step(s, ms[0]), ms[1..]);
    }
  }
}
