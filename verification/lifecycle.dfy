/**
 The round's lifecycle as driven by taps: the snapshot before the first tap,
 starting (and restarting) a round with a freshly launched ball, and the tap
 handler that restarts, starts, or reverses the shield.

 The launch direction is drawn at random by the program; here it is a
 parameter, any unit vector.
 */
module Lifecycle {
  import opened Geometry
  import opened Orbit

  /** The snapshot before any tap: the initial values of the component's state. */
  function Initial(): (r: Snapshot)
    ensures !r.started && !r.over && r.score == 0
    ensures !Active(r)
  {
    Snapshot(0.0, 0.5, Origin, Origin, 0.5, 0, false, false)
  }

  /** Put the ball back at the centre with speed 1, heading along `dir`. */
  function Launch(s: Snapshot, dir: Vec): (r: Snapshot)
    requires SqLen(dir) == 1.0
    ensures r.pos == Origin && r.ballSpeed == 1.0
    ensures SqLen(r.vel) == r.ballSpeed * r.ballSpeed
    ensures Cross(r.vel, dir) == 0.0 && 0.0 < Dot(r.vel, dir)
    ensures r.(pos := s.pos, vel := s.vel, ballSpeed := s.ballSpeed) == s
  {
    var speed := 1.0;
    s.(pos := Origin, ballSpeed := speed, vel := Scale(speed, dir))
  }

  /** Begin a round: everything is reset, whatever the previous round left behind. */
  function Start(s: Snapshot, dir: Vec): (r: Snapshot)
    requires SqLen(dir) == 1.0
    ensures Active(r)
    ensures r.score == 0
    ensures r.shieldAngle == 0.0 && r.shieldSpeed == 1.0
    ensures r.pos == Origin && r.ballSpeed == 1.0 && SqLen(r.vel) == 1.0
  {
    var reset := s.(score := 0, over := false, started := true,
                    shieldAngle := 0.0, shieldSpeed := 1.0);
    Launch(reset, dir)
  }

  /** Restarting after a miss does the same as starting. */
  function Restart(s: Snapshot, dir: Vec): (r: Snapshot)
    requires SqLen(dir) == 1.0
    ensures Active(r) && r.score == 0
    ensures r.shieldAngle == 0.0 && r.shieldSpeed == 1.0
    ensures r.pos == Origin && r.ballSpeed == 1.0 && SqLen(r.vel) == 1.0
    ensures Cross(r.vel, dir) == 0.0 && 0.0 < Dot(r.vel, dir)
  {
    Start(s, dir)
  }

  /**
   A tap restarts a round that is over, starts a round that has not begun,
   and otherwise reverses the shield's direction and changes nothing else.
   */
  function Tap(s: Snapshot, dir: Vec): (r: Snapshot)
    requires SqLen(dir) == 1.0
    ensures Active(r)
    ensures s.over ==> r == Restart(s, dir)
    ensures !s.over && !s.started ==> r == Start(s, dir)
    ensures Active(s) ==> r == s.(shieldSpeed := -s.shieldSpeed)
  {
    if s.over then Restart(s, dir)
    else if !s.started then Start(s, dir)
    else s.(shieldSpeed := -s.shieldSpeed)
  }

  /** A start keeps nothing of the snapshot it is applied to. */
  lemma StartForgetsPrevious(s: Snapshot, t: Snapshot, dir: Vec)
    requires SqLen(dir) == 1.0
    ensures Start(s, dir) == Start(t, dir)
  {
  }

  /** Two taps during a round restore the shield's direction and leave the rest alone. */
  lemma TapTwiceRestores(s: Snapshot, d1: Vec, d2: Vec)
    requires Active(s) && SqLen(d1) == 1.0 && SqLen(d2) == 1.0
    ensures Tap(Tap(s, d1), d2) == s
  {
  }

  /** A tap after a miss starts a fresh round from the centre, whatever the miss left behind. */
  lemma TapAfterMissExample()
    ensures var over := Snapshot(0.0, -1.0, Vec(0.0, 134.0), Vec(0.0, 1.0), 1.15, 3, true, true);
            Tap(over, Vec(0.0, -1.0)) == Snapshot(0.0, 1.0, Origin, Vec(0.0, -1.0), 1.0, 0, true, false)
  {
  }
}
