# Orbit Catch: the per-tick game logic in Dafny

Orbit Catch is a one-screen game. A ball flies outward from the centre of a
ring of radius 120. The player taps to reverse a 60-degree shield that
circles the ring. A ball that reaches the ring inside the shield's arc
bounces back, a little faster, and scores a point. A ball that passes the
ring outside the arc ends the round.

This project models the game's logic as pure functions over an immutable
snapshot. Rendering, animation and frame scheduling are not modelled.

- `Geometry`: plane vectors over `real`, with the squared-length and
  rescaling facts the bounce needs.
- `Angles`: angle arithmetic.
  - `RemTurn` is JavaScript's `a % 360`. The remainder keeps the sign of the
    dividend.
  - `Unsigned` adds a turn to a negative angle.
  - `Separation` is the shortest-arc distance between two angles.
- `Orbit`: one tick of the game loop.
  - Constants: the contact radius is 120 − 10/2 − 8 = 107, and the escape
    radius is 130.
  - The `Snapshot` record.
  - The `Measure` the caller supplies.
  - The four-way `Classify`: free flight, deflection, miss or grazing.
  - `Step`.
- `Lifecycle`: the state before the first tap, `Launch`, `Start`, `Restart`
  and the tap handler `Tap`.
- `Session`: runs of ticks and taps.
  - `Valid` is the invariant of every reachable snapshot. It is proved to
    hold initially and to be kept by `Step` and `Tap`.
  - Hit counting: after N deflections since a start, the score is N and the
    speed is 1 + 0.05·N.

`Math.sqrt` and `Math.atan2` are not computed. A tick takes a
`Measure(dist, heading, velNorm)`, and `Measured` states what makes it
correct:
- `dist` is the non-negative square root of the moved ball's squared
  distance from the centre;
- `heading` lies in the arc tangent's range [−180, 180] degrees;
- `velNorm` is the positive square root of the velocity's squared length.

`ThresholdsBySquares` shows that the two distance tests give the same result
on squared lengths, so they do not depend on how the root is taken. The
random launch angle becomes a unit direction vector passed to `Start` and
`Tap`.

Three behaviours of the code are easy to misread:
- The stored shield angle is not kept in [0, 360). JavaScript's `%` keeps the
  sign of the dividend and the shield can turn backwards, so the stored angle
  ranges over (−360, 360). Only the copy used in the arc test is brought into
  [0, 360).
- A tap changes the shield speed at once; the next tick turns the shield the
  other way.
- On a miss the tick returns before the moved position is stored. The ball
  keeps its pre-tick position, but the shield angle has already advanced.

## Model

| member | source | states |
|---|---|---|
| Angles.RemTurn | App.js:38 | the remainder lies strictly between −360 and 360, has the sign of the dividend, differs from it by whole turns, and is the dividend itself when that is already under a turn |
| Angles.Unsigned | App.js:44-47 | a signed angle under a turn becomes an angle in [0, 360) that is a whole number of turns away; non-negative angles are kept |
| Angles.Separation | App.js:48-49 | the separation lies in [0, 180], is zero exactly when the angles coincide, and is the shorter of the two arcs between the angles |
| Angles.SeparationSymmetric | App.js:48-49 | the separation does not depend on the order of its arguments |
| Angles.SeparationBelowIffWithinArc | App.js:48-50 | separation below h holds exactly when one angle lies within h of the other going round the circle in either direction |
| Angles.NormalisedIsResidue | App.js:38-47 | the angle used in the arc test is in [0, 360) and a whole number of turns from the shield's unreduced angle |
| Angles.NegativeAngleExample | App.js:38-49 | a shield at 0 turning backwards stores −1, compares as 359, and lies one degree from 0; from −359 it stores 0 again |
| Geometry.RescaledLength | App.js:51-56 | negating the velocity and multiplying it by the new speed over its length gives a vector whose squared length is the new speed squared |
| Orbit.NextShieldAngle | App.js:38 | the stored shield angle after a tick lies in (−360, 360) and is a whole number of turns from the old angle plus the shield speed |
| Orbit.ArcGap | App.js:44-50 | the separation between the ball's heading and the shield lies in [0, 180]; it is below 30 exactly when the ball's heading lies inside the shield's open arc |
| Orbit.Step | App.js:36-71 | an inactive snapshot is unchanged; otherwise the shield angle advances and the shield speed is kept; free flight and grazing only move the ball; a miss sets game-over and keeps the ball's old position, score and velocity; a deflection adds one point and 0.05 speed and nudges the ball two velocities past the moved point; game-over is set exactly on a miss |
| Orbit.DeflectionReverses | App.js:50-56 | for any ball speed above −0.05 (every reachable speed is at least 1), after a deflection the velocity points exactly opposite the old one (zero cross product, negative dot product), and its squared length is the old speed plus 0.05, squared |
| Orbit.ThresholdsBySquares | App.js:42-43 | the contact test and the escape test on the measured distance agree with the same tests on the squared distance |
| Orbit.OutcomeBySquaresAndArc | App.js:40-66 | characterises `Classify`, the four-way choice at lines 43, 50 and 62, for the ball moved by one velocity (`Moved`, lines 40-41): each outcome holds exactly when its condition holds: free flight below 107 squared; deflection at or beyond it with the heading inside the shield arc; a miss outside the arc beyond 130 squared; grazing outside the arc up to 130 squared |
| Orbit.ContactIncludesThreshold | App.js:43 | a ball exactly at distance 107 is in contact, not in free flight |
| Orbit.ArcEdgeIsNotHit | App.js:50-66 | a ball exactly 30 degrees from the shield's centre is not deflected; it is a miss beyond 130 and a grazing pass otherwise |
| Lifecycle.Initial | App.js:13-21 | before the first tap the round has not started, is not over, and the score is 0 |
| Lifecycle.Launch | App.js:101-109 | the ball is put at the centre with speed 1 and a velocity of that length along the launch direction; nothing else changes |
| Lifecycle.Start | App.js:92-99 | a start makes the round active with score 0, shield angle 0, shield speed 1, the ball at the centre and ball speed 1 |
| Lifecycle.Restart | App.js:92-113 | a restart makes the round active again with score 0, shield angle 0, shield speed 1, the ball at the centre, ball speed 1 and a unit velocity along the launch direction |
| Lifecycle.Tap | App.js:80-90 | a tap always leaves the round active; it restarts when over, starts when not started, and otherwise only negates the shield speed |
| Lifecycle.StartForgetsPrevious | App.js:92-109 | two starts with the same launch direction give the same snapshot, whatever they were applied to |
| Lifecycle.TapTwiceRestores | App.js:89 | two taps during an active round give back the original snapshot |
| Lifecycle.TapAfterMissExample | App.js:80-113 | a tap on a round that is over yields the fresh round from the centre along the given direction |
| Session.InitialValid | App.js:13-21 | the snapshot before the first tap satisfies the invariant |
| Session.NormIsTrackedSpeed | App.js:53-54 | in a reachable active snapshot, the measured velocity length equals the tracked ball speed |
| Session.StepPreservesValid | App.js:36-71 | a tick keeps the invariant; in particular the deflection keeps speed = 1 + 0.05·score and the velocity's length equal to the speed |
| Session.TapPreservesValid | App.js:80-113 | a tap keeps the invariant |
| Session.PlayPreservesValid | App.js:36-113 | any well-formed sequence of taps and ticks keeps the invariant `Valid`: game-over only after a start; before a start the initial state; once started, a stored shield angle under a turn either way, a shield speed of ±1, a ball speed of 1 plus 0.05 per point, and a velocity of exactly that length |
| Session.ReachableValid | App.js:13-113 | every snapshot reachable from the initial one satisfies the invariant; once started, its speed is 1 plus 0.05 per point |
| Session.HitsAccumulate | App.js:50-59 | over a run of ticks, score and speed grow by exactly the number of deflections, the speed by 0.05 each |
| Session.SpeedAfterHits | App.js:92-103 | after N deflections since a start, the score is N and the speed is 1 + 0.05·N |
| Session.OverIsAbsorbing | App.js:29-37 | once the round is over, ticks change nothing and count no deflections |

## Left out

- Rendering and animation are left out because they are presentation only. This covers the JSX tree, `Animated` values, `triggerShake`, the style sheet, the status bar and the screen dimensions.
- Frame scheduling is left out. This covers `requestAnimationFrame`, `cancelAnimationFrame` and the `useEffect` that starts and stops the loop. A run of ticks is the plain fold `Session.Ticks`. Ticking is modelled as a no-op unless the round has started and is not over.
- React state timing is left out. `setScore`, `setGameOver` and `setGameStarted` take effect at once in the model, and the `gameOver` flag is never stale in the model. In the program, `gameLoop` reads `gameOver` from the render that scheduled it.
- `Math.random`, `Math.cos` and `Math.sin` in the launch are left out. Any unit direction vector stands for the drawn angle.
- `Math.sqrt` and `Math.atan2` are left out. Their results are supplied in a `Measure`.
- Orbit.Measured: the heading is only required to lie in [−180, 180]. It is not tied to the ball's position, because trigonometry is not modelled.
- IEEE-754 rounding is left out. All quantities are exact reals. The program's "speed equals velocity length" and "speed is 1 + 0.05·score" hold only up to rounding; here they hold exactly.
- Orbit.Step: requires a positive velocity length whenever the round is active. The division in the speed rescale would produce NaN for a zero velocity. Reachable snapshots whose round has started always have a velocity of length at least 1.
