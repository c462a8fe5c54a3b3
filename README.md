# Player movement of pygame-first

This project models the player circle of the `game.py` prototype. It proves
the model's properties with Dafny. A `Player` holds a position `(x, y)`, a
velocity `(vx, vy)`, an acceleration `a`, a radius `r` and a grey level
`color`. Once per frame, `Player.update` does four things in order:

1. It applies the held arrow keys to the velocity.
2. It damps the velocity by the fraction `delta` of itself.
3. It moves the circle by `velocity * delta`.
4. It keeps the circle inside the window. A circle that crosses an edge is
   put back on that edge. Its velocity is reflected only if it still
   points outward.

The grey level is then set from the speed.

The model has three modules:

- `Motion` (motion.dfy) gives the frame along one axis. It has one pure
  function per step (`Press`, `Damp`, `Advance`, `ClampLow`, `ClampHigh`,
  `Border`) and their composition `AxisStep`. `MoveAxis` runs the
  source's statements for one axis, and its contract ties it to `AxisStep`.
  The lemmas in this module cover containment, sign-only reflection, free
  motion inside the window, cancelling keys, speed decay and terminal
  velocity.
- `Shading` (shading.dfy) holds the grey level. `int(math.sqrt(q))` is
  modelled exactly over the reals as the integer square root of
  `floor(q)`, computed by bisection. `Color` is 100 plus that value, capped at 255.
- `Game` (player.dfy) holds the class `Player`: its fields, the
  constructor with the source's default arguments, `RefreshColor` and
  `Update`.

Positions, velocities, the acceleration, the radius, `delta` and the window
size are Dafny `real`s, which stand in for Python floats. The grey level
`color` is an `int`. The held
keys are four booleans. `delta` (seconds since the last frame) and the
window's `width` and `height` are parameters of `Update`. In the source they
are read from the `Game` object.

`Update` specifies each axis separately. The x axis reads only `left`,
`right` and `width`, and the y axis reads only `up`, `down` and `height`.
The source interleaves the two axes' statements: x keys, y keys, both
dampings, both moves, then the left, top, right and bottom edges. Those
statements touch disjoint fields, so running all x statements and then all
y statements gives the same state. `Update` therefore calls `MoveAxis` once
per axis.

## Model

| member | source | states |
|---|---|---|
| `Game.Player.constructor` | game.py:10-16 | the fields take the given arguments, which default to x = y = 100, vx = vy = 0, a = 500 and r = 20; the grey level matches the speed |
| `Game.NewDefaultPlayer` | game.py:10-16 | a player built with the default arguments is at (100, 100), at rest, with a = 500, r = 20 and grey level 100 |
| `Game.Player.Valid` | game.py:7-8 | while the grey level matches the speed, it lies between 100 and 255 |
| `Game.Player.RefreshColor` | game.py:5-8 | sets the grey level to the one the current speed gives; no other field changes |
| `Game.Player.Update` | game.py:18-53 | the new (x, vx) is the one-axis frame of the old (x, vx) under the left/right keys and the width, and likewise (y, vy) under up/down and the height; a and r are unchanged; the grey level matches the new speed; if the window is at least one diameter wide (or high), the centre ends inside [r, size - r]; with neither key of an axis held and 0 <= delta <= 1, that axis's speed does not grow |
| `Motion.MoveAxis` | game.py:20-51 | the source's statements for one axis (keys, damping, move, low edge, high edge) give exactly the one-axis frame `AxisStep` |
| `Motion.ClampLow` | game.py:36-43 | after the left or top edge check, the position is at least r and the speed is unchanged; a position already at or past r is left alone; below r, the position becomes r and the velocity becomes its magnitude, so a negative velocity is negated and a non-negative one is kept |
| `Motion.ClampHigh` | game.py:44-51 | after the right or bottom edge check, the position is at most size - r and the speed is unchanged; a position beyond the limit becomes the limit and the velocity becomes minus its magnitude, so only a positive velocity is negated |
| `Motion.Border` | game.py:36-51 | the two edge checks of one axis (low, then high) change the velocity only in sign; in a window at least 2r across, the position ends in [r, size - r] |
| `Motion.AxisStep` | game.py:20-51 | in a window at least 2r across, after any frame the position lies in [r, size - r], whatever the prior state, keys or delta |
| `Motion.EdgeReflection` | game.py:36-51 | in a window at least 2r across: below r, the circle ends at r moving inward with the same speed; beyond size - r, it ends at size - r moving inward with the same speed; inside the window, nothing changes |
| `Motion.Press` | game.py:20-27 | the two keys of an axis change the velocity by delta * a times their net pressure P (-1, 0 or +1); together with `Damp` it gives the closed form of `PreBorderVelocity` |
| `Motion.Damp` | game.py:29-30 | damping scales the velocity by 1 - delta; with `Press` this gives the closed form (v + delta * a * P)(1 - delta) of `PreBorderVelocity` |
| `Motion.Advance` | game.py:32-33 | for non-negative delta, the move goes in the direction of the velocity: forward for a non-negative velocity, backward for a non-positive one |
| `Motion.PreBorderVelocity` | game.py:20-30 | after the key and damping statements, the velocity is (v + delta * a * P)(1 - delta), with P the net key pressure (-1, 0 or +1) |
| `Motion.StepSpeed` | game.py:20-51 | the speed after a frame is the key-adjusted speed times abs(1 - delta); the border code leaves it unchanged |
| `Motion.FreeMotion` | game.py:29-51 | if the moved position lies inside [r, size - r], the frame moves the circle by the damped velocity times delta and leaves that velocity alone |
| `Motion.OpposedKeysCancel` | game.py:20-27 | holding both keys of an axis leads to the same state as holding neither |
| `Motion.IdleDecay` | game.py:29-51 | with no key held and 0 <= delta <= 1, the speed becomes exactly its old value times 1 - delta, so it never grows |
| `Motion.TerminalVelocity` | game.py:20-30 | for every delta, the gap between the pre-border velocity and P * a * (1 - delta) (P the net key pressure) is multiplied by 1 - delta each frame |
| `Motion.TerminalVelocityApproached` | game.py:20-30 | for 0 < delta < 2, that gap strictly shrinks in magnitude whenever it is not zero |
| `Motion.WallFixedPoint` | game.py:20-51 | a circle held against the right wall of a 640-wide window with the right key, delta = 0.02, a = 500 and r = 20 stays at x = 620 with velocity -490/99 frame after frame |
| `Motion.OverlongFrameAmplifies` | game.py:29-51 | for delta > 2 and no key held, a frame multiplies the speed by delta - 1 instead of damping it |
| `Motion.LeftEdgeBounce` | game.py:29-39 | a circle on the left edge at x = 20 moving at -50, with no keys held, delta = 0.02 and r = 20, ends at x = 20 with vx = 49 |
| `Shading.ISqrt` | game.py:7-8 | the result is the integer square root: its square is at most k, and the next square exceeds k |
| `Shading.ISqrtBetween` | game.py:7-8 | searching a range known to hold the integer square root of k returns a value in that range whose square is at most k while the next square exceeds k |
| `Shading.FloorSqrt` | game.py:7-8 | `int(math.sqrt(q))` for q >= 0: the largest natural number whose square does not exceed q |
| `Shading.SpeedSquared` | game.py:7-8 | the squared speed is never negative |
| `Shading.Color` | game.py:5-8 | the grey level lies in [100, 255]; below 255 it is 100 plus the integer part of the speed; it is 255 exactly when the speed is at least 155 |
| `Shading.ColorMonotone` | game.py:5-8 | a faster circle is never drawn darker |

## Left out

- `Game` (game.py:61-123) is left out. Window creation, the pixel array, the event queue, the main loop and `Game.exit` are rendering and I/O. `Game.tick` produces `delta` from the pygame clock and holds the loop to at most 50 frames per second (game.py:63-65); `delta` is a parameter here and the frame-rate cap is not modelled. `Game.move` calls `tick`, reads the key state and calls `Player.update`.
- `Player.render` (game.py:55-59) is a drawing call into pygame.
- pubnub-test/a.py and pubnub-test/b.py are a network client over an external publish/subscribe library. No entity registry, message reconciliation or publishing code exists in the modelled files.
- Floating-point rounding is not modelled: all arithmetic is exact over the reals. As a result, `OpposedKeysCancel` holds exactly here, while with floats `(v - d*a) + d*a` can differ from `v` in the last bit. Likewise, `FloorSqrt` is the exact floor of the square root, not `math.sqrt` rounded to a float.
- Game.Player.Update: calls `MoveAxis` for x and then for y instead of interleaving the two axes' statements as the source does; the fields involved are disjoint, so the final state is the same.
- Deterministic replay is not stated as a lemma: Dafny functions are deterministic by construction, so two identical runs of `AxisStep` give identical results.

## Behaviour worth noting

The model follows the code in each of these points.

- For `0 < delta < 2` and before the border step, each frame brings the
  velocity closer to `a * (1 - delta)` in the held key's direction (490 at
  `delta = 0.02` and `a = 500`), not to `a`. The key is added before damping
  (`TerminalVelocity`, `TerminalVelocityApproached`). A wall reverses the
  velocity. A circle held against the right wall with the right key is a
  fixed point of the frame: its velocity stays at -490/99 and never nears
  490 (`WallFixedPoint`).
- Nothing caps `delta`: it is the time since the previous frame
  (game.py:65). For `delta > 2`, the damping statement at game.py:29-30
  multiplies the speed by `delta - 1`, so a stalled frame with no key held
  speeds the circle up (`OverlongFrameAmplifies`). At `delta = 2` the
  velocity flips sign and keeps its size.
- At the right (or bottom) wall, a positive velocity is negated and a
  non-positive one is kept. A circle clamped at the right wall therefore
  has `vx <= 0` (`EdgeReflection`, `ClampHigh`).
- A circle on the left wall moving outward at 50 bounces back at 49, not
  50. Damping acts before the move and the reflection
  (`LeftEdgeBounce`).
