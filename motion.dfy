/**
 * One frame of movement of a player circle along one axis of the window,
 * as `Player.update` performs it: key pressure, damping, advance, and the
 * two border checks of that axis. The x axis (left/right keys, window
 * width) and the y axis (up/down keys, window height) run the same steps
 * on disjoint fields, so one axis is the unit of specification.
 */
module Motion {

  /** Position and velocity of the circle along one axis. */
  datatype Axis = Axis(pos: real, vel: real)

  function Abs(v: real): real
  {
    if v < 0.0 then -v else v
  }

  /** The net push of two opposed keys: -1, 0 or +1. */
  function Pressure(neg: bool, pos: bool): real
  {
    (if pos then 1.0 else 0.0) - (if neg then 1.0 else 0.0)
  }

  /** Key pressure: the negative-direction key subtracts `delta * a`, then the
      positive-direction key adds it. */
  function Press(v: real, neg: bool, pos: bool, delta: real, a: real): (w: real)
    ensures w == v + delta * a * Pressure(neg, pos)
  {
    var v1 := if neg then v - delta * a else v;
    if pos then v1 + delta * a else v1
  }

  /** Damping: the velocity loses the fraction `delta` of itself. */
  function Damp(v: real, delta: real): (w: real)
    ensures w == v * (1.0 - delta)
  {
    v - delta * v
  }

  /** Advance: the position moves by the velocity times `delta`, so for a
      non-negative `delta` it moves in the direction the velocity points. */
  function Advance(p: real, v: real, delta: real): (q: real)
    ensures delta >= 0.0 && v >= 0.0 ==> q >= p
    ensures delta >= 0.0 && v <= 0.0 ==> q <= p
  {
    p + v * delta
  }

  /** The low edge (left or top): a circle that crosses it is put back on the
      edge, and its velocity is reflected only when it still points outward. */
  function ClampLow(s: Axis, r: real): (t: Axis)
    ensures t.pos >= r
    ensures Abs(t.vel) == Abs(s.vel)
    ensures s.pos >= r ==> t == s
    ensures s.pos < r ==> t.pos == r && t.vel == Abs(s.vel)
  {
    if s.pos < r then
      Axis(r, if s.vel < 0.0 then -s.vel else s.vel)
    else
      s
  }

  /** The high edge (right or bottom) at `limit = size - r`: outward means a
      positive velocity. */
  function ClampHigh(s: Axis, limit: real): (t: Axis)
    ensures t.pos <= limit
    ensures Abs(t.vel) == Abs(s.vel)
    ensures s.pos <= limit ==> t == s
    ensures s.pos > limit ==> t.pos == limit && t.vel == -Abs(s.vel)
  {
    if s.pos > limit then
      Axis(limit, if s.vel > 0.0 then -s.vel else s.vel)
    else
      s
  }

  /** Both border checks of one axis, low edge first. */
  function Border(s: Axis, r: real, size: real): (t: Axis)
    ensures Abs(t.vel) == Abs(s.vel)
    ensures 2.0 * r <= size ==> r <= t.pos <= size - r
  {
    ClampHigh(ClampLow(s, r), size - r)
  }

  /** The whole frame along one axis. */
  function AxisStep(s: Axis, neg: bool, pos: bool, delta: real, a: real, r: real, size: real): (t: Axis)
    ensures 2.0 * r <= size ==> r <= t.pos <= size - r
  {
    var v := Damp(Press(s.vel, neg, pos, delta, a), delta);
    Border(Axis(Advance(s.pos, v, delta), v), r, size)
  }

  /** The statements of one frame along one axis, in the order the game
      runs them: keys, damping, advance, low edge, high edge. */
  method MoveAxis(p: real, v: real, neg: bool, pos: bool, delta: real, a: real, r: real, size: real)
    returns (q: real, w: real)
    ensures Axis(q, w) == AxisStep(Axis(p, v), neg, pos, delta, a, r, size)
  {
    q, w := p, v;
    if neg {
      w := w - delta * a;
    }
    if pos {
      w := w + delta * a;
    }
    assert w == Press(v, neg, pos, delta, a);

    w := w - delta * w;
    assert w == Damp(Press(v, neg, pos, delta, a), delta);

    q := q + w * delta;
    ghost var moved := Axis(q, w);
    assert moved == Axis(Advance(p, w, delta), w);

    if q < r {
      if w < 0.0 {
        w := -w;
      }
      q := r;
    }
    assert Axis(q, w) == ClampLow(moved, r);
    if q > size - r {
      if w > 0.0 {
        w := -w;
      }
      q := size - r;
    }
    assert Axis(q, w) == Border(moved, r, size);
  }

  /** The two keys of an axis change the velocity by `delta * a` times their
      net pressure, and damping scales it by `1 - delta`. */
  lemma PreBorderVelocity(v: real, neg: bool, pos: bool, delta: real, a: real)
    ensures Damp(Press(v, neg, pos, delta, a), delta) == (v + delta * a * Pressure(neg, pos)) * (1.0 - delta)
  {
  }

  /** The speed after a frame is the pressed speed scaled by `|1 - delta|`:
      the border code does not change it. */
  lemma StepSpeed(s: Axis, neg: bool, pos: bool, delta: real, a: real, r: real, size: real)
    ensures Abs(AxisStep(s, neg, pos, delta, a, r, size).vel)
         == Abs(s.vel + delta * a * Pressure(neg, pos)) * Abs(1.0 - delta)
  {
    var v := Damp(Press(s.vel, neg, pos, delta, a), delta);
    ScaledAbs(v, s.vel + delta * a * Pressure(neg, pos), 1.0 - delta);
    var t := Border(Axis(Advance(s.pos, v, delta), v), r, size);
    assert AxisStep(s, neg, pos, delta, a, r, size) == t;
  }

  /** Magnitudes multiply through a product. */
  lemma ScaledAbs(v: real, w: real, f: real)
    requires v == w * f
    ensures Abs(v) == Abs(w) * Abs(f)
  {
    AbsMul(w, f);
  }

  lemma AbsMul(u: real, w: real)
    ensures Abs(u * w) == Abs(u) * Abs(w)
  {
    if u < 0.0 && w < 0.0 {
      assert u * w == (-u) * (-w);
    } else if u < 0.0 {
      assert u * w == -((-u) * w);
    } else if w < 0.0 {
      assert u * w == -(u * (-w));
    }
  }

  /** Inside a window at least one diameter across, a circle that crosses
      an edge ends on that edge with its velocity pointing back inside. */
  lemma EdgeReflection(s: Axis, r: real, size: real)
    requires 2.0 * r <= size
    ensures s.pos < r ==> Border(s, r, size) == Axis(r, Abs(s.vel))
    ensures s.pos > size - r ==> Border(s, r, size) == Axis(size - r, -Abs(s.vel))
    ensures r <= s.pos <= size - r ==> Border(s, r, size) == s
  {
  }

  /** The border code leaves a position inside the window alone, so the
      circle moves freely by the damped velocity times `delta`. */
  lemma FreeMotion(s: Axis, neg: bool, pos: bool, delta: real, a: real, r: real, size: real)
    requires r <= s.pos + (s.vel + delta * a * Pressure(neg, pos)) * (1.0 - delta) * delta <= size - r
    ensures AxisStep(s, neg, pos, delta, a, r, size)
         == Axis(s.pos + (s.vel + delta * a * Pressure(neg, pos)) * (1.0 - delta) * delta,
                 (s.vel + delta * a * Pressure(neg, pos)) * (1.0 - delta))
  {
    PreBorderVelocity(s.vel, neg, pos, delta, a);
    var v := Damp(Press(s.vel, neg, pos, delta, a), delta);
    var m := Axis(Advance(s.pos, v, delta), v);
    assert m == Axis(s.pos + (s.vel + delta * a * Pressure(neg, pos)) * (1.0 - delta) * delta,
                     (s.vel + delta * a * Pressure(neg, pos)) * (1.0 - delta));
    assert ClampLow(m, r) == m;
    assert ClampHigh(m, size - r) == m;
  }

  /** Holding both keys of an axis is the same as holding neither. */
  lemma OpposedKeysCancel(s: Axis, delta: real, a: real, r: real, size: real)
    ensures AxisStep(s, true, true, delta, a, r, size) == AxisStep(s, false, false, delta, a, r, size)
  {
  }

  /** With no key held and `0 <= delta <= 1` the speed shrinks by the factor
      `1 - delta`, so it never grows. */
  lemma IdleDecay(s: Axis, delta: real, a: real, r: real, size: real)
    requires 0.0 <= delta <= 1.0
    ensures Abs(AxisStep(s, false, false, delta, a, r, size).vel) == Abs(s.vel) * (1.0 - delta)
    ensures Abs(AxisStep(s, false, false, delta, a, r, size).vel) <= Abs(s.vel)
  {
    var t := AxisStep(s, false, false, delta, a, r, size);
    StepSpeed(s, false, false, delta, a, r, size);
    assert Abs(t.vel) == Abs(s.vel) * (1.0 - delta);
    assert Abs(s.vel) * (1.0 - delta) <= Abs(s.vel) * 1.0;
  }

  /** Before the border step, the distance between the velocity and the
      terminal velocity `a * (1 - delta)` in the held key's direction is
      multiplied by `1 - delta` every frame; for `0 < delta < 2` that brings
      the velocity closer (`TerminalVelocityApproached`). */
  lemma TerminalVelocity(v: real, neg: bool, pos: bool, delta: real, a: real)
    ensures Damp(Press(v, neg, pos, delta, a), delta) - Pressure(neg, pos) * a * (1.0 - delta)
         == (1.0 - delta) * (v - Pressure(neg, pos) * a * (1.0 - delta))
  {
  }

  /** For `0 < delta < 2` each frame's key and damping statements bring the
      velocity strictly closer to its terminal value. A wall can reverse the
      velocity afterwards (`WallFixedPoint`). */
  lemma TerminalVelocityApproached(v: real, neg: bool, pos: bool, delta: real, a: real)
    requires 0.0 < delta < 2.0
    requires v != Pressure(neg, pos) * a * (1.0 - delta)
    ensures Abs(Damp(Press(v, neg, pos, delta, a), delta) - Pressure(neg, pos) * a * (1.0 - delta))
          < Abs(v - Pressure(neg, pos) * a * (1.0 - delta))
  {
    TerminalVelocity(v, neg, pos, delta, a);
    GapContracts(Damp(Press(v, neg, pos, delta, a), delta) - Pressure(neg, pos) * a * (1.0 - delta),
                 v - Pressure(neg, pos) * a * (1.0 - delta), delta);
  }

  /** A non-zero gap scaled by `1 - delta`, for `0 < delta < 2`, shrinks. */
  lemma GapContracts(next: real, gap: real, delta: real)
    requires 0.0 < delta < 2.0 && gap != 0.0
    requires next == (1.0 - delta) * gap
    ensures Abs(next) < Abs(gap)
  {
    var d := delta * gap;
    assert next == gap - d;
    if gap > 0.0 {
      assert 0.0 < d < 2.0 * gap by {
        assert 2.0 * gap - d == (2.0 - delta) * gap;
      }
    } else {
      var g := -gap;
      assert 0.0 < delta * g && 0.0 < (2.0 - delta) * g;
      assert 2.0 * gap < d < 0.0 by {
        assert d - 2.0 * gap == (2.0 - delta) * g;
        assert -d == delta * g;
      }
    }
  }

  /** For `delta > 2` the damping statement amplifies instead: with no key
      held, a frame multiplies the speed by `delta - 1`. */
  lemma OverlongFrameAmplifies(s: Axis, delta: real, a: real, r: real, size: real)
    requires delta > 2.0
    ensures Abs(AxisStep(s, false, false, delta, a, r, size).vel) == Abs(s.vel) * (delta - 1.0)
  {
    StepSpeed(s, false, false, delta, a, r, size);
  }

  /** A circle held against the right wall of a 640-pixel window with the
      right key, a 20 ms frame and the default acceleration and radius is a
      fixed point of the frame: key and damping turn its velocity to 490/99,
      the move crosses the wall, and the wall reflects it back to -490/99.
      The velocity never approaches the terminal velocity 490 there. */
  lemma WallFixedPoint()
    ensures AxisStep(Axis(620.0, -490.0 / 99.0), false, true, 0.02, 500.0, 20.0, 640.0)
         == Axis(620.0, -490.0 / 99.0)
  {
  }

  /** A circle resting on the left edge of a 640-pixel window and moving
      outward at 50 pixels per second, with no key held, a 20 ms frame and
      the default acceleration and radius, is clamped to the edge and
      bounces back at the damped speed 49. */
  lemma LeftEdgeBounce()
    ensures AxisStep(Axis(20.0, -50.0), false, false, 0.02, 500.0, 20.0, 640.0) == Axis(20.0, 49.0)
  {
  }
}
