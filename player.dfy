/**
 * The player circle of the game window: its position, velocity,
 * acceleration, radius and grey level, updated in place once per frame.
 */
module Game {
  import opened Motion
  import Shading

  class Player {
    var x: real
    var y: real
    var vx: real
    var vy: real
    /** Acceleration: the velocity change per second of a held key. */
    var a: real
    /** Radius of the circle. */
    var r: real
    var color: int

    /** The grey level always matches the current speed. */
    predicate Valid()
      reads this
      ensures Valid() ==> 100 <= color <= 255
    {
      color == Shading.Color(vx, vy)
    }

    /** A new player, by default at (100, 100), at rest, with acceleration
        500 and radius 20. */
    constructor (x0: real := 100.0, y0: real := 100.0, vx0: real := 0.0, vy0: real := 0.0,
                 a0: real := 500.0, r0: real := 20.0)
      ensures x == x0 && y == y0 && vx == vx0 && vy == vy0 && a == a0 && r == r0
      ensures Valid()
    {
      x, y, vx, vy, a, r := x0, y0, vx0, vy0, a0, r0;
      color := Shading.Color(vx0, vy0);
    }

    /** Sets the grey level from the current speed. */
    method RefreshColor()
      modifies this`color
      ensures Valid()
    {
      color := Shading.Color(vx, vy);
    }

    /** One frame of `delta` seconds with the given keys held, in a window of
        `width` by `height`. */
    method Update(delta: real, left: bool, right: bool, up: bool, down: bool, width: real, height: real)
      modifies this
      ensures a == old(a) && r == old(r)
      ensures Axis(x, vx) == AxisStep(Axis(old(x), old(vx)), left, right, delta, a, r, width)
      ensures Axis(y, vy) == AxisStep(Axis(old(y), old(vy)), up, down, delta, a, r, height)
      ensures Valid()
      ensures 2.0 * r <= width ==> r <= x <= width - r
      ensures 2.0 * r <= height ==> r <= y <= height - r
      ensures !left && !right && 0.0 <= delta <= 1.0 ==> Abs(vx) <= Abs(old(vx))
      ensures !up && !down && 0.0 <= delta <= 1.0 ==> Abs(vy) <= Abs(old(vy))
    {
      ghost var sx, sy := Axis(x, vx), Axis(y, vy);
      x, vx := MoveAxis(x, vx, left, right, delta, a, r, width);
      y, vy := MoveAxis(y, vy, up, down, delta, a, r, height);
      RefreshColor();

      if !left && !right && 0.0 <= delta <= 1.0 {
        IdleDecay(sx, delta, a, r, width);
      }
      if !up && !down && 0.0 <= delta <= 1.0 {
        IdleDecay(sy, delta, a, r, height);
      }
    }
  }

  /** A player built with the default arguments sits at (100, 100), at rest,
      and is drawn in grey level 100. */
  method NewDefaultPlayer() returns (p: Player)
    ensures fresh(p)
    ensures p.x == 100.0 && p.y == 100.0 && p.vx == 0.0 && p.vy == 0.0
    ensures p.a == 500.0 && p.r == 20.0 && p.color == 100
  {
    p := new Player();
    assert Shading.ISqrt(0) == 0;
  }
}
