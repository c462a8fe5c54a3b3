/**
 * The grey level of a player: 100 plus the integer part of its speed,
 * saturated at 255 (`Player.refresh_color`).
 */
module Shading {

  /** Integer square root, rounding down, by bisection of `[0, k + 1)`. */
  function ISqrt(k: nat): (s: nat)
    ensures s * s <= k < (s + 1) * (s + 1)
  {
    assert k < (k + 1) * (k + 1) by { SquareMonotone(1, k + 1); }
    ISqrtBetween(k, 0, k + 1)
  }

  /** The integer square root of `k`, known to lie in `[lo, hi)`. */
  function ISqrtBetween(k: nat, lo: nat, hi: nat): (s: nat)
    requires lo < hi && lo * lo <= k < hi * hi
    ensures lo <= s < hi && s * s <= k < (s + 1) * (s + 1)
    decreases hi - lo
  {
    if lo + 1 == hi then lo
    else
      var mid := (lo + hi) / 2;
      if mid * mid <= k then ISqrtBetween(k, mid, hi) else ISqrtBetween(k, lo, mid)
  }

  /** `int(math.sqrt(q))` for a non-negative real `q`: the largest natural
      number whose square does not exceed `q`. */
  function FloorSqrt(q: real): (n: nat)
    requires q >= 0.0
    ensures (n * n) as real <= q < ((n + 1) * (n + 1)) as real
  {
    ISqrt(q.Floor)
  }

  /** The squared speed of a velocity. */
  function SpeedSquared(vx: real, vy: real): (q: real)
    ensures q >= 0.0
  {
    vx * vx + vy * vy
  }

  /** The grey level of a circle moving with velocity `(vx, vy)`. */
  function Color(vx: real, vy: real): (c: int)
    ensures 100 <= c <= 255
    ensures c < 255 ==> ((c - 100) * (c - 100)) as real <= SpeedSquared(vx, vy)
                        < ((c - 99) * (c - 99)) as real
    ensures c == 255 <==> SpeedSquared(vx, vy) >= 24025.0
  {
    var n := FloorSqrt(SpeedSquared(vx, vy));
    Saturation(SpeedSquared(vx, vy), n);
    if 255 < n + 100 then 255 else n + 100
  }

  lemma SquareMonotone(m: nat, n: nat)
    requires m <= n
    ensures m * m <= n * n
  {
    assert m * m <= m * n <= n * n;
  }

  /** The integer square root `n` of `q` reaches 155 exactly when `q`
      reaches 155 squared. */
  lemma Saturation(q: real, n: nat)
    requires (n * n) as real <= q < ((n + 1) * (n + 1)) as real
    ensures n >= 155 <==> q >= 24025.0
  {
    if n >= 155 {
      SquareMonotone(155, n);
      assert (n * n) as real >= 24025.0;
    } else {
      SquareMonotone(n + 1, 155);
      assert ((n + 1) * (n + 1)) as real <= 24025.0;
    }
  }

  /** A faster circle is never drawn darker. */
  lemma ColorMonotone(vx1: real, vy1: real, vx2: real, vy2: real)
    requires SpeedSquared(vx1, vy1) <= SpeedSquared(vx2, vy2)
    ensures Color(vx1, vy1) <= Color(vx2, vy2)
  {
    var c1, c2 := Color(vx1, vy1), Color(vx2, vy2);
    if c1 > c2 {
      assert c2 < 255;
      SquareMonotone(c2 - 99, c1 - 100);
    }
  }
}
