/** Plane vectors. An angle is represented by its unit vector, so turning by it is complex multiplication. */
module Plane {
  datatype Vec = Vec(x: real, y: real)

  const ZERO := Vec(0.0, 0.0)
  const EAST := Vec(1.0, 0.0)

  function Add(u: Vec, v: Vec): Vec {
    Vec(u.x + v.x, u.y + v.y)
  }

  function Sub(u: Vec, v: Vec): Vec {
    Vec(u.x - v.x, u.y - v.y)
  }

  function Scale(c: real, v: Vec): Vec {
    Vec(c * v.x, c * v.y)
  }

  /** `v` turned by the angle of `h`. */
  function Rot(h: Vec, v: Vec): Vec {
    Vec(h.x * v.x - h.y * v.y, h.y * v.x + h.x * v.y)
  }

  function Times(a: real, b: real): real {
    a * b
  }

  function Square(a: real): real {
    Times(a, a)
  }

  function NormSq(v: Vec): real {
    Square(v.x) + Square(v.y)
  }

  predicate Unit(h: Vec) {
    NormSq(h) == 1.0
  }

  /** `h` is the unit vector of the angle `arctan2` gives `d`; the zero vector has angle zero. */
  ghost predicate IsDirection(d: Vec, h: Vec) {
    Unit(h) && if d == ZERO then h == EAST else exists c: real :: c > 0.0 && d == Scale(c, h)
  }

  /** `dir` plays the part of `arctan2` followed by `cos` and `sin`. */
  ghost predicate Directs(dir: Vec -> Vec) {
    forall d :: IsDirection(d, dir(d))
  }

  lemma RotAdd(h: Vec, u: Vec, v: Vec)
    ensures Rot(h, Add(u, v)) == Add(Rot(h, u), Rot(h, v)) && Rot(h, Sub(u, v)) == Sub(Rot(h, u), Rot(h, v))
  {
    assert h.x * (u.x + v.x) == h.x * u.x + h.x * v.x && h.y * (u.y + v.y) == h.y * u.y + h.y * v.y;
    assert h.y * (u.x + v.x) == h.y * u.x + h.y * v.x && h.x * (u.y + v.y) == h.x * u.y + h.x * v.y;
    assert h.x * (u.x - v.x) == h.x * u.x - h.x * v.x && h.y * (u.y - v.y) == h.y * u.y - h.y * v.y;
    assert h.y * (u.x - v.x) == h.y * u.x - h.y * v.x && h.x * (u.y - v.y) == h.x * u.y - h.x * v.y;
  }

  lemma RotScale(h: Vec, c: real, v: Vec)
    ensures Rot(h, Scale(c, v)) == Scale(c, Rot(h, v))
  {
    assert h.x * (c * v.x) == c * (h.x * v.x) && h.y * (c * v.y) == c * (h.y * v.y);
    assert h.y * (c * v.x) == c * (h.y * v.x) && h.x * (c * v.y) == c * (h.x * v.y);
  }

  lemma RotRot(g: Vec, h: Vec, v: Vec)
    ensures Rot(Rot(g, h), v) == Rot(g, Rot(h, v))
  {
    assert (g.x * h.x - g.y * h.y) * v.x == g.x * (h.x * v.x) - g.y * (h.y * v.x);
    assert (g.y * h.x + g.x * h.y) * v.y == g.y * (h.x * v.y) + g.x * (h.y * v.y);
    assert (g.y * h.x + g.x * h.y) * v.x == g.y * (h.x * v.x) + g.x * (h.y * v.x);
    assert (g.x * h.x - g.y * h.y) * v.y == g.x * (h.x * v.y) - g.y * (h.y * v.y);
  }

  lemma NormSqRot(h: Vec, v: Vec)
    ensures NormSq(Rot(h, v)) == NormSq(h) * NormSq(v)
  {
    var a, b, c, d := h.x, h.y, v.x, v.y;
    var r := Rot(h, v);
    assert r.x * r.x == (a * c) * (a * c) - 2.0 * ((a * c) * (b * d)) + (b * d) * (b * d);
    assert r.y * r.y == (b * c) * (b * c) + 2.0 * ((b * c) * (a * d)) + (a * d) * (a * d);
    assert (a * c) * (b * d) == (b * c) * (a * d);
    assert (a * c) * (a * c) == (a * a) * (c * c) && (b * d) * (b * d) == (b * b) * (d * d);
    assert (b * c) * (b * c) == (b * b) * (c * c) && (a * d) * (a * d) == (a * a) * (d * d);
  }

  /** Turning by an angle keeps lengths. */
  lemma NormSqTurned(h: Vec, v: Vec)
    requires Unit(h)
    ensures NormSq(Rot(h, v)) == NormSq(v)
  {
    NormSqRot(h, v);
    TimesOne(NormSq(h), NormSq(v));
  }

  lemma TimesOne(a: real, b: real)
    requires a == 1.0
    ensures a * b == b
  {
  }

  lemma UnitRot(g: Vec, h: Vec)
    requires Unit(g) && Unit(h)
    ensures Unit(Rot(g, h))
  {
    NormSqTurned(g, h);
  }

  lemma TimesPositive(a: real, b: real)
    requires (a > 0.0 && b > 0.0) || (a < 0.0 && b < 0.0)
    ensures Times(a, b) > 0.0
  {
  }

  lemma SquarePositive(a: real)
    ensures Square(a) >= 0.0 && (Square(a) == 0.0 <==> a == 0.0)
  {
    if a != 0.0 {
      TimesPositive(a, a);
    } else {
      assert Times(0.0, 0.0) == 0.0;
    }
  }

  lemma NormSqPositive(v: Vec)
    ensures NormSq(v) >= 0.0 && (NormSq(v) == 0.0 <==> v == ZERO)
  {
    SquarePositive(v.x);
    SquarePositive(v.y);
  }

  lemma ZeroTogether(u: Vec, v: Vec)
    requires NormSq(u) == NormSq(v)
    ensures u == ZERO <==> v == ZERO
  {
    NormSqPositive(u);
    NormSqPositive(v);
  }

  lemma RotZero(h: Vec, v: Vec)
    requires Unit(h)
    ensures Rot(h, v) == ZERO <==> v == ZERO
  {
    NormSqTurned(h, v);
    ZeroTogether(Rot(h, v), v);
  }

  lemma RotEast(h: Vec)
    ensures Rot(h, EAST) == h && Rot(h, ZERO) == ZERO && Unit(EAST)
  {
    assert Times(1.0, 1.0) == 1.0 && Times(0.0, 0.0) == 0.0;
  }

  lemma TurnFromEast(v: Vec)
    ensures Rot(EAST, v) == v
  {
  }

  lemma RotInjective(h: Vec, u: Vec, v: Vec)
    requires Unit(h) && Rot(h, u) == Rot(h, v)
    ensures u == v
  {
    RotAdd(h, u, v);
    RotZero(h, Sub(u, v));
  }

  lemma NormSqScale(c: real, v: Vec)
    ensures NormSq(Scale(c, v)) == c * c * NormSq(v)
  {
    assert (c * v.x) * (c * v.x) == c * c * (v.x * v.x) && (c * v.y) * (c * v.y) == c * c * (v.y * v.y);
    assert c * c * (v.x * v.x + v.y * v.y) == c * c * (v.x * v.x) + c * c * (v.y * v.y);
  }

  lemma SquareRootsAgree(a: real, b: real)
    requires a > 0.0 && b > 0.0 && a * a == b * b
    ensures a == b
  {
    assert (a - b) * (a + b) == a * a - b * b;
  }

  /** A vector has one direction only. */
  lemma DirectionUnique(d: Vec, g: Vec, h: Vec)
    requires IsDirection(d, g) && IsDirection(d, h)
    ensures g == h
  {
    if d != ZERO {
      var b: real :| b > 0.0 && d == Scale(b, g);
      var c: real :| c > 0.0 && d == Scale(c, h);
      NormSqScale(b, g);
      NormSqScale(c, h);
      SquareRootsAgree(b, c);
      assert c * g.x == c * h.x && c * g.y == c * h.y;
    }
  }

  /** Turning a nonzero vector turns its direction. */
  lemma DirectionTurns(dir: Vec -> Vec, h: Vec, d: Vec)
    requires Directs(dir) && Unit(h) && d != ZERO
    ensures dir(Rot(h, d)) == Rot(h, dir(d))
  {
    assert IsDirection(d, dir(d));
    var c: real :| c > 0.0 && d == Scale(c, dir(d));
    RotScale(h, c, dir(d));
    UnitRot(h, dir(d));
    RotZero(h, d);
    assert Rot(h, d) == Scale(c, Rot(h, dir(d)));
    assert IsDirection(Rot(h, d), Rot(h, dir(d)));
    assert IsDirection(Rot(h, d), dir(Rot(h, d)));
    DirectionUnique(Rot(h, d), dir(Rot(h, d)), Rot(h, dir(d)));
  }
}
