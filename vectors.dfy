/**
 * Two-dimensional vectors of the particle engine.
 *
 * `Point` is the value of a vector at one moment; `Vec2` is the mutable
 * object of the original program, whose `add` changes its receiver in place
 * and returns it, and whose `clone` returns an independent copy. Random
 * vectors are drawn from an externally supplied stream of samples in [0, 1)
 * instead of from a random number generator.
 */
module Vectors {

  /** The value of a vector. */
  datatype Point = Point(x: real, y: real)

  /** Component-wise sum of two vector values. */
  function Plus(a: Point, b: Point): Point
  {
    Point(a.x + b.x, a.y + b.y)
  }

  /** One sample of the uniform random source: a number in [0, 1). */
  type Sample = r: real | 0.0 <= r < 1.0

  /** An endless stream of samples, standing for successive calls of the random source. */
  type Stream = nat -> Sample

  /** `v` lies in the closed interval spanned by `a` and `b`, whichever of them is larger. */
  predicate Between(v: real, a: real, b: real)
  {
    (a <= v <= b) || (b <= v <= a)
  }

  function Abs(v: real): (r: real)
    ensures r >= 0.0 && (r == v || r == -v)
  {
    if v < 0.0 then -v else v
  }

  /**
   * The scaled sample `r * (max - min) + min`. The range is not validated:
   * when `min > max` the result lies in the inverted interval.
   */
  function Uniform(min: real, max: real, r: Sample): (v: real)
    ensures Between(v, min, max)
  {
    UniformBetween(min, max, r);
    r * (max - min) + min
  }

  /** The product of two non-negative reals is non-negative. */
  lemma MulNonNeg(a: real, b: real)
    requires a >= 0.0 && b >= 0.0
    ensures a * b >= 0.0
  {
  }

  /** The scaled sample lies between the two ends of the range, in either order. */
  lemma UniformBetween(min: real, max: real, r: Sample)
    ensures Between(r * (max - min) + min, min, max)
  {
    var d := max - min;
    if d >= 0.0 {
      MulNonNeg(r, d);
      MulNonNeg(1.0 - r, d);
      assert (1.0 - r) * d == d - r * d;
      assert min <= r * d + min <= max;
    } else {
      var u := -d;
      MulNonNeg(r, u);
      MulNonNeg(1.0 - r, u);
      assert (1.0 - r) * u == u - r * u;
      assert r * d == -(r * u);
      assert max <= r * d + min <= min;
    }
  }

  /** A value between `-a` and `a` never exceeds `|a|` in magnitude, whatever the sign of `a`. */
  lemma {:induction false} SymmetricBound(v: real, a: real)
    requires Between(v, -a, a)
    ensures -Abs(a) <= v <= Abs(a)
  {
  }

  /**
   * The vector drawn by one call of the random-vector sampler: two separate
   * samples, one per component.
   */
  function RandomPoint(min: real, max: real, rx: Sample, ry: Sample): (p: Point)
    ensures Between(p.x, min, max) && Between(p.y, min, max)
  {
    Point(Uniform(min, max, rx), Uniform(min, max, ry))
  }

  /** The mutable vector object. */
  class Vec2 {
    var x: real
    var y: real

    /** The vector's current value. */
    function Value(): Point
      reads this
    {
      Point(x, y)
    }

    constructor (x: real, y: real)
      ensures Value() == Point(x, y)
    {
      this.x := x;
      this.y := y;
    }

    /**
     * Adds `v` to this vector in place and returns this same object. When `v`
     * is this object, both components double.
     */
    method Add(v: Vec2) returns (r: Vec2)
      modifies this
      ensures r == this
      ensures Value() == Plus(old(Value()), old(v.Value()))
    {
      x := x + v.x;
      y := y + v.y;
      r := this;
    }

    /** An independent copy: a new object holding this vector's value. */
    method Clone() returns (c: Vec2)
      ensures fresh(c) && c.Value() == Value()
    {
      c := new Vec2(x, y);
    }

    /** A new vector whose two components are sampled separately from the range [min, max). */
    static method GetRandom(min: real, max: real, rx: Sample, ry: Sample) returns (v: Vec2)
      ensures fresh(v) && v.Value() == RandomPoint(min, max, rx, ry)
    {
      v := new Vec2(Uniform(min, max, rx), Uniform(min, max, ry));
    }
  }

  /**
   * The vector part of one particle's integration step, written with the
   * mutable objects: the new speed is a clone of the old speed with the drift
   * added, and the new location is a clone of the old location with the NEW
   * speed added. The particle's own vectors and the drift are left untouched.
   */
  method MoveVectors(speed: Vec2, location: Vec2, drift: Vec2) returns (newSpeed: Vec2, newLocation: Vec2)
    ensures fresh(newSpeed) && fresh(newLocation) && newSpeed != newLocation
    ensures newSpeed.Value() == Plus(speed.Value(), drift.Value())
    ensures newLocation.Value() == Plus(location.Value(), newSpeed.Value())
  {
    newSpeed := speed.Clone();
    newSpeed := newSpeed.Add(drift);
    newLocation := location.Clone();
    newLocation := newLocation.Add(newSpeed);
  }
}
