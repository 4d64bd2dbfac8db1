/**
 * Light entities: directional, point and spot lights. The colour every light carries
 * (the common Light base) is a plain field of each.
 */
module Lights {
  import opened Geometry

  /** The attenuation invariant every point and spot light keeps. */
  predicate ValidAttenuation(constant: real, linear: real, quadratic: real) {
    constant > 0.0 && linear >= 0.0 && quadratic >= 0.0
  }

  /** Defaulting of the constant coefficient: a non-positive value becomes 1.0. */
  function DefaultConstant(c: real): (r: real)
    ensures r > 0.0
    ensures c > 0.0 ==> r == c
    ensures c <= 0.0 ==> r == 1.0
  {
    if c <= 0.0 then 1.0 else c
  }

  /** Defaulting of the linear and quadratic coefficients: a negative value becomes 1.0. */
  function DefaultNonNegative(c: real): (r: real)
    ensures r >= 0.0
    ensures c >= 0.0 ==> r == c
    ensures c < 0.0 ==> r == 1.0
  {
    if c < 0.0 then 1.0 else c
  }

  /** Applying a setter twice with the same argument changes nothing more than applying it once. */
  lemma DefaultingIdempotent(c: real)
    ensures DefaultConstant(DefaultConstant(c)) == DefaultConstant(c)
    ensures DefaultNonNegative(DefaultNonNegative(c)) == DefaultNonNegative(c)
  {
  }

  /** Cut-off angles in degrees are clamped to [0, 90] by the spot light setters. */
  function ClampAngle(a: real): (r: real)
    ensures 0.0 <= r <= 90.0
    ensures 0.0 <= a <= 90.0 ==> r == a
    ensures a < 0.0 ==> r == 0.0
    ensures a > 90.0 ==> r == 90.0
  {
    if a < 0.0 then 0.0 else if a > 90.0 then 90.0 else a
  }

  lemma ClampAngleIdempotent(a: real)
    ensures ClampAngle(ClampAngle(a)) == ClampAngle(a)
  {
  }

  /** A directional light is a colour and a direction; it has no behaviour beyond storing them. */
  datatype DirectionalLight = DirectionalLight(color: Vec3, direction: Vec3)

  class PointLight {
    var position: Vec3
    var color: Vec3
    var constant: real
    var linear: real
    var quadratic: real

    ghost predicate Valid()
      reads this
    {
      ValidAttenuation(constant, linear, quadratic)
    }

    /** Stores position and colour as given; bad attenuation coefficients default to 1.0. */
    constructor (position: Vec3, color: Vec3, constant: real, linear: real, quadratic: real)
      ensures Valid()
      ensures this.position == position && this.color == color
      ensures this.constant == DefaultConstant(constant)
      ensures this.linear == DefaultNonNegative(linear)
      ensures this.quadratic == DefaultNonNegative(quadratic)
    {
      var c, l, q := constant, linear, quadratic;
      if c <= 0.0 {
        c := 1.0;
      }
      if l < 0.0 {
        l := 1.0;
      }
      if q < 0.0 {
        q := 1.0;
      }
      this.position := position;
      this.color := color;
      this.constant := c;
      this.linear := l;
      this.quadratic := q;
    }

    method SetPosition(p: Vec3)
      modifies this
      ensures position == p
      ensures color == old(color) && constant == old(constant)
      ensures linear == old(linear) && quadratic == old(quadratic)
    {
      position := p;
    }

    method SetConstant(c: real)
      modifies this
      ensures constant == DefaultConstant(c)
      ensures position == old(position) && color == old(color)
      ensures linear == old(linear) && quadratic == old(quadratic)
      ensures old(Valid()) ==> Valid()
    {
      constant := if c > 0.0 then c else 1.0;
    }

    method SetLinear(l: real)
      modifies this
      ensures linear == DefaultNonNegative(l)
      ensures position == old(position) && color == old(color)
      ensures constant == old(constant) && quadratic == old(quadratic)
      ensures old(Valid()) ==> Valid()
    {
      linear := if l >= 0.0 then l else 1.0;
    }

    method SetQuadratic(q: real)
      modifies this
      ensures quadratic == DefaultNonNegative(q)
      ensures position == old(position) && color == old(color)
      ensures constant == old(constant) && linear == old(linear)
      ensures old(Valid()) ==> Valid()
    {
      quadratic := if q >= 0.0 then q else 1.0;
    }
  }

  class SpotLight {
    var position: Vec3
    var color: Vec3
    var direction: Vec3
    var constant: real
    var linear: real
    var quadratic: real
    var cutOff: real
    var outerCutOff: real

    /** Only attenuation is an invariant of the entity; the angle order is checked by the loader. */
    ghost predicate Valid()
      reads this
    {
      ValidAttenuation(constant, linear, quadratic)
    }

    /** Attenuation is defaulted as for point lights; the angles are stored without clamping. */
    constructor (position: Vec3, color: Vec3, direction: Vec3,
                 constant: real, linear: real, quadratic: real,
                 cutOff: real, outerCutOff: real)
      ensures Valid()
      ensures this.position == position && this.color == color && this.direction == direction
      ensures this.constant == DefaultConstant(constant)
      ensures this.linear == DefaultNonNegative(linear)
      ensures this.quadratic == DefaultNonNegative(quadratic)
      ensures this.cutOff == cutOff && this.outerCutOff == outerCutOff
    {
      this.position := position;
      this.color := color;
      this.direction := direction;
      var c, l, q := constant, linear, quadratic;
      if c <= 0.0 {
        c := 1.0;
      }
      if l < 0.0 {
        l := 1.0;
      }
      if q < 0.0 {
        q := 1.0;
      }
      this.constant := c;
      this.linear := l;
      this.quadratic := q;
      this.cutOff := cutOff;
      this.outerCutOff := outerCutOff;
    }

    method SetPosition(p: Vec3)
      modifies this
      ensures position == p
      ensures color == old(color) && direction == old(direction)
      ensures constant == old(constant) && linear == old(linear) && quadratic == old(quadratic)
      ensures cutOff == old(cutOff) && outerCutOff == old(outerCutOff)
    {
      position := p;
    }

    method SetDirection(d: Vec3)
      modifies this
      ensures direction == d
      ensures position == old(position) && color == old(color)
      ensures constant == old(constant) && linear == old(linear) && quadratic == old(quadratic)
      ensures cutOff == old(cutOff) && outerCutOff == old(outerCutOff)
    {
      direction := d;
    }

    method SetConstant(c: real)
      modifies this
      ensures constant == DefaultConstant(c)
      ensures position == old(position) && color == old(color) && direction == old(direction)
      ensures linear == old(linear) && quadratic == old(quadratic)
      ensures cutOff == old(cutOff) && outerCutOff == old(outerCutOff)
      ensures old(Valid()) ==> Valid()
    {
      constant := if c > 0.0 then c else 1.0;
    }

    method SetLinear(l: real)
      modifies this
      ensures linear == DefaultNonNegative(l)
      ensures position == old(position) && color == old(color) && direction == old(direction)
      ensures constant == old(constant) && quadratic == old(quadratic)
      ensures cutOff == old(cutOff) && outerCutOff == old(outerCutOff)
      ensures old(Valid()) ==> Valid()
    {
      linear := if l >= 0.0 then l else 1.0;
    }

    method SetQuadratic(q: real)
      modifies this
      ensures quadratic == DefaultNonNegative(q)
      ensures position == old(position) && color == old(color) && direction == old(direction)
      ensures constant == old(constant) && linear == old(linear)
      ensures cutOff == old(cutOff) && outerCutOff == old(outerCutOff)
      ensures old(Valid()) ==> Valid()
    {
      quadratic := if q >= 0.0 then q else 1.0;
    }

    /** Clamps to [0, 90]; says nothing about the order of the two angles. */
    method SetCutOff(a: real)
      modifies this
      ensures cutOff == ClampAngle(a)
      ensures position == old(position) && color == old(color) && direction == old(direction)
      ensures constant == old(constant) && linear == old(linear) && quadratic == old(quadratic)
      ensures outerCutOff == old(outerCutOff)
    {
      if a < 0.0 {
        cutOff := 0.0;
      } else if a > 90.0 {
        cutOff := 90.0;
      } else {
        cutOff := a;
      }
    }

    method SetOuterCutOff(a: real)
      modifies this
      ensures outerCutOff == ClampAngle(a)
      ensures position == old(position) && color == old(color) && direction == old(direction)
      ensures constant == old(constant) && linear == old(linear) && quadratic == old(quadratic)
      ensures cutOff == old(cutOff)
    {
      if a < 0.0 {
        outerCutOff := 0.0;
      } else if a > 90.0 {
        outerCutOff := 90.0;
      } else {
        outerCutOff := a;
      }
    }
  }
}
