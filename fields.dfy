/** The three layout fields of the cover flow: pure functions of a slide's
    signed offset z = index - position that give its lateral position, its
    rotation and its depth. */
module Fields {
  import opened MathLib

  /** The field-shaping tunables. */
  datatype Shape = Shape(
    edgeSlope: real,
    positionRoughness: real,
    centerArea: real,
    rotationArea: real,
    rotation: real,
    zoomArea: real,
    zoom: real)

  /** Values the application starts with. */
  const DefaultShape: Shape := Shape(0.3, 0.7, 1.1, 0.7, 70.0, 0.7, 0.5)

  /** The three widths the fields divide by are non-zero. */
  predicate WidthsNonZero(p: Shape)
  {
    p.positionRoughness != 0.0 && p.rotationArea != 0.0 && p.zoomArea != 0.0
  }

  /** The integral from 0 to z of the density t + w * exp(-x^2 / s^2), in
      closed form: 0.5 * sqrt(pi) * s * w * erf(z / s) + t * z. */
  function PositionField(m: Lib, z: real, s: real, t: real, w: real): real
    requires s != 0.0
  {
    0.5 * m.sqrtPi * s * w * m.erf(z / s) + t * z
  }

  /** exp(-z^2 / s^2) - 1, negated unless z is strictly positive. */
  function RotationField(m: Lib, z: real, s: real): real
    requires s != 0.0
  {
    var v := m.exp(-(z * z) / (s * s)) - 1.0;
    if 0.0 < z then v else -v
  }

  /** The Gaussian bump exp(-z^2 / s^2). */
  function ZoomField(m: Lib, z: real, s: real): real
    requires s != 0.0
  {
    m.exp(-(z * z) / (s * s))
  }

  /** The transform one slide is drawn with. */
  datatype Placement = Placement(lateral: real, angle: real, depth: real)

  /** The signed offset of slide i from the controller position x; slides
      are one unit apart. */
  function Offset(x: real, i: int): real
  {
    (i as real) * 1.0 - x
  }

  /** The placement of slide i when the controller is at x: the position
      field as lateral offset, the rotation field scaled by the rotation
      amount as angle about the vertical axis, the zoom field scaled by the
      zoom amount as depth. */
  function Place(m: Lib, p: Shape, x: real, i: int): Placement
    requires WidthsNonZero(p)
  {
    var z := Offset(x, i);
    Placement(
      PositionField(m, z, p.positionRoughness, p.edgeSlope, p.centerArea),
      RotationField(m, z, p.rotationArea) * p.rotation,
      ZoomField(m, z, p.zoomArea) * p.zoom)
  }

  /** The zoom field is even, is 1 at z = 0 and lies in (0, 1]. */
  lemma ZoomFieldShape(m: Lib, z: real, s: real)
    requires s != 0.0
    ensures ZoomField(m, -z, s) == ZoomField(m, z, s)
    ensures ExpLaws(m.exp) ==> ZoomField(m, 0.0, s) == 1.0
    ensures ExpLaws(m.exp) ==> 0.0 < ZoomField(m, z, s) <= 1.0
  {
    assert -(0.0 * 0.0) / (s * s) == 0.0;
  }

  /** The rotation field is odd away from z = 0, is 0 at z = 0 and is odd
      everywhere once exp(0) = 1; it lies in (-1, 0] for z > 0 and in
      [0, 1) for z < 0. */
  lemma RotationFieldShape(m: Lib, z: real, s: real)
    requires s != 0.0
    ensures z != 0.0 ==> RotationField(m, -z, s) == -RotationField(m, z, s)
    ensures ExpLaws(m.exp) ==> RotationField(m, 0.0, s) == 0.0
    ensures ExpLaws(m.exp) ==> RotationField(m, -z, s) == -RotationField(m, z, s)
    ensures ExpLaws(m.exp) && z > 0.0 ==> -1.0 < RotationField(m, z, s) <= 0.0
    ensures ExpLaws(m.exp) && z < 0.0 ==> 0.0 <= RotationField(m, z, s) < 1.0
  {
    assert -(0.0 * 0.0) / (s * s) == 0.0;
  }

  /** The position field is odd and is 0 at z = 0. */
  lemma PositionFieldShape(m: Lib, z: real, s: real, t: real, w: real)
    requires s != 0.0
    ensures ErfLaws(m.erf) ==> PositionField(m, 0.0, s, t, w) == 0.0
    ensures ErfLaws(m.erf) ==> PositionField(m, -z, s, t, w) == -PositionField(m, z, s, t, w)
  {
    if ErfLaws(m.erf) {
      ErfAtZero(m.erf);
      assert 0.0 / s == 0.0;
      assert (-z) / s == -(z / s);
      assert m.erf(-(z / s)) == -m.erf(z / s);
    }
  }

  /** The slide under the controller sits at lateral offset 0, unrotated, at
      the full zoom depth. */
  lemma PlaceCentered(m: Lib, p: Shape, i: int)
    requires WidthsNonZero(p) && Lawful(m)
    ensures Place(m, p, i as real, i) == Placement(0.0, 0.0, p.zoom)
  {
    assert Offset(i as real, i) == 0.0;
    PositionFieldShape(m, 0.0, p.positionRoughness, p.edgeSlope, p.centerArea);
    RotationFieldShape(m, 0.0, p.rotationArea);
    ZoomFieldShape(m, 0.0, p.zoomArea);
  }

  /** Two slides at mirrored offsets from the controller get mirrored
      placements: opposite lateral offsets and angles, the same depth. */
  lemma PlaceMirrored(m: Lib, p: Shape, x: real, i: int, j: int)
    requires WidthsNonZero(p) && Lawful(m)
    requires Offset(x, j) == -Offset(x, i)
    ensures Place(m, p, x, j).lateral == -Place(m, p, x, i).lateral
    ensures Place(m, p, x, j).angle == -Place(m, p, x, i).angle
    ensures Place(m, p, x, j).depth == Place(m, p, x, i).depth
  {
    var z := Offset(x, i);
    PositionFieldShape(m, z, p.positionRoughness, p.edgeSlope, p.centerArea);
    RotationFieldShape(m, z, p.rotationArea);
    ZoomFieldShape(m, z, p.zoomArea);
  }
}
