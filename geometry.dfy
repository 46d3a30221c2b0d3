/**
 * Geometry values shared by the projection engine: bounding boxes, corner
 * radii and popmotion's linear interpolation `mix`. Numbers are reals, so the
 * interpolation laws hold exactly.
 */
module Geometry {

  /**
   * popmotion's `mix(from, to, progress)`. No clamping: a progress outside
   * [0, 1] (an overshooting easing curve) extrapolates.
   */
  function Mix(from: real, to: real, progress: real): (r: real)
    ensures progress == 0.0 ==> r == from
    ensures progress == 1.0 ==> r == to
    ensures from == to ==> r == from
  {
    from + (to - from) * progress
  }

  /** With a progress inside [0, 1] the mixed value stays between the endpoints. */
  lemma MixWithin(from: real, to: real, progress: real)
    requires 0.0 <= progress <= 1.0
    ensures from <= to ==> from <= Mix(from, to, progress) <= to
    ensures to <= from ==> to <= Mix(from, to, progress) <= from
  {
    var d := to - from;
    if d >= 0.0 {
      assert 0.0 <= d * progress <= d;
    } else {
      assert d <= d * progress <= 0.0;
    }
  }

  /**
   * The interpolation moves strictly towards `to` as progress grows: a later
   * progress gives a value strictly closer to `to` whenever the endpoints differ.
   */
  lemma MixMonotone(from: real, to: real, t1: real, t2: real)
    requires t1 < t2
    ensures from < to ==> Mix(from, to, t1) < Mix(from, to, t2)
    ensures to < from ==> Mix(from, to, t2) < Mix(from, to, t1)
  {
    var d, e := to - from, t2 - t1;
    assert Mix(from, to, t2) - Mix(from, to, t1) == d * e;
    if d > 0.0 {
      assert d * e > 0.0;
    }
    if d < 0.0 {
      assert (-d) * e > 0.0;
    }
  }

  /** An axis-aligned box; degenerate boxes are legal. */
  datatype BoundingBox = BoundingBox(top: real, left: real, right: real, bottom: real) {

    function Width(): real {
      right - left
    }

    function Height(): real {
      bottom - top
    }
  }

  /** One corner's radius, an independent horizontal and vertical length. */
  datatype BorderRadiusCornerConfig = Corner(x: real, y: real)

  datatype BorderRadiusConfig = BorderRadiusConfig(
    topLeft: BorderRadiusCornerConfig,
    topRight: BorderRadiusCornerConfig,
    bottomLeft: BorderRadiusCornerConfig,
    bottomRight: BorderRadiusCornerConfig)

  /** The `mixRadius` helper: each axis interpolated on its own. */
  function MixCorner(from: BorderRadiusCornerConfig, to: BorderRadiusCornerConfig, progress: real): (r: BorderRadiusCornerConfig)
    ensures progress == 0.0 ==> r == from
    ensures progress == 1.0 ==> r == to
    ensures from == to ==> r == from
  {
    Corner(Mix(from.x, to.x, progress), Mix(from.y, to.y, progress))
  }

  /** All four corners interpolated, each from its own from/to pair. */
  function MixRadiuses(from: BorderRadiusConfig, to: BorderRadiusConfig, progress: real): (r: BorderRadiusConfig)
    ensures progress == 0.0 ==> r == from
    ensures progress == 1.0 ==> r == to
    ensures from == to ==> r == from
  {
    BorderRadiusConfig(
      MixCorner(from.topLeft, to.topLeft, progress),
      MixCorner(from.topRight, to.topRight, progress),
      MixCorner(from.bottomLeft, to.bottomLeft, progress),
      MixCorner(from.bottomRight, to.bottomRight, progress))
  }

  /**
   * Locality: every output coordinate is decided by the matching coordinate
   * of `from` and `to` alone, whatever the other corners hold.
   */
  lemma MixRadiusesIsLocal(from1: BorderRadiusConfig, to1: BorderRadiusConfig,
                           from2: BorderRadiusConfig, to2: BorderRadiusConfig, progress: real)
    ensures var r1, r2 := MixRadiuses(from1, to1, progress), MixRadiuses(from2, to2, progress);
      && (from1.topLeft.x == from2.topLeft.x && to1.topLeft.x == to2.topLeft.x ==> r1.topLeft.x == r2.topLeft.x)
      && (from1.topLeft.y == from2.topLeft.y && to1.topLeft.y == to2.topLeft.y ==> r1.topLeft.y == r2.topLeft.y)
      && (from1.topRight.x == from2.topRight.x && to1.topRight.x == to2.topRight.x ==> r1.topRight.x == r2.topRight.x)
      && (from1.topRight.y == from2.topRight.y && to1.topRight.y == to2.topRight.y ==> r1.topRight.y == r2.topRight.y)
      && (from1.bottomLeft.x == from2.bottomLeft.x && to1.bottomLeft.x == to2.bottomLeft.x ==> r1.bottomLeft.x == r2.bottomLeft.x)
      && (from1.bottomLeft.y == from2.bottomLeft.y && to1.bottomLeft.y == to2.bottomLeft.y ==> r1.bottomLeft.y == r2.bottomLeft.y)
      && (from1.bottomRight.x == from2.bottomRight.x && to1.bottomRight.x == to2.bottomRight.x ==> r1.bottomRight.x == r2.bottomRight.x)
      && (from1.bottomRight.y == from2.bottomRight.y && to1.bottomRight.y == to2.bottomRight.y ==> r1.bottomRight.y == r2.bottomRight.y)
  {
  }
}
