/**
 * The border-radius projection and animation components: reading a node's
 * corner radii from its computed style, writing radii that cancel the
 * projection's scale, planning a radius animation and drawing one frame of it.
 *
 * A computed CSS radius is modelled by the shape the parser recognises rather
 * than as text: the pixel-pair pattern needs a space and both single-value
 * tests refuse one, and those two differ in their unit, so at most one of the
 * three shapes fits a given style.
 */
module BorderRadius {
  import opened Geometry
  import opened Projection
  import opened Results

  /** One computed corner radius, by the form the parser accepts it in. */
  datatype CssRadius =
    | PxPair(x: real, y: real)   // "<x>px <y>px"
    | Percent(percent: real)     // "<p>%"
    | Px(length: real)           // "<v>px"
    | Unsupported(text: string)  // anything else, kept verbatim for the error message

  /** The four longhand radius properties of a computed style. */
  datatype RadiusStyles = RadiusStyles(
    topLeft: CssRadius,
    topRight: CssRadius,
    bottomLeft: CssRadius,
    bottomRight: CssRadius)

  /** The scale part of a projection's distortion, the only part these components read. */
  datatype ProjectionDistortion = ProjectionDistortion(scaleX: real, scaleY: real)

  /** An animation route of border radii: where the radii start and where they end. */
  datatype BorderRadiusRoute = BorderRadiusRoute(from: BorderRadiusConfig, to: BorderRadiusConfig)

  const UnsupportedPrefix: string := "Unsupported radius: "

  /**
   * `CssBorderRadiusParser.parse`: a pixel pair is taken as is, a percentage
   * is a share of the reference box's width and height, a single pixel length
   * is used on both axes, and anything else is an error naming the style.
   */
  function Parse(style: CssRadius, width: real, height: real): (r: Result<BorderRadiusCornerConfig>)
    ensures r.Err? <==> style.Unsupported?
    ensures style.Unsupported? ==> r.message == UnsupportedPrefix + style.text
    ensures style.PxPair? ==> r == Ok(Corner(style.x, style.y))
    ensures style.Percent? ==> r.Ok? && r.value == Corner(style.percent / 100.0 * width, style.percent / 100.0 * height)
    ensures style.Px? ==> r == Ok(Corner(style.length, style.length))
  {
    match style
    case PxPair(x, y) => Ok(Corner(x, y))
    case Percent(p) => Ok(Corner(p / 100.0 * width, p / 100.0 * height))
    case Px(v) => Ok(Corner(v, v))
    case Unsupported(text) => Err(UnsupportedPrefix + text)
  }

  /** A single pixel length reads exactly like the pair repeating it, whatever the box. */
  lemma PxIsEqualPair(v: real, width1: real, height1: real, width2: real, height2: real)
    ensures Parse(Px(v), width1, height1) == Parse(PxPair(v, v), width2, height2)
  {
  }

  /** "100%" spans the whole reference box, "0%" nothing; percentages scale linearly. */
  lemma PercentOfBox(p: real, q: real, width: real, height: real)
    ensures Parse(Percent(100.0), width, height) == Ok(Corner(width, height))
    ensures Parse(Percent(0.0), width, height) == Ok(Corner(0.0, 0.0))
    ensures var a, b, c := Parse(Percent(p), width, height).value, Parse(Percent(q), width, height).value,
                           Parse(Percent(p + q), width, height).value;
      c.x == a.x + b.x && c.y == a.y + b.y
  {
    var a, b := Parse(Percent(p), width, height).value, Parse(Percent(q), width, height).value;
    assert (p + q) / 100.0 * width == p / 100.0 * width + q / 100.0 * width;
    assert (p + q) / 100.0 * height == p / 100.0 * height + q / 100.0 * height;
  }

  /**
   * `BorderRadiusMeasurer.measure`: every corner parsed on its own against
   * the same box's width and height, in the order top-left, top-right,
   * bottom-left, bottom-right; the first unsupported corner is the error.
   */
  function Measure(styles: RadiusStyles, box: BoundingBox): (r: Result<BorderRadiusConfig>)
    ensures r.Ok? <==> !styles.topLeft.Unsupported? && !styles.topRight.Unsupported?
                       && !styles.bottomLeft.Unsupported? && !styles.bottomRight.Unsupported?
    ensures r.Ok? ==>
      && Ok(r.value.topLeft) == Parse(styles.topLeft, box.Width(), box.Height())
      && Ok(r.value.topRight) == Parse(styles.topRight, box.Width(), box.Height())
      && Ok(r.value.bottomLeft) == Parse(styles.bottomLeft, box.Width(), box.Height())
      && Ok(r.value.bottomRight) == Parse(styles.bottomRight, box.Width(), box.Height())
    ensures styles.topLeft.Unsupported? ==> r == Err(UnsupportedPrefix + styles.topLeft.text)
    ensures !styles.topLeft.Unsupported? && styles.topRight.Unsupported? ==>
      r == Err(UnsupportedPrefix + styles.topRight.text)
    ensures !styles.topLeft.Unsupported? && !styles.topRight.Unsupported? && styles.bottomLeft.Unsupported? ==>
      r == Err(UnsupportedPrefix + styles.bottomLeft.text)
    ensures !styles.topLeft.Unsupported? && !styles.topRight.Unsupported? && !styles.bottomLeft.Unsupported?
            && styles.bottomRight.Unsupported? ==>
      r == Err(UnsupportedPrefix + styles.bottomRight.text)
  {
    var width, height := box.Width(), box.Height();
    var topLeft :- Parse(styles.topLeft, width, height);
    var topRight :- Parse(styles.topRight, width, height);
    var bottomLeft :- Parse(styles.bottomLeft, width, height);
    var bottomRight :- Parse(styles.bottomRight, width, height);
    Ok(BorderRadiusConfig(topLeft, topRight, bottomLeft, bottomRight))
  }

  /** Only the box's size matters to `Measure`: moving the box changes nothing. */
  lemma MeasureUsesBoxSizeOnly(styles: RadiusStyles, box1: BoundingBox, box2: BoundingBox)
    requires box1.Width() == box2.Width() && box1.Height() == box2.Height()
    ensures Measure(styles, box1) == Measure(styles, box2)
  {
  }

  /** Pixel radii do not depend on the box at all. */
  lemma MeasurePixelsIgnoresBox(styles: RadiusStyles, box1: BoundingBox, box2: BoundingBox)
    requires !styles.topLeft.Percent? && !styles.topRight.Percent?
    requires !styles.bottomLeft.Percent? && !styles.bottomRight.Percent?
    ensures Measure(styles, box1) == Measure(styles, box2)
  {
  }

  /**
   * The style written for one corner: each axis divided by the projection's
   * scale on that axis, written as a pixel pair. The parser reads it back as
   * that pair only when the second length is not negative (`PairReadable`).
   */
  function RadiusStyle(radius: BorderRadiusCornerConfig, distortion: ProjectionDistortion): (s: CssRadius)
    requires distortion.scaleX != 0.0 && distortion.scaleY != 0.0
    ensures s.PxPair? && s.x * distortion.scaleX == radius.x && s.y * distortion.scaleY == radius.y
  {
    DivideThenScale(radius.x, distortion.scaleX);
    DivideThenScale(radius.y, distortion.scaleY);
    PxPair(radius.x / distortion.scaleX, radius.y / distortion.scaleY)
  }

  lemma DivideThenScale(value: real, scale: real)
    requires scale != 0.0
    ensures value / scale * scale == value
  {
  }

  /**
   * `BorderRadiusProjectionComponent.cancelDistortion`: the four corner
   * styles written onto the element, so that once the projection scales the
   * element by the distortion the corners show the node's radii again.
   */
  function CancelDistortion(radiuses: BorderRadiusConfig, distortion: ProjectionDistortion): (styles: RadiusStyles)
    requires distortion.scaleX != 0.0 && distortion.scaleY != 0.0
    ensures styles.topLeft == RadiusStyle(radiuses.topLeft, distortion)
    ensures styles.topRight == RadiusStyle(radiuses.topRight, distortion)
    ensures styles.bottomLeft == RadiusStyle(radiuses.bottomLeft, distortion)
    ensures styles.bottomRight == RadiusStyle(radiuses.bottomRight, distortion)
  {
    RadiusStyles(
      RadiusStyle(radiuses.topLeft, distortion),
      RadiusStyle(radiuses.topRight, distortion),
      RadiusStyle(radiuses.bottomLeft, distortion),
      RadiusStyle(radiuses.bottomRight, distortion))
  }

  /** What a corner looks like once the projection scales it. */
  function DistortCorner(corner: BorderRadiusCornerConfig, distortion: ProjectionDistortion): BorderRadiusCornerConfig
  {
    Corner(corner.x * distortion.scaleX, corner.y * distortion.scaleY)
  }

  function Distort(radiuses: BorderRadiusConfig, distortion: ProjectionDistortion): BorderRadiusConfig
  {
    BorderRadiusConfig(
      DistortCorner(radiuses.topLeft, distortion),
      DistortCorner(radiuses.topRight, distortion),
      DistortCorner(radiuses.bottomLeft, distortion),
      DistortCorner(radiuses.bottomRight, distortion))
  }

  /**
   * The pixel-pair pattern needs a digit right after "px ", so a written pair
   * reads back only when its second length, `y / scaleY`, is not negative.
   */
  predicate PairReadable(radius: BorderRadiusCornerConfig, distortion: ProjectionDistortion)
    requires distortion.scaleY != 0.0
  {
    radius.y / distortion.scaleY >= 0.0
  }

  predicate PairsReadable(radiuses: BorderRadiusConfig, distortion: ProjectionDistortion)
    requires distortion.scaleY != 0.0
  {
    && PairReadable(radiuses.topLeft, distortion) && PairReadable(radiuses.topRight, distortion)
    && PairReadable(radiuses.bottomLeft, distortion) && PairReadable(radiuses.bottomRight, distortion)
  }

  /** An upright projection of non-negative radii writes pairs that read back. */
  lemma UprightPairsReadable(radiuses: BorderRadiusConfig, distortion: ProjectionDistortion)
    requires distortion.scaleY > 0.0
    requires radiuses.topLeft.y >= 0.0 && radiuses.topRight.y >= 0.0
    requires radiuses.bottomLeft.y >= 0.0 && radiuses.bottomRight.y >= 0.0
    ensures PairsReadable(radiuses, distortion)
  {
    QuotientNonNegative(radiuses.topLeft.y, distortion.scaleY);
    QuotientNonNegative(radiuses.topRight.y, distortion.scaleY);
    QuotientNonNegative(radiuses.bottomLeft.y, distortion.scaleY);
    QuotientNonNegative(radiuses.bottomRight.y, distortion.scaleY);
  }

  lemma QuotientNonNegative(value: real, scale: real)
    requires value >= 0.0 && scale > 0.0
    ensures value / scale >= 0.0
  {
  }

  /**
   * Round trip: when the written pairs are readable, the styles
   * `CancelDistortion` writes are accepted by the measurer, whatever box it
   * measures against, and once distorted by the projection they give back
   * exactly the radii they were written for.
   */
  lemma CancelDistortionRoundTrip(radiuses: BorderRadiusConfig, distortion: ProjectionDistortion, box: BoundingBox)
    requires distortion.scaleX != 0.0 && distortion.scaleY != 0.0
    requires PairsReadable(radiuses, distortion)
    ensures Measure(CancelDistortion(radiuses, distortion), box).Ok?
    ensures Distort(Measure(CancelDistortion(radiuses, distortion), box).value, distortion) == radiuses
  {
    var styles := CancelDistortion(radiuses, distortion);
    var measured := Measure(styles, box).value;
    assert measured.topLeft == Corner(styles.topLeft.x, styles.topLeft.y);
    assert measured.topRight == Corner(styles.topRight.x, styles.topRight.y);
    assert measured.bottomLeft == Corner(styles.bottomLeft.x, styles.bottomLeft.y);
    assert measured.bottomRight == Corner(styles.bottomRight.x, styles.bottomRight.y);
  }

  /**
   * `BorderRadiusAnimationComponent.buildPlan`: the route ends at the node's
   * current radii and starts at the snapshot's radii, or, without a
   * snapshot value, at the node's own.
   */
  function BuildPlan(node: ProjectionNode, snapshot: Option<BorderRadiusConfig>): (route: BorderRadiusRoute)
    reads node
    ensures route.to == node.borderRadiuses
    ensures snapshot.Some? ==> route.from == snapshot.value
    ensures snapshot.None? ==> route.from == route.to
  {
    var from := if snapshot.Some? then snapshot.value else node.borderRadiuses;
    BorderRadiusRoute(from, node.borderRadiuses)
  }

  /**
   * Without a snapshot the plan stands still: every frame shows the node's
   * current radii.
   */
  lemma PlanWithoutSnapshotIsStill(node: ProjectionNode, progress: real)
    ensures var route := BuildPlan(node, None);
      MixRadiuses(route.from, route.to, progress) == node.borderRadiuses
  {
  }

  /**
   * With a snapshot the plan's first frame shows the snapshot's radii and its
   * last frame the node's current ones.
   */
  lemma PlanFromSnapshotEndpoints(node: ProjectionNode, snapshot: BorderRadiusConfig)
    ensures var route := BuildPlan(node, Some(snapshot));
      && MixRadiuses(route.from, route.to, 0.0) == snapshot
      && MixRadiuses(route.from, route.to, 1.0) == node.borderRadiuses
  {
  }

  /**
   * `BorderRadiusAnimationComponent.handleFrame`: sets the node's radii to the
   * route mixed at `progress`, corner by corner and axis by axis, and touches
   * nothing else on the node.
   */
  method HandleFrame(node: ProjectionNode, progress: real, route: BorderRadiusRoute)
    modifies node`borderRadiuses
    ensures node.borderRadiuses == MixRadiuses(route.from, route.to, progress)
    ensures progress == 0.0 ==> node.borderRadiuses == route.from
    ensures progress == 1.0 ==> node.borderRadiuses == route.to
    ensures node.projectedBox == old(node.projectedBox)
  {
    node.borderRadiuses := BorderRadiusConfig(
      MixCorner(route.from.topLeft, route.to.topLeft, progress),
      MixCorner(route.from.topRight, route.to.topRight, progress),
      MixCorner(route.from.bottomLeft, route.to.bottomLeft, progress),
      MixCorner(route.from.bottomRight, route.to.bottomRight, progress));
  }
}
