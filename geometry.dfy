/** The wedge geometry of the donut chart: points on the circle and the
    outline of one pie slice (`polarToCartesian` and `arcPath`). */
module Geometry {

  /** A point of the drawing. `OnCircle(cx, cy, r, angle)` stands for the
      point `polarToCartesian(cx, cy, r, angle)` computes: on the circle of
      radius `r` around `(cx, cy)`, `angle` degrees clockwise from twelve
      o'clock. The cosine and sine that turn it into coordinates are not
      modelled, so the point is kept in this symbolic form. */
  datatype Point =
    | At(x: real, y: real)
    | OnCircle(cx: real, cy: real, r: real, angle: real)

  /** The commands of an SVG path description. */
  datatype PathCommand =
    | MoveTo(to: Point)
    | ArcTo(rx: real, ry: real, rotation: real, largeArc: int, sweep: int, to: Point)
    | LineTo(to: Point)
    | Close

  /** The large-arc flag of a wedge: set exactly when the wedge spans more
      than half the circle, so that such a span is drawn along its major arc. */
  function LargeArcFlag(startAngle: real, endAngle: real): (flag: int)
    ensures flag == 0 || flag == 1
    ensures flag == 0 <==> endAngle - startAngle <= 180.0
  {
    if endAngle - startAngle <= 180.0 then 0 else 1
  }

  /** Two equal halves tie at exactly 180 degrees; the tie takes the small arc. */
  lemma HalfCircleTakesSmallArc(startAngle: real)
    ensures LargeArcFlag(startAngle, startAngle + 180.0) == 0
  {
  }

  /** A single slice covering the whole circle takes the large arc. */
  lemma FullCircleTakesLargeArc()
    ensures LargeArcFlag(0.0, 360.0) == 1
  {
  }

  /** A zero-width wedge is well defined and takes the small arc. */
  lemma EmptyWedgeTakesSmallArc(angle: real)
    ensures LargeArcFlag(angle, angle) == 0
  {
  }

  /** The outline of the wedge from `startAngle` to `endAngle`. */
  function ArcPath(cx: real, cy: real, r: real, startAngle: real, endAngle: real): seq<PathCommand>
  {
    [ MoveTo(OnCircle(cx, cy, r, endAngle)),
      ArcTo(r, r, 0.0, LargeArcFlag(startAngle, endAngle), 0, OnCircle(cx, cy, r, startAngle)),
      LineTo(At(cx, cy)),
      Close ]
  }

  /** The wedge outline starts on the rim at the end angle, runs along the
      rim (sweep flag 0, against the clockwise angle direction) back to the
      start angle, cuts straight to the centre and closes, so the two
      straight edges meet at the centre; it uses the large arc exactly when
      the span exceeds 180 degrees. */
  lemma ArcPathIsWedge(cx: real, cy: real, r: real, startAngle: real, endAngle: real)
    ensures var path := ArcPath(cx, cy, r, startAngle, endAngle);
      && |path| == 4
      && path[0] == MoveTo(OnCircle(cx, cy, r, endAngle))
      && path[1].ArcTo? && path[1].rx == r && path[1].ry == r && path[1].sweep == 0
      && path[1].to == OnCircle(cx, cy, r, startAngle)
      && (path[1].largeArc == 1 <==> endAngle - startAngle > 180.0)
      && path[2] == LineTo(At(cx, cy))
      && path[3] == Close
  {
  }
}
