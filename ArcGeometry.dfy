/** Arc arithmetic of the ring: the clockwise length of the configured arc, the
    flags of the SVG arc segment that draws it, and the stroke-dash offset that
    shows a filled fraction of it. Angles are degrees measured clockwise from
    twelve o'clock. The cos/sin endpoint coordinates are not modelled. */
module ArcGeometry {

  /** An angle within one turn. */
  predicate InDegrees(a: real) {
    0.0 <= a < 360.0
  }

  /** Reduces a sum of two angles within one turn back into one turn. */
  function Wrap(a: real): (w: real)
    requires 0.0 <= a < 720.0
    ensures InDegrees(w)
  {
    if a < 360.0 then a else a - 360.0
  }

  /** _calcArcLength: `end - start`, plus a turn when that is negative. For angles
      within one turn it is the clockwise rotation that carries start onto end,
      and it is 0 (not a full turn) when the two coincide. */
  function ArcLength(start: real, end: real): (len: real)
    ensures InDegrees(start) && InDegrees(end) ==> InDegrees(len) && Wrap(start + len) == end
    ensures InDegrees(start) && InDegrees(end) ==> (len == 0.0 <==> start == end)
  {
    var diff := end - start;
    if diff < 0.0 then diff + 360.0 else diff
  }

  /** The clockwise rotation from start to end within one turn is unique. */
  lemma ArcLengthUnique(start: real, end: real, d: real)
    requires InDegrees(start) && InDegrees(end) && InDegrees(d)
    requires Wrap(start + d) == end
    ensures d == ArcLength(start, end)
  {
  }

  /** The two arcs between two distinct angles make up one turn. */
  lemma ComplementaryArcs(a: real, b: real)
    requires InDegrees(a) && InDegrees(b) && a != b
    ensures ArcLength(a, b) + ArcLength(b, a) == 360.0
  {
  }

  /** One SVG elliptical-arc path segment `M from A r r 0 large sweep to`, with
      its endpoints given by their angles on the circle. */
  datatype ArcSegment = ArcSegment(fromAngle: real, toAngle: real, radius: real, largeArcFlag: char, sweepFlag: char)

  /** _describeArc: moves to the end angle and draws back to the start angle with
      sweep-flag 0; by section 8.3.8 of SVG 1.1 the large-arc flag selects the arc
      of more than half a turn, so it is '1' exactly when the configured
      clockwise arc is longer than 180 degrees. */
  function DescribeArc(radius: real, startAngle: real, endAngle: real): (seg: ArcSegment)
    ensures seg.fromAngle == endAngle && seg.toAngle == startAngle && seg.radius == radius
    ensures seg.sweepFlag == '0'
    ensures seg.largeArcFlag == '0' || seg.largeArcFlag == '1'
    ensures seg.largeArcFlag == '1' <==> ArcLength(startAngle, endAngle) > 180.0
  {
    var arcLength := ArcLength(startAngle, endAngle);
    var largeArcFlag := if arcLength <= 180.0 then '0' else '1';
    ArcSegment(endAngle, startAngle, radius, largeArcFlag, '0')
  }

  /** Of an arc and its complement, at most one is drawn with the large-arc flag,
      and exactly one unless both are half turns. */
  lemma LargeArcFlagPicksOneSide(radius: real, a: real, b: real)
    requires InDegrees(a) && InDegrees(b) && a != b
    ensures !(DescribeArc(radius, a, b).largeArcFlag == '1' && DescribeArc(radius, b, a).largeArcFlag == '1')
    ensures ArcLength(a, b) != 180.0 ==>
      DescribeArc(radius, a, b).largeArcFlag == '1' || DescribeArc(radius, b, a).largeArcFlag == '1'
  {
    ComplementaryArcs(a, b);
  }

  /** _updateProgressVisual: the stroke-dashoffset that shows the fraction rel of
      the progress arc, against a stroke-dasharray equal to the path length. */
  function DashOffset(pathLength: real, rel: real): (offset: real)
    ensures rel == 0.0 ==> offset == pathLength
    ensures rel == 1.0 ==> offset == 2.0 * pathLength
    ensures offset - pathLength == pathLength * rel
  {
    pathLength * (1.0 + rel)
  }

  /** For a fraction of the arc the offset lies between one and two path lengths,
      and it grows with the fraction. */
  lemma DashOffsetBounds(pathLength: real, rel: real, rel': real)
    requires pathLength >= 0.0 && 0.0 <= rel <= rel' <= 1.0
    ensures pathLength <= DashOffset(pathLength, rel) <= DashOffset(pathLength, rel') <= 2.0 * pathLength
  {
    ScaledFraction(pathLength, rel);
    ScaledFraction(pathLength, rel');
    ScaledFraction(pathLength, rel' - rel);
    assert pathLength * rel' - pathLength * rel == pathLength * (rel' - rel);
  }

  /** A fraction of a non-negative length lies between 0 and that length. */
  lemma ScaledFraction(len: real, rel: real)
    requires len >= 0.0 && 0.0 <= rel <= 1.0
    ensures 0.0 <= len * rel <= len
  {
    assert len - len * rel == len * (1.0 - rel);
  }

  /** y reduced modulo a positive period. */
  function Phase(y: real, period: real): real
    requires period > 0.0
  {
    y - period * (y / period).Floor as real
  }

  lemma {:induction false} PhaseIn(y: real, period: real, k: int)
    requires period > 0.0
    requires k as real * period <= y < (k + 1) as real * period
    ensures Phase(y, period) == y - k as real * period
  {
    var q := y / period;
    assert y == q * period;
    assert k as real <= q < (k + 1) as real;
    assert q.Floor as real <= q < q.Floor as real + 1.0;
    assert q.Floor == k;
  }

  /** Section 11.4 of SVG 1.1: a dash array of the single length L repeats as L
      painted, L blank; the point at distance x along the path is painted when
      x + offset, modulo 2L, falls in the painted half. */
  predicate Painted(x: real, dash: real, offset: real)
    requires dash > 0.0
  {
    Phase(x + offset, 2.0 * dash) < dash
  }

  /** The progress arc shows exactly the last fraction rel of its path. The path
      runs from the end angle back to the start angle, so the visible part starts
      at the start angle and covers rel of the arc clockwise. */
  lemma {:induction false} ProgressFillsFromStart(pathLength: real, rel: real, x: real)
    requires pathLength > 0.0 && 0.0 <= rel <= 1.0 && 0.0 <= x < pathLength
    ensures Painted(x, pathLength, DashOffset(pathLength, rel)) <==> x >= pathLength * (1.0 - rel)
  {
    var a := pathLength * rel;
    ScaledFraction(pathLength, rel);
    assert DashOffset(pathLength, rel) == pathLength + a;
    assert pathLength * (1.0 - rel) == pathLength - a;
    if x < pathLength - a {
      BlankBeforeFill(pathLength, a, x);
    } else {
      PaintedAfterFill(pathLength, a, x);
    }
  }

  /** Before the filled part, x + offset falls in the first blank. */
  lemma {:induction false} BlankBeforeFill(pathLength: real, a: real, x: real)
    requires pathLength > 0.0 && 0.0 <= a <= pathLength && 0.0 <= x < pathLength - a
    ensures !Painted(x, pathLength, pathLength + a)
  {
    PhaseIn(x + (pathLength + a), 2.0 * pathLength, 0);
  }

  /** In the filled part, x + offset falls in the second dash. */
  lemma {:induction false} PaintedAfterFill(pathLength: real, a: real, x: real)
    requires pathLength > 0.0 && 0.0 <= a <= pathLength && pathLength - a <= x < pathLength
    ensures Painted(x, pathLength, pathLength + a)
  {
    PhaseIn(x + (pathLength + a), 2.0 * pathLength, 1);
  }
}
