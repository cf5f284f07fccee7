/** The position mapper: from the clockwise pointer angle to a fraction along the
    configured arc, and from that fraction to the brightness (0..255) and percent
    (0..100) that a drag reports. The pointer angle itself comes from atan2 of the
    pointer's offset from the centre of the card, which is not modelled: it is an
    input in [0, 360). */
module PositionMapper {
  import opened Js
  import opened ArcGeometry

  /** _getRelativePosition: None (null) when the angle is outside the arc, otherwise
      the distance from the start angle divided by the arc length. */
  function RelativePosition(deg: real, start: real, end: real, arcLen: real): (rel: Option<Number>)
    ensures InDegrees(deg) && InDegrees(start) && arcLen > 0.0 && rel.Some? ==>
      rel.value.Finite? && rel.value.r >= 0.0
  {
    if end > start then
      if deg < start || deg > end then None
      else Some(Divide(deg - start, arcLen))
    else if deg > end && deg < start then None
    else if deg >= start then Some(Divide(deg - start, arcLen))
    else Some(Divide((360.0 - start) + deg, arcLen))
  }

  /** The angle lies on the clockwise arc from start to end: it is no further
      clockwise from start than end is. When start and end coincide the card
      treats every angle as on the arc. */
  predicate OnArc(deg: real, start: real, end: real) {
    start == end || ArcLength(start, deg) <= ArcLength(start, end)
  }

  /** The mapper rejects exactly the angles off the clockwise arc, for wrapping
      and non-wrapping arcs alike. */
  lemma RelativePositionNullExactlyOffArc(deg: real, start: real, end: real)
    requires InDegrees(deg) && InDegrees(start) && InDegrees(end)
    ensures RelativePosition(deg, start, end, ArcLength(start, end)).None? <==> !OnArc(deg, start, end)
  {
  }

  /** On a proper arc the mapper returns the clockwise distance from the start
      angle as a fraction of the arc, a number in [0, 1]. */
  lemma RelativePositionIsClockwiseFraction(deg: real, start: real, end: real)
    requires InDegrees(deg) && InDegrees(start) && InDegrees(end) && start != end
    requires OnArc(deg, start, end)
    ensures RelativePosition(deg, start, end, ArcLength(start, end))
         == Some(Finite(ArcLength(start, deg) / ArcLength(start, end)))
    ensures 0.0 <= ArcLength(start, deg) / ArcLength(start, end) <= 1.0
  {
    FractionInUnit(ArcLength(start, deg), ArcLength(start, end));
  }

  lemma FractionInUnit(a: real, b: real)
    requires 0.0 <= a <= b && b > 0.0
    ensures 0.0 <= a / b <= 1.0
  {
    assert a / b * b == a;
  }

  /** The distance rel of the way along an arc of length len lies on the arc, and
      divided by len gives back rel. */
  lemma ScaleWithin(rel: real, len: real, d: real)
    requires 0.0 <= rel <= 1.0 && len > 0.0 && d == rel * len
    ensures 0.0 <= d <= len
    ensures Divide(d, len) == Finite(rel)
  {
    ScaledFraction(len, rel);
    assert d / len == rel;
  }

  /** The angle d degrees clockwise from the start of a proper arc, for d within
      the arc, maps to d over the arc length. */
  lemma RelativePositionAtDistance(start: real, end: real, d: real)
    requires InDegrees(start) && InDegrees(end) && start != end
    requires 0.0 <= d <= ArcLength(start, end)
    ensures RelativePosition(Wrap(start + d), start, end, ArcLength(start, end))
         == Some(Divide(d, ArcLength(start, end)))
  {
    var deg := Wrap(start + d);
    ArcLengthUnique(start, deg, d);
    RelativePositionIsClockwiseFraction(deg, start, end);
  }

  /** Every fraction of a proper arc is reached: the angle d = rel * length
      degrees clockwise from the start, reduced into one turn, maps back to rel. */
  lemma RelativePositionRoundTrip(start: real, end: real, rel: real, d: real)
    requires InDegrees(start) && InDegrees(end) && start != end
    requires 0.0 <= rel <= 1.0 && d == rel * ArcLength(start, end)
    ensures 0.0 <= start + d < 720.0
    ensures RelativePosition(Wrap(start + d), start, end, ArcLength(start, end)) == Some(Finite(rel))
  {
    ScaleWithin(rel, ArcLength(start, end), d);
    RelativePositionAtDistance(start, end, d);
  }

  /** Moving clockwise along a proper arc never decreases the fraction. */
  lemma RelativePositionMonotone(deg: real, deg': real, start: real, end: real)
    requires InDegrees(deg) && InDegrees(deg') && InDegrees(start) && InDegrees(end) && start != end
    requires OnArc(deg, start, end) && OnArc(deg', start, end)
    requires ArcLength(start, deg) <= ArcLength(start, deg')
    ensures var len := ArcLength(start, end);
            RelativePosition(deg, start, end, len).Some? && RelativePosition(deg, start, end, len).value.Finite? &&
            RelativePosition(deg', start, end, len).Some? && RelativePosition(deg', start, end, len).value.Finite? &&
            RelativePosition(deg, start, end, len).value.r <= RelativePosition(deg', start, end, len).value.r
  {
    RelativePositionIsClockwiseFraction(deg, start, end);
    RelativePositionIsClockwiseFraction(deg', start, end);
    DivideMonotone(ArcLength(start, deg), ArcLength(start, deg'), ArcLength(start, end));
  }

  lemma DivideMonotone(a: real, b: real, len: real)
    requires a <= b && len > 0.0
    ensures a / len <= b / len
  {
    assert b / len - a / len == (b - a) / len;
  }

  /** When start and end coincide the arc length is 0 and the division by it gives
      NaN at the start angle and +Infinity everywhere else. */
  lemma DegenerateArcDividesByZero(deg: real, start: real)
    requires InDegrees(deg) && InDegrees(start)
    ensures RelativePosition(deg, start, start, ArcLength(start, start))
         == Some(if deg == start then NaN else PosInfinity)
  {
  }

  /** `Math.max(0, Math.min(rel, 1))` */
  function Clamp01(x: Number): (c: Number)
    ensures c.NaN? <==> x.NaN?
    ensures c.Finite? ==> 0.0 <= c.r <= 1.0
    ensures x.Finite? && 0.0 <= x.r <= 1.0 ==> c == x
    ensures (x.Finite? && x.r > 1.0) || x.PosInfinity? ==> c == Finite(1.0)
    ensures (x.Finite? && x.r < 0.0) || x.NegInfinity? ==> c == Finite(0.0)
  {
    match x
    case Finite(r) => Finite(if r < 0.0 then 0.0 else if r > 1.0 then 1.0 else r)
    case PosInfinity => Finite(1.0)
    case NegInfinity => Finite(0.0)
    case NaN => NaN
  }

  /** What one pointer sample yields on the arc: the clamped fraction, the
      brightness `Math.round(rel * 255)` and the percent `Math.round(rel * 100)`. */
  datatype Reading = Reading(rel: Number, brightness: Number, percent: Number)

  /** The arithmetic of _onPointerMove once the angle is known: None when the angle
      is off the arc. A reading is either NaN throughout, which only a degenerate
      arc produces, or a fraction in [0, 1] with an integer brightness in [0, 255]
      and an integer percent in [0, 100]. */
  function PointerReading(deg: real, start: real, end: real): (reading: Option<Reading>)
    ensures reading.Some? ==>
      var r := reading.value;
      (r.rel.NaN? && r.brightness.NaN? && r.percent.NaN?) ||
      (r.rel.Finite? && 0.0 <= r.rel.r <= 1.0 && IsIntIn(r.brightness, 0, 255) && IsIntIn(r.percent, 0, 100))
    ensures InDegrees(deg) && InDegrees(start) && InDegrees(end) && start != end && reading.Some? ==>
      reading.value.rel.Finite?
    ensures reading.Some? && reading.value.rel.Finite? ==>
      var r := reading.value;
      r.brightness.Finite? && r.percent.Finite? &&
      r.brightness.r - 0.5 <= r.rel.r * 255.0 < r.brightness.r + 0.5 &&
      r.percent.r - 0.5 <= r.rel.r * 100.0 < r.percent.r + 0.5
  {
    match RelativePosition(deg, start, end, ArcLength(start, end))
    case None => None
    case Some(rel) =>
      var c := Clamp01(rel);
      Some(Reading(c, RoundScaled(c, 255.0), RoundScaled(c, 100.0)))
  }

  /** The reading exists exactly on the arc, and on a proper arc its fraction is
      the clockwise distance from the start angle over the arc length. */
  lemma PointerReadingOnArc(deg: real, start: real, end: real)
    requires InDegrees(deg) && InDegrees(start) && InDegrees(end)
    ensures PointerReading(deg, start, end).Some? <==> OnArc(deg, start, end)
    ensures start != end && OnArc(deg, start, end) ==>
      PointerReading(deg, start, end).value.rel == Finite(ArcLength(start, deg) / ArcLength(start, end))
  {
    RelativePositionNullExactlyOffArc(deg, start, end);
    if start != end && OnArc(deg, start, end) {
      RelativePositionIsClockwiseFraction(deg, start, end);
    }
  }

  /** On a proper arc the start angle reads nothing and the end angle reads full
      brightness, 255 and 100%. */
  lemma PointerReadingEnds(start: real, end: real)
    requires InDegrees(start) && InDegrees(end) && start != end
    ensures PointerReading(start, start, end) == Some(Reading(Finite(0.0), Finite(0.0), Finite(0.0)))
    ensures PointerReading(end, start, end) == Some(Reading(Finite(1.0), Finite(255.0), Finite(100.0)))
  {
    assert ArcLength(start, start) == 0.0;
    PointerReadingOnArc(start, start, end);
    PointerReadingOnArc(end, start, end);
    assert ArcLength(start, end) / ArcLength(start, end) == 1.0;
    assert Round(255.0) == 255 && Round(100.0) == 100 && Round(0.0) == 0;
  }

  /** Moving clockwise along a proper arc never decreases the brightness sent. */
  lemma BrightnessMonotone(deg: real, deg': real, start: real, end: real)
    requires InDegrees(deg) && InDegrees(deg') && InDegrees(start) && InDegrees(end) && start != end
    requires OnArc(deg, start, end) && OnArc(deg', start, end)
    requires ArcLength(start, deg) <= ArcLength(start, deg')
    ensures PointerReading(deg, start, end).Some? && PointerReading(deg', start, end).Some?
    ensures PointerReading(deg, start, end).value.brightness.r <= PointerReading(deg', start, end).value.brightness.r
  {
    PointerReadingOnArc(deg, start, end);
    PointerReadingOnArc(deg', start, end);
    RelativePositionMonotone(deg, deg', start, end);
    var r := PointerReading(deg, start, end).value.rel.r;
    var r' := PointerReading(deg', start, end).value.rel.r;
    assert r * 255.0 <= r' * 255.0;
    assert Round(r * 255.0) <= Round(r' * 255.0);
  }

  /** The default arc runs from 300 to 120 degrees through twelve o'clock. */
  lemma DefaultArcReadings()
    ensures PointerReading(0.0, 300.0, 120.0) == Some(Reading(Finite(1.0 / 3.0), Finite(85.0), Finite(33.0)))
    ensures PointerReading(200.0, 300.0, 120.0) == None
    ensures PointerReading(310.0, 300.0, 120.0) == Some(Reading(Finite(1.0 / 18.0), Finite(14.0), Finite(6.0)))
    ensures PointerReading(10.0, 300.0, 120.0) == Some(Reading(Finite(7.0 / 18.0), Finite(99.0), Finite(39.0)))
  {
    assert Round(1.0 / 3.0 * 255.0) == 85;
    assert Round(1.0 / 3.0 * 100.0) == 33;
    assert Round(1.0 / 18.0 * 255.0) == 14;
    assert Round(1.0 / 18.0 * 100.0) == 6;
    assert Round(7.0 / 18.0 * 255.0) == 99;
    assert Round(7.0 / 18.0 * 100.0) == 39;
  }
}
