/** What the card shows for a light entity reported by Home Assistant: the fill of
    the progress arc, the brightness percent and the state label, and which
    entity updates change any of them. */
module Display {
  import opened Js
  import opened ArcGeometry

  /** The entity's `brightness` attribute: absent (undefined), null (a light that
      is off reports null) or a number. */
  datatype Attr = Missing | Null | Value(v: real)

  /** The parts of a Home Assistant entity state the card reads. */
  datatype Entity = Entity(state: string, brightness: Attr)

  /** The `hass` object as far as the card reads it: the entity states by id. */
  datatype Hass = Hass(states: map<string, Entity>)

  /** `brightness || 0`: the number, or 0 when there is none. */
  function BrightnessOrZero(b: Attr): (n: real)
    ensures b.Value? ==> n == b.v
    ensures !b.Value? ==> n == 0.0
  {
    if b.Value? then b.v else 0.0
  }

  /** _getBrightnessPercent: the brightness 0..255 as a rounded percent. */
  function BrightnessPercent(b: Attr): (p: int)
    ensures 0.0 <= BrightnessOrZero(b) <= 255.0 ==> 0 <= p <= 100
    ensures p as real - 0.5 <= BrightnessOrZero(b) / 255.0 * 100.0 < p as real + 0.5
  {
    Round(BrightnessOrZero(b) / 255.0 * 100.0)
  }

  /** A brighter light never shows a lower percent; full brightness shows 100 and
      no brightness 0. */
  lemma BrightnessPercentMonotone(b: real, b': real)
    requires b <= b'
    ensures BrightnessPercent(Value(b)) <= BrightnessPercent(Value(b'))
    ensures BrightnessPercent(Value(255.0)) == 100 && BrightnessPercent(Missing) == 0
  {
    assert b / 255.0 * 100.0 <= b' / 255.0 * 100.0;
  }

  /** Two rounded values of reals less than one apart differ by at most one. */
  lemma RoundClose(x: real, y: real)
    requires -1.0 < x - y < 1.0
    ensures -1 <= Round(x) - Round(y) <= 1
  {
  }

  /** The percent a drag shows while it moves, `Math.round(rel * 100)`, and the
      percent the card shows once Home Assistant reports the brightness that drag
      sent, `Math.round(rel * 255)`, differ by at most one. */
  lemma EchoedPercentWithinOne(rel: real)
    requires 0.0 <= rel <= 1.0
    ensures var sent := Round(rel * 255.0);
      -1 <= BrightnessPercent(Value(sent as real)) - Round(rel * 100.0) <= 1
  {
    var sent := Round(rel * 255.0);
    var shown := sent as real / 255.0 * 100.0;
    assert sent as real - 0.5 <= rel * 255.0 < sent as real + 0.5;
    assert shown - rel * 100.0 == (sent as real - rel * 255.0) * 100.0 / 255.0;
    RoundClose(shown, rel * 100.0);
  }

  /** The state label: "🔆 Encendida - p%" for a light whose state is "on",
      "🌙 Apagada" for any other state; the text around the percent is not
      modelled. */
  datatype StateLabel = Lit(percent: int) | Unlit

  /** _getStateLabel */
  function StateLabelOf(e: Entity): (text: StateLabel)
    ensures text.Lit? <==> e.state == "on"
    ensures text.Lit? ==> text.percent == BrightnessPercent(e.brightness)
  {
    if e.state == "on" then Lit(BrightnessPercent(e.brightness)) else Unlit
  }

  /** `(brightnessRaw || 0) / 255`: the fraction of the arc _updateState fills. */
  function StateFraction(b: Attr): (rel: real)
    ensures 0.0 <= BrightnessOrZero(b) <= 255.0 ==> 0.0 <= rel <= 1.0
    ensures rel * 255.0 == BrightnessOrZero(b)
  {
    BrightnessOrZero(b) / 255.0
  }

  /** The hass setter's test: the brightness (compared with `!==`, so undefined
      and null differ) or the state changed. Those are all the card reads of an
      entity, so the test fires exactly when the entity read differs. */
  predicate Changed(before: Entity, after: Entity): (c: bool)
    ensures c <==> before != after
  {
    before.brightness != after.brightness || before.state != after.state
  }

  /** Skipping _updateState for an update that is not Changed loses nothing: the
      arc offset and the label it would draw are those already drawn. */
  lemma UnchangedNeedsNoRedraw(before: Entity, after: Entity, pathLength: real)
    requires !Changed(before, after)
    ensures DashOffset(pathLength, StateFraction(after.brightness))
         == DashOffset(pathLength, StateFraction(before.brightness))
    ensures StateLabelOf(after) == StateLabelOf(before)
  {
  }

  /** A brightness sent by a drag and reported back by Home Assistant fills the arc
      to within half a brightness step of where the drag left it. */
  lemma EchoedFractionCloseToDragged(rel: real)
    requires 0.0 <= rel <= 1.0
    ensures var shown := StateFraction(Value(Round(rel * 255.0) as real));
      -1.0 / 510.0 <= shown - rel <= 1.0 / 510.0
  {
    var sent := Round(rel * 255.0);
    assert sent as real - 0.5 <= rel * 255.0 < sent as real + 0.5;
    assert StateFraction(Value(sent as real)) - rel == (sent as real - rel * 255.0) / 255.0;
  }
}
