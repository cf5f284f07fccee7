/** The card itself: one RingBrightnessCard element with its configuration, the
    entity it last saw, what it has drawn, the drag in progress and the pending
    animation frame, its dispatcher, and the commands it has issued to Home
    Assistant or the page. Browser callbacks are the methods: a hass update,
    pointer-down on the ring, pointer-move and pointer-up on the window, the
    animation frame, the dispatcher's timer, a click on the centre and
    disconnection. */
module Card {
  import opened Js
  import opened ArcGeometry
  import opened PositionMapper
  import opened Dispatcher
  import opened Config
  import opened Display

  /** The rectangle getBoundingClientRect reports for the card container. */
  datatype Rect = Rect(left: real, top: real, width: real, height: real)

  /** A pointer event, given by the clockwise angle of the pointer about the centre
      of the rectangle cached when the drag began. */
  datatype Pointer = Pointer(deg: real)

  /** What the shadow root holds: nothing yet, the inline warning naming a missing
      entity, or the card. */
  datatype View = Blank | ErrorView | CardView

  /** `pathLength * (1 + rel)` for a clamped fraction, which is a finite number or
      NaN: NaN propagates. */
  function OffsetFor(pathLength: real, rel: Number): (offset: Number)
    requires rel.Finite? || rel.NaN?
    ensures offset.NaN? <==> rel.NaN?
    ensures rel.Finite? && 0.0 <= rel.r <= 1.0 && pathLength >= 0.0 ==>
      offset.Finite? && pathLength <= offset.r <= 2.0 * pathLength
    ensures rel.Finite? ==> offset == Finite(DashOffset(pathLength, rel.r))
  {
    if !rel.Finite? then NaN
    else if 0.0 <= rel.r <= 1.0 && pathLength >= 0.0 then
      DashOffsetBounds(pathLength, rel.r, 1.0);
      Finite(DashOffset(pathLength, rel.r))
    else Finite(DashOffset(pathLength, rel.r))
  }

  /** The service data `{ entity_id, brightness }` of the dispatcher's command. */
  function TurnOnData(entity: string, brightness: Number): Value {
    Obj(map["entity_id" := Str(entity), "brightness" := Num(brightness)])
  }

  /** The command the dispatcher's timer issues for a brightness. */
  function TurnOn(entity: string, brightness: Number): (e: Effect)
    ensures e.CallService? && e.domain == "light" && e.service == Some("turn_on")
    ensures Prop(e.data, "entity_id") == Str(entity) && Prop(e.data, "brightness") == Num(brightness)
  {
    CallService("light", Some("turn_on"), TurnOnData(entity, brightness))
  }

  class RingBrightnessCard {
    /** The configuration, as read from setConfig's merged object. */
    const settings: Settings
    /** The debounced dispatcher behind _throttledServiceCall. */
    const dispatcher: Debouncer<Number>

    /** `_hass` and `_entity`: the last hass object, and the last entity found in it. */
    var hass: Option<Hass>
    var entity: Option<Entity>
    /** `_isInitialized` */
    var isInitialized: bool
    var view: View
    /** `_pathLength`: the progress path's total length, measured once. */
    var pathLength: real
    /** The progress path's stroke-dashoffset, the text of the percent overlay and
        of the state label (present only with show_state); None until drawn. The
        offset is the value the card assigns: a NaN offset is recorded as such,
        although the page rejects it and keeps showing the previous one. */
    var dashOffset: Option<Number>
    var overlayPercent: Option<Number>
    var stateLabel: Option<StateLabel>
    /** `_dragging` and `_cachedRect` */
    var dragging: bool
    var cachedRect: Option<Rect>
    /** The pairs of window pointermove/pointerup listeners registered by drags. */
    var listeners: nat
    /** The event the outstanding animation frame will process, if one is
        outstanding (`_animationFrame`). */
    var pendingFrame: Option<Pointer>
    /** The commands issued, in order. */
    var outbox: seq<Effect>

    ghost predicate Valid()
      reads this, dispatcher
    {
      dispatcher.Valid() && dispatcher.delay == settings.throttleDelay &&
      (dragging <==> cachedRect.Some?) &&
      (dragging <==> listeners > 0) &&
      (pendingFrame.Some? ==> dragging) &&
      (dragging ==> isInitialized) &&
      (view == CardView ==> isInitialized) &&
      (dispatcher.slot.Armed? ==> isInitialized) &&
      (isInitialized ==>
        entity.Some? && hass.Some? && dashOffset.Some? && overlayPercent.Some? &&
        (stateLabel.Some? <==> settings.showState))
    }

    /** Construction followed by setConfig: nothing drawn, no drag, nothing pending. */
    constructor (settings: Settings)
      ensures Valid() && fresh(dispatcher)
      ensures this.settings == settings
      ensures hass.None? && entity.None? && !isInitialized && view == Blank
      ensures dashOffset.None? && overlayPercent.None? && stateLabel.None?
      ensures !dragging && cachedRect.None? && listeners == 0 && pendingFrame.None?
      ensures dispatcher.slot == Idle && dispatcher.trace == [] && outbox == []
    {
      this.settings := settings;
      dispatcher := new Debouncer(settings.throttleDelay);
      hass := None;
      entity := None;
      isInitialized := false;
      view := Blank;
      pathLength := 0.0;
      dashOffset := None;
      overlayPercent := None;
      stateLabel := None;
      dragging := false;
      cachedRect := None;
      listeners := 0;
      pendingFrame := None;
      outbox := [];
    }

    /** No drag, no listener, no frame and no timer: nothing can issue a command
        until the card is used again. */
    ghost predicate Quiet()
      reads this, dispatcher
    {
      !dragging && listeners == 0 && pendingFrame.None? && dispatcher.slot.Idle?
    }

    /** The hass setter. An entity missing from the update draws the warning and
        leaves everything else as it was; the first entity found draws the card
        (measuredLength is what getTotalLength reports for the new progress path);
        a later one redraws the arc and the label when its brightness or state
        changed, and nothing otherwise. */
    method SetHass(h: Hass, measuredLength: real)
      requires Valid()
      modifies this
      ensures Valid()
      ensures hass == Some(h)
      ensures dragging == old(dragging) && cachedRect == old(cachedRect) && listeners == old(listeners)
      ensures pendingFrame == old(pendingFrame) && outbox == old(outbox)
      ensures settings.entity !in h.states ==>
        view == ErrorView && entity == old(entity) && isInitialized == old(isInitialized) &&
        pathLength == old(pathLength) && dashOffset == old(dashOffset) &&
        overlayPercent == old(overlayPercent) && stateLabel == old(stateLabel)
      ensures settings.entity in h.states ==>
        var e := h.states[settings.entity];
        entity == Some(e) && isInitialized && overlayPercent.Some? &&
        (old(isInitialized) ==> view == old(view) && pathLength == old(pathLength) &&
                                overlayPercent == old(overlayPercent)) &&
        (!old(isInitialized) ==>
          view == CardView && pathLength == measuredLength &&
          overlayPercent == Some(Finite(BrightnessPercent(e.brightness) as real))) &&
        (!old(isInitialized) || Changed(old(entity).value, e) ==>
          dashOffset == Some(Finite(DashOffset(pathLength, StateFraction(e.brightness)))) &&
          stateLabel == (if settings.showState then Some(StateLabelOf(e)) else None)) &&
        (old(isInitialized) && !Changed(old(entity).value, e) ==>
          dashOffset == old(dashOffset) && stateLabel == old(stateLabel))
    {
      hass := Some(h);
      if settings.entity !in h.states {
        view := ErrorView;
        return;
      }
      var e := h.states[settings.entity];
      var previous := entity;
      entity := Some(e);
      if !isInitialized {
        view := CardView;
        pathLength := measuredLength;
        overlayPercent := Some(Finite(BrightnessPercent(e.brightness) as real));
        UpdateState(e.brightness);
        isInitialized := true;
      } else if Changed(previous.value, e) {
        UpdateState(e.brightness);
      }
    }

    /** _updateState: fills the arc to `(brightness || 0) / 255` and refreshes the
        state label, when there is one, from the current entity. */
    method UpdateState(b: Attr)
      requires entity.Some?
      modifies this
      ensures hass == old(hass) && entity == old(entity) && isInitialized == old(isInitialized)
      ensures dashOffset == Some(Finite(DashOffset(pathLength, StateFraction(b))))
      ensures stateLabel == (if settings.showState then Some(StateLabelOf(entity.value)) else None)
      ensures view == old(view) && pathLength == old(pathLength) && overlayPercent == old(overlayPercent)
      ensures dragging == old(dragging) && cachedRect == old(cachedRect) && listeners == old(listeners)
      ensures pendingFrame == old(pendingFrame) && outbox == old(outbox)
    {
      dashOffset := Some(Finite(DashOffset(pathLength, StateFraction(b))));
      stateLabel := if settings.showState then Some(StateLabelOf(entity.value)) else None;
    }

    /** _onPointerMove: during a drag, an angle on the arc moves the fill and the
        percent overlay to the reading and hands its brightness to the dispatcher;
        outside a drag, or off the arc, nothing changes. */
    method OnPointerMove(p: Pointer, now: int)
      requires Valid()
      modifies this, dispatcher
      ensures Valid()
      ensures var reading := PointerReading(p.deg, settings.startAngle, settings.endAngle);
        if !old(dragging) || reading.None? then
          unchanged(this) && unchanged(dispatcher)
        else
          dashOffset == Some(OffsetFor(pathLength, reading.value.rel)) &&
          overlayPercent == Some(reading.value.percent) &&
          dispatcher.slot == Armed(reading.value.brightness, now + settings.throttleDelay) &&
          dispatcher.trace == old(dispatcher.trace) + [Event.Request(reading.value.brightness, now)] &&
          hass == old(hass) && entity == old(entity) && isInitialized == old(isInitialized) &&
          view == old(view) && pathLength == old(pathLength) && stateLabel == old(stateLabel) &&
          dragging == old(dragging) && cachedRect == old(cachedRect) && listeners == old(listeners) &&
          pendingFrame == old(pendingFrame) && outbox == old(outbox)
    {
      if !dragging {
        return;
      }
      var reading := PointerReading(p.deg, settings.startAngle, settings.endAngle);
      if reading.None? {
        return;
      }
      var r := reading.value;
      dashOffset := Some(OffsetFor(pathLength, r.rel));
      overlayPercent := Some(r.percent);
      dispatcher.Request(r.brightness, now);
    }

    /** pointerdown on the ring (_startDrag): starts a drag with the rectangle
        measured now, registers the window listeners, and processes the first point
        at once. */
    method PointerDown(p: Pointer, rect: Rect, now: int)
      requires Valid() && view == CardView
      modifies this, dispatcher
      ensures Valid()
      ensures dragging && cachedRect == Some(rect) && listeners == old(listeners) + 1
      ensures pendingFrame == old(pendingFrame) && outbox == old(outbox) && stateLabel == old(stateLabel)
      ensures hass == old(hass) && entity == old(entity) && isInitialized == old(isInitialized)
      ensures view == old(view) && pathLength == old(pathLength)
      ensures var reading := PointerReading(p.deg, settings.startAngle, settings.endAngle);
        if reading.None? then
          unchanged(dispatcher) && dashOffset == old(dashOffset) && overlayPercent == old(overlayPercent)
        else
          dashOffset == Some(OffsetFor(pathLength, reading.value.rel)) &&
          overlayPercent == Some(reading.value.percent) &&
          dispatcher.slot == Armed(reading.value.brightness, now + settings.throttleDelay) &&
          dispatcher.trace == old(dispatcher.trace) + [Event.Request(reading.value.brightness, now)]
    {
      dragging := true;
      cachedRect := Some(rect);
      listeners := listeners + 1;
      OnPointerMove(p, now);
    }

    /** pointermove on the window: while the drag's listeners are registered, the
        outstanding frame is cancelled and a new one requested for this event, so
        at most one frame is outstanding and it carries the latest event. */
    method WindowPointerMove(p: Pointer)
      requires Valid()
      modifies this
      ensures Valid()
      ensures pendingFrame == if old(listeners) > 0 then Some(p) else old(pendingFrame)
      ensures old(Quiet()) ==> Quiet()
      ensures hass == old(hass) && entity == old(entity) && isInitialized == old(isInitialized)
      ensures view == old(view) && pathLength == old(pathLength) && dashOffset == old(dashOffset)
      ensures overlayPercent == old(overlayPercent) && stateLabel == old(stateLabel)
      ensures dragging == old(dragging) && cachedRect == old(cachedRect) && listeners == old(listeners)
      ensures outbox == old(outbox)
    {
      if listeners > 0 {
        pendingFrame := Some(p);
      }
    }

    /** pointerup on the window: every registered `up` listener ends the drag,
        forgets the rectangle, removes its listeners and cancels the outstanding
        frame. */
    method WindowPointerUp()
      requires Valid()
      modifies this
      ensures Valid()
      ensures old(listeners) > 0 ==>
        !dragging && cachedRect.None? && listeners == 0 && pendingFrame.None?
      ensures old(listeners) == 0 ==> unchanged(this)
      ensures old(Quiet()) ==> Quiet()
      ensures hass == old(hass) && entity == old(entity) && isInitialized == old(isInitialized)
      ensures view == old(view) && pathLength == old(pathLength) && dashOffset == old(dashOffset)
      ensures overlayPercent == old(overlayPercent) && stateLabel == old(stateLabel)
      ensures outbox == old(outbox)
    {
      if listeners > 0 {
        dragging := false;
        cachedRect := None;
        listeners := 0;
        pendingFrame := None;
      }
    }

    /** The animation frame: processes the event it carries, if one is
        outstanding. */
    method AnimationFrame(now: int)
      requires Valid()
      modifies this, dispatcher
      ensures Valid()
      ensures pendingFrame.None?
      ensures old(pendingFrame).None? ==> unchanged(this) && unchanged(dispatcher)
      ensures old(pendingFrame).Some? ==>
        var reading := PointerReading(old(pendingFrame).value.deg, settings.startAngle, settings.endAngle);
        if reading.None? then
          unchanged(dispatcher) && dashOffset == old(dashOffset) && overlayPercent == old(overlayPercent)
        else
          dashOffset == Some(OffsetFor(pathLength, reading.value.rel)) &&
          overlayPercent == Some(reading.value.percent) &&
          dispatcher.slot == Armed(reading.value.brightness, now + settings.throttleDelay) &&
          dispatcher.trace == old(dispatcher.trace) + [Event.Request(reading.value.brightness, now)]
      ensures old(Quiet()) ==> Quiet()
      ensures hass == old(hass) && entity == old(entity) && isInitialized == old(isInitialized)
      ensures view == old(view) && pathLength == old(pathLength)
      ensures dragging == old(dragging) && cachedRect == old(cachedRect) && listeners == old(listeners)
      ensures stateLabel == old(stateLabel) && outbox == old(outbox)
    {
      if pendingFrame.Some? {
        var p := pendingFrame.value;
        pendingFrame := None;
        OnPointerMove(p, now);
      }
    }

    /** The dispatcher's timer at time now: when due, it issues `light.turn_on` with
        the brightness last requested, which by the dispatcher's reference reading
        is the request this tick sends. */
    method TimerTick(now: int) returns (fired: Option<Number>)
      requires Valid()
      modifies dispatcher, this
      ensures Valid()
      ensures fired.Some? <==> old(dispatcher.slot).Armed? && old(dispatcher.slot).due <= now
      ensures fired.Some? ==>
        fired.value == old(dispatcher.slot).value && outbox == old(outbox) + [TurnOn(settings.entity, fired.value)]
      ensures fired.None? ==> outbox == old(outbox)
      ensures dispatcher.trace == old(dispatcher.trace) + [Event.Tick(now)]
      ensures fired.Some? ==> dispatcher.slot == Idle
      ensures fired.None? ==> dispatcher.slot == old(dispatcher.slot)
      ensures forall j :: SentByLast(dispatcher.delay, dispatcher.trace, j) ==>
        fired == Some(dispatcher.trace[j].value)
      ensures old(Quiet()) ==> Quiet()
      ensures hass == old(hass) && entity == old(entity) && isInitialized == old(isInitialized)
      ensures view == old(view) && pathLength == old(pathLength) && dashOffset == old(dashOffset)
      ensures overlayPercent == old(overlayPercent) && stateLabel == old(stateLabel)
      ensures dragging == old(dragging) && cachedRect == old(cachedRect) && listeners == old(listeners)
      ensures pendingFrame == old(pendingFrame)
    {
      fired := dispatcher.Tick(now);
      if fired.Some? {
        outbox := outbox + [TurnOn(settings.entity, fired.value)];
      }
    }

    /** A click on the centre (_handleTapAction): issues the tap action's command,
        if any; a TypeError leaves the card as it was. */
    method Tap() returns (outcome: TapOutcome)
      requires Valid() && view == CardView
      modifies this
      ensures Valid()
      ensures outcome == TapAction(settings.tapAction, settings.entity)
      ensures outbox == old(outbox) + (if outcome.Issue? then [outcome.effect] else [])
      ensures hass == old(hass) && entity == old(entity) && isInitialized == old(isInitialized)
      ensures view == old(view) && pathLength == old(pathLength) && dashOffset == old(dashOffset)
      ensures overlayPercent == old(overlayPercent) && stateLabel == old(stateLabel)
      ensures dragging == old(dragging) && cachedRect == old(cachedRect) && listeners == old(listeners)
      ensures pendingFrame == old(pendingFrame)
    {
      outcome := TapAction(settings.tapAction, settings.entity);
      if outcome.Issue? {
        outbox := outbox + [outcome.effect];
      }
    }

    /** disconnectedCallback as written: cancels the dispatcher's timer and the
        outstanding frame, but leaves a drag in progress and its window listeners
        registered. */
    method Disconnect()
      requires Valid()
      modifies this, dispatcher
      ensures Valid()
      ensures dispatcher.slot == Idle && dispatcher.trace == old(dispatcher.trace) + [Event.Dispose]
      ensures pendingFrame.None?
      ensures dragging == old(dragging) && cachedRect == old(cachedRect) && listeners == old(listeners)
      ensures hass == old(hass) && entity == old(entity) && isInitialized == old(isInitialized)
      ensures view == old(view) && pathLength == old(pathLength) && dashOffset == old(dashOffset)
      ensures overlayPercent == old(overlayPercent) && stateLabel == old(stateLabel)
      ensures outbox == old(outbox)
    {
      dispatcher.Dispose();
      pendingFrame := None;
    }

    /** disconnectedCallback as evidently intended: it also ends a drag in progress
        the way pointerup does, so the card is left Quiet and issues nothing more. */
    method DisconnectEndingDrag()
      requires Valid()
      modifies this, dispatcher
      ensures Valid() && Quiet()
      ensures dispatcher.trace == old(dispatcher.trace) + [Event.Dispose]
      ensures cachedRect.None?
      ensures hass == old(hass) && entity == old(entity) && isInitialized == old(isInitialized)
      ensures view == old(view) && pathLength == old(pathLength) && dashOffset == old(dashOffset)
      ensures overlayPercent == old(overlayPercent) && stateLabel == old(stateLabel)
      ensures outbox == old(outbox)
    {
      dispatcher.Dispose();
      pendingFrame := None;
      dragging := false;
      cachedRect := None;
      listeners := 0;
    }
  }

  /** The settings of a card on the default arc for light.desk. */
  function DeskSettings(): Settings {
    Settings("light.desk", 300.0, 120.0, 50, true, Obj(map["action" := Str("toggle")]))
  }

  /** A drag that starts at 310 degrees, then a disconnect as written, then a move to
      twelve o'clock: the window listener is still registered, the frame processes
      the move, and 50 ms later the card issues `light.turn_on` with brightness 85. */
  method DisconnectMidDragStillSends() returns (sent: seq<Effect>)
    ensures sent == [TurnOn("light.desk", Finite(85.0))]
  {
    DefaultArcReadings();
    var card := new RingBrightnessCard(DeskSettings());
    card.SetHass(Hass(map["light.desk" := Entity("on", Value(10.0))]), 100.0);
    card.PointerDown(Pointer(310.0), Rect(0.0, 0.0, 180.0, 180.0), 0);
    card.Disconnect();
    card.WindowPointerMove(Pointer(0.0));
    card.AnimationFrame(10);
    var fired := card.TimerTick(60);
    sent := card.outbox;
  }

  /** The same events after a disconnect that ends the drag issue nothing. */
  method DisconnectEndingDragSendsNothing() returns (sent: seq<Effect>)
    ensures sent == []
  {
    var card := new RingBrightnessCard(DeskSettings());
    card.SetHass(Hass(map["light.desk" := Entity("on", Value(10.0))]), 100.0);
    card.PointerDown(Pointer(310.0), Rect(0.0, 0.0, 180.0, 180.0), 0);
    card.DisconnectEndingDrag();
    card.WindowPointerMove(Pointer(0.0));
    card.AnimationFrame(10);
    var fired := card.TimerTick(60);
    sent := card.outbox;
  }
}
