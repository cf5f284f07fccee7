# Ring brightness card, modelled in Dafny

`ring-brigthness-card.js` defines `RingBrightnessCard`, a Home Assistant
dashboard card: a ring-shaped arc around a picture of a light. Dragging on the
ring picks a brightness along the arc, fills the arc up to the pointer, shows a
percent overlay and, after the pointer has been still for a configured delay,
asks Home Assistant to `light.turn_on` with that brightness. A click on the
centre runs a configurable tap action, and each `hass` update from Home
Assistant redraws the arc and the state label when the light's brightness or
state changed.

This project models that card's logic, without the DOM:

- `Js.dfy` (module `Js`): the JavaScript values the card handles. Numbers carry
  their infinities and NaN. The module also models truthiness, `||`, `??`,
  property lookup, `Number(…)`, division by zero and `Math.round`.
- `ArcGeometry.dfy`: `_calcArcLength`, the large-arc flag of `_describeArc`,
  and the stroke-dash offset of `_updateProgressVisual`. It proves that this
  offset shows exactly the filled fraction of the arc, under the dash rules of
  section 11.4 of SVG 1.1.
- `PositionMapper.dfy`: `_getRelativePosition`, plus the clamping and rounding
  that `_onPointerMove` applies to its result.
- `Dispatcher.dfy`: `_throttledServiceCall` and the timer part of
  `disconnectedCallback`. Together they form a trailing-edge debounce. The
  module defines it as a function over a trace of events, with a reference
  reading stated directly on the events, and gives a `Debouncer` class whose
  methods are proved to keep its slot equal to that function.
- `Config.dfy`: `setConfig` (validation and the merge over the defaults), the
  typed settings the card reads, `split('.')`, and `_handleTapAction`.
- `Display.dfy`: `_getBrightnessPercent`, `_getStateLabel`, the fraction
  `_updateState` draws, and the change test of the `hass` setter.
- `Card.dfy`: the card as a class. Its fields are `_hass`, `_entity`,
  `_isInitialized`, `_pathLength`, `_dragging`, `_cachedRect` and the
  outstanding animation frame. It also holds what is drawn, the window
  listeners registered by drags, the dispatcher and the list of commands
  issued. Each browser callback is a method whose contract gives the whole new
  state.

Time is an abstract clock in milliseconds. A due timer runs when `TimerTick` is
called, and an animation frame runs when `AnimationFrame` is called. The
commands sent to Home Assistant or the page (`callService`, the
`hass-more-info` event, navigation) are recorded as `Effect` values.

The model follows the code as written, including these behaviours, which
differ from what the card is meant to do:

- `_calcArcLength(s, s)` is 0, not a full turn. An arc whose start and end
  coincide therefore divides by zero in `_getRelativePosition`. It gives NaN at
  the start angle and +Infinity elsewhere (`DegenerateArcDividesByZero`). A NaN
  reading is then sent as the brightness. It is also assigned to the ring's
  offset; the model records that assigned value, not the rendered one, since
  CSS rejects "NaN" and the ring keeps its previous offset.
- The so-called throttle is a debounce. Each request cancels the pending timer
  and starts a new one, so nothing is sent while the pointer keeps moving.
- The tap actions are named `turn_on`, `turn_off`, `more-info` and
  `call-service`, as in the code.
- Once an initialised card has drawn the missing-entity warning, later updates
  never draw the card again. `_isInitialized` stays true, and `_updateState`
  writes to the detached elements (`SetHass` keeps `view`).

## Model

| member | source | states |
|---|---|---|
| Js.Divide | ring-brigthness-card.js:348-355 | Division by a non-zero arc length gives the exact quotient. Division by zero gives NaN exactly when the numerator is 0, +Infinity for a positive numerator and -Infinity for a negative one. |
| Js.Round | ring-brigthness-card.js:334-335 | `Math.round` gives the integer n with n - 1/2 <= x < n + 1/2. |
| Js.RoundScaled | ring-brigthness-card.js:334-335 | `Math.round(x * k)` is NaN exactly when x is NaN, or when x is infinite and k is 0. For finite x it is the integer within half of x * k. For infinite x and k > 0 it is x. |
| ArcGeometry.ArcLength | ring-brigthness-card.js:461-465 | For angles in [0, 360) the length is in [0, 360) and turning start clockwise by it reaches end. It is 0 exactly when start equals end. |
| ArcGeometry.ArcLengthUnique | ring-brigthness-card.js:461-465 | The clockwise rotation within one turn that carries start onto end is the arc length, and no other. |
| ArcGeometry.ComplementaryArcs | ring-brigthness-card.js:461-465 | The arcs a→b and b→a between distinct angles add up to 360. |
| ArcGeometry.DescribeArc | ring-brigthness-card.js:475-482 | The path goes from the end angle to the start angle with sweep flag 0. The large-arc flag is '1' exactly when the clockwise arc is longer than 180 degrees (section 8.3.8 of SVG 1.1). |
| ArcGeometry.LargeArcFlagPicksOneSide | ring-brigthness-card.js:478-479 | Of an arc and its complement, at most one gets the large-arc flag. Exactly one does unless both are half turns. |
| ArcGeometry.DashOffset | ring-brigthness-card.js:362-366 | `_updateProgressVisual`'s offset exceeds one path length by the fraction of the path: fraction 0 gives one path length and fraction 1 gives two. What is painted is stated by ArcGeometry.ProgressFillsFromStart. |
| ArcGeometry.DashOffsetBounds | ring-brigthness-card.js:362-366 | For fractions in [0, 1] the offset `pathLength * (1 + rel)` lies between one and two path lengths and grows with the fraction. |
| ArcGeometry.ProgressFillsFromStart | ring-brigthness-card.js:362-366 | With a dash array equal to the path length, the point at distance x along the path is painted exactly when x >= pathLength * (1 - rel). So the visible part is the fraction rel of the arc next to the start angle. |
| PositionMapper.RelativePosition | ring-brigthness-card.js:343-360 | `_getRelativePosition`. For an angle and a start within one turn and a positive arc length, a non-null result is a finite, non-negative fraction. Null exactly off the arc, the exact fraction, the round trip and monotonicity are stated by the lemmas below. |
| PositionMapper.RelativePositionNullExactlyOffArc | ring-brigthness-card.js:343-360 | The mapper returns null exactly for the angles off the clockwise arc from start to end, for wrapping and non-wrapping arcs. |
| PositionMapper.RelativePositionIsClockwiseFraction | ring-brigthness-card.js:343-360 | On an arc with distinct ends, the result is the clockwise distance from start divided by the arc length, a number in [0, 1]. |
| PositionMapper.RelativePositionAtDistance | ring-brigthness-card.js:343-360 | The angle d degrees clockwise from start, for d within the arc, maps to d divided by the arc length. |
| PositionMapper.RelativePositionRoundTrip | ring-brigthness-card.js:343-360 | For every rel in [0, 1] on a proper arc, the distance d = rel * length keeps start + d within two turns, and the angle start + d reduced into one turn maps back to exactly rel. |
| PositionMapper.RelativePositionMonotone | ring-brigthness-card.js:343-360 | Moving clockwise within the arc never decreases the fraction. |
| PositionMapper.DegenerateArcDividesByZero | ring-brigthness-card.js:343-360 | When start equals end the mapper returns NaN at the start angle and +Infinity at every other angle. |
| PositionMapper.Clamp01 | ring-brigthness-card.js:332 | `Math.max(0, Math.min(rel, 1))` is NaN exactly for NaN and otherwise lies in [0, 1]. It leaves fractions already in [0, 1] unchanged, saturates to 1 above the range (including +Infinity) and to 0 below it (including -Infinity). |
| PositionMapper.PointerReading | ring-brigthness-card.js:323-335 | A reading is NaN throughout, or it is a fraction in [0, 1] with an integer brightness in [0, 255] and an integer percent in [0, 100]. On an arc with distinct ends the fraction is finite. A finite fraction sends the brightness `Math.round(rel * 255)` and shows the percent `Math.round(rel * 100)`: each is the integer within half of rel * 255 and rel * 100. |
| PositionMapper.PointerReadingEnds | ring-brigthness-card.js:323-335 | On an arc with distinct ends, the start angle reads fraction 0, brightness 0 and 0%, and the end angle reads fraction 1, brightness 255 and 100%. |
| PositionMapper.PointerReadingOnArc | ring-brigthness-card.js:323-335 | A reading exists exactly for angles on the arc. Its fraction is the clockwise distance from start over the arc length. |
| PositionMapper.BrightnessMonotone | ring-brigthness-card.js:334 | Moving clockwise along the arc never lowers the brightness sent. |
| PositionMapper.DefaultArcReadings | ring-brigthness-card.js:323-335 | On the default arc 300→120: 0° gives (1/3, 85, 33), 310° gives (1/18, 14, 6), 10° gives (7/18, 99, 39), and 200° is off the arc. |
| Dispatcher.Step | ring-brigthness-card.js:379-391 | One event at the timer slot. Only a tick at or after the due time of an armed slot sends; it sends the pending value and empties the slot, and any other tick keeps the slot. The effect over a whole trace is stated by Dispatcher.RunSlot and Dispatcher.RunSends. |
| Dispatcher.Run | ring-brigthness-card.js:379-391 | A trace of requests, ticks and disposals yields one send entry per event. |
| Dispatcher.RunSlot | ring-brigthness-card.js:379-391 | The timer is pending exactly when some request has only early ticks after it. It then holds that request's value, due one delay after it. |
| Dispatcher.RunSends | ring-brigthness-card.js:379-391 | An event sends a value exactly when it is a tick at or after the due time of a request that only earlier ticks follow. It sends that request's value, so it is always the latest request, never an earlier one. |
| Dispatcher.SentOnce | ring-brigthness-card.js:384-390 | A request is sent at most once. |
| Dispatcher.SendsSpacedByDelay | ring-brigthness-card.js:379-391 | On a clock that does not run backwards, any two sends are at least one delay apart. |
| Dispatcher.TrailingEdgeExample | ring-brigthness-card.js:379-391 | Requests 10, 20 and 30 within one 50 ms window send nothing until 50 ms after the last. Then they send 30 alone, once. |
| Dispatcher.DisposeExample | ring-brigthness-card.js:484-487 | A request followed by a disconnect is never sent. |
| Dispatcher.Debouncer.constructor | ring-brigthness-card.js:6 | The card starts with no pending timer. |
| Dispatcher.Debouncer.Request | ring-brigthness-card.js:379-384 | A request replaces any pending value by its own, due one delay from now. The slot stays equal to the run of the whole trace. |
| Dispatcher.Debouncer.Tick | ring-brigthness-card.js:384-390 | A due timer sends the pending value and empties the slot; otherwise nothing changes. What is sent is what the reference reading says the request sent by this tick is. |
| Dispatcher.Debouncer.Dispose | ring-brigthness-card.js:484-487 | Disconnecting empties the slot, so its value is never sent. |
| Config.Configure | ring-brigthness-card.js:10-31 | A missing or falsy entity throws the error message. Otherwise the merged keys are the configuration's plus the defaults'. Every key present keeps its own value, and only absent keys take their defaults. |
| Config.Literal | ring-brigthness-card.js:15-28 | The literal has the entity and every default key. For a key the configuration lacks, it holds the default. |
| Config.ConfigureKeepsPresentFalsyValues | ring-brigthness-card.js:15-30 | The literal computes 180 and the toggle action for size 0 and tap_action null. The spread then restores 0 and null. |
| Config.ConfigureFillsDefault | ring-brigthness-card.js:15-30 | Each key the configuration lacks reads as its default after the merge. |
| Config.DefaultValues | ring-brigthness-card.js:21-28 | The defaults are start 300, end 120, delay 50, both readouts on, and tap action toggle. |
| Config.DefaultFields | ring-brigthness-card.js:15-30 | A configuration with only an entity merges to that entity and the default angles, delay, switches and tap action. |
| Config.SettingsOf | ring-brigthness-card.js:15-30 | A merged configuration has a typed reading exactly when its entity is a string and its angles and delay are finite numbers. The reading keeps the entity, the angles and the tap action as given, and the state switch by truthiness. Its debounce delay is the configured delay as setTimeout converts it (`TimerDelay`). |
| Config.TimerDelay | ring-brigthness-card.js:390 | The delay setTimeout waits: whole milliseconds for a delay in [0, 2^31). A delay in [2^31, 2^32) wraps negative and waits for none, as does every negative delay down to -2^31. It never exceeds 2^31 - 1. |
| Config.DefaultSettings | ring-brigthness-card.js:15-30 | Such a configuration gives the settings 300→120, 50 ms, the state label on, and toggle. The percent switch defaults to on in the merged configuration (Config.DefaultFields). |
| Config.Split | ring-brigthness-card.js:437 | `split('.')` gives at least one part. No part contains the separator, and joining the parts gives back the string. |
| Config.SplitJoin | ring-brigthness-card.js:437 | Splitting undoes joining parts that contain no separator. |
| Config.TapAction | ring-brigthness-card.js:393-447 | A service call never has a dot in its domain. More-info names the card's entity. Navigation happens only with a truthy path. Only call-service can throw. |
| Config.TapActionTable | ring-brigthness-card.js:393-446 | The command of each action name: toggle calls `homeassistant.toggle` on the entity, turn_on and turn_off call `light.turn_on` and `light.turn_off`, more-info opens the entity's dialog, navigate with a truthy path pushes that path, call-service with a falsy service and none issue nothing. |
| Config.ServiceCall | ring-brigthness-card.js:436-438 | The call issued for a service name is a service call with no dot in its domain, carrying the given data. |
| Config.CallServiceSplitsName | ring-brigthness-card.js:435-439 | `call-service` with a service of two or more dot-separated parts calls the first part as domain and the second as service, dropping any further parts, with `service_data` or `{}`. |
| Config.CallServiceWithoutDot | ring-brigthness-card.js:435-439 | A call-service action whose service name has no dot calls that domain with an undefined service, and with its `service_data` or `{}`. |
| Config.FalsyTapActionToggles | ring-brigthness-card.js:394-400 | A missing or falsy tap action toggles the entity through `homeassistant.toggle`. |
| Config.NavigateNeedsPath | ring-brigthness-card.js:424-433 | `navigate` without a truthy path does nothing. |
| Config.NonStringServiceThrows | ring-brigthness-card.js:435-437 | `call-service` with a truthy service that is not a string throws. |
| Config.UnknownActionDoesNothing | ring-brigthness-card.js:442-445 | Any action name outside the six handled ones, or an action that is not an object, does nothing. |
| Display.BrightnessPercent | ring-brigthness-card.js:449-452 | The percent is the integer within half of `(b \|\| 0) / 255 * 100`, as `Math.round` gives. A brightness in 0..255, or none, gives a percent in 0..100. |
| Display.BrightnessPercentMonotone | ring-brigthness-card.js:449-452 | A brighter light never shows a lower percent. 255 shows 100 and no brightness shows 0. |
| Display.EchoedPercentWithinOne | ring-brigthness-card.js:449-452 | The percent shown while dragging and the percent shown once Home Assistant reports the brightness the drag sent differ by at most 1. |
| Display.StateLabelOf | ring-brigthness-card.js:454-459 | The label shows the percent exactly when the state is "on". That percent is the entity's brightness percent. |
| Display.StateFraction | ring-brigthness-card.js:371 | `(b \|\| 0) / 255` times 255 is the brightness, or 0 when there is none. For brightnesses in 0..255 it lies in [0, 1]. |
| Display.Changed | ring-brigthness-card.js:50 | The `!==` test on brightness and state fires exactly when the entity read differs from the previous one, since those are the only parts the card reads. |
| Display.UnchangedNeedsNoRedraw | ring-brigthness-card.js:50-52 | An update that changes neither brightness nor state would draw the same offset and label. So skipping `_updateState` loses nothing. |
| Display.EchoedFractionCloseToDragged | ring-brigthness-card.js:371 | The sent brightness, once reported back, fills the arc to within 1/510 of the drag's fraction. |
| Card.TurnOn | ring-brigthness-card.js:385-388 | The dispatcher's command calls `light.turn_on` with `entity_id` the card's entity and `brightness` the value sent. |
| Card.OffsetFor | ring-brigthness-card.js:362-366 | The offset is NaN exactly for a NaN fraction. For a finite fraction it is the dash offset of `ArcGeometry.DashOffset`, and for a fraction in [0, 1] it lies between one and two path lengths. |
| Card.RingBrightnessCard.constructor | ring-brigthness-card.js:2-8 | A new card has nothing drawn, no drag, no frame, no timer and no command issued. |
| Card.RingBrightnessCard.SetHass | ring-brigthness-card.js:33-53 | The four outcomes. A missing entity draws the warning and keeps the entity, the initialised flag and the drawing. The first entity draws the card once, with the measured path length and its percent. A later changed entity redraws the offset and label. An unchanged one redraws nothing. Drag state, timer and commands are untouched. |
| Card.RingBrightnessCard.UpdateState | ring-brigthness-card.js:368-377 | The offset becomes `pathLength * (1 + (b \|\| 0) / 255)`. The label, when shown, is that of the current entity. Nothing else changes. |
| Card.RingBrightnessCard.OnPointerMove | ring-brigthness-card.js:310-341 | Outside a drag, or off the arc, nothing changes. Otherwise the offset and overlay show the reading, and the dispatcher is armed with its brightness. |
| Card.RingBrightnessCard.PointerDown | ring-brigthness-card.js:263-308 | A drag starts with the rectangle measured now and one more pair of window listeners. The first point is processed at once, as OnPointerMove does. The entity, hass, the initialised flag, the view and the path length stay as they were. |
| Card.RingBrightnessCard.WindowPointerMove | ring-brigthness-card.js:272-283 | While listeners are registered, the outstanding frame is replaced by one for this event. So at most one frame is outstanding, and it carries the latest event. |
| Card.RingBrightnessCard.WindowPointerUp | ring-brigthness-card.js:285-301 | The drag ends. The rectangle is forgotten, all listeners are removed and the frame is cancelled. |
| Card.RingBrightnessCard.AnimationFrame | ring-brigthness-card.js:280-282 | The frame processes the event it carries, as OnPointerMove does, and leaves no frame outstanding. The drag, the entity, hass, the initialised flag, the view, the path length and the label stay as they were. |
| Card.RingBrightnessCard.TimerTick | ring-brigthness-card.js:384-390 | A due timer issues `light.turn_on` for the entity with the pending brightness. That brightness is the one the dispatcher's reference reading says is sent. The tick is appended to the dispatcher's trace, and a firing timer empties the slot. Otherwise no command is issued and the slot is kept. |
| Card.RingBrightnessCard.Tap | ring-brigthness-card.js:257-260 | A click issues exactly the tap action's command, if it has one. |
| Card.RingBrightnessCard.Disconnect | ring-brigthness-card.js:484-491 | The timer and the frame are cancelled. The drag and its listeners are left as they were. |
| Card.RingBrightnessCard.DisconnectEndingDrag | ring-brigthness-card.js:484-491 | The timer and the frame are cancelled and the drag ends. The card is left quiet, so later window events and ticks issue nothing. |
| Card.DisconnectMidDragStillSends | ring-brigthness-card.js:484-491 | A move after the written disconnect still leads to `light.turn_on` with brightness 85. |
| Card.DisconnectEndingDragSendsNothing | ring-brigthness-card.js:484-491 | The same events after the corrected disconnect issue nothing. |

## Left out

- DOM rendering: the shadow-root markup, CSS, `_renderError`'s markup, the picture or icon, the entity name, the gradient and `querySelector`. The drawing is kept as a view (blank, warning or card), the dash offset, the overlay text and the state label.
- The state label's text: the emoji and the Spanish words around the percent are not modelled. The label is `Lit(percent)` or `Unlit`.
- `Math.atan2`, `Math.cos` and `Math.sin`: these are floating-point trigonometry. The pointer angle is an input in [0, 360). The arc path keeps its flags and its end angles, not its coordinates.
- `getTotalLength` and `getBoundingClientRect`: these are browser layout calls. The path length and the rectangle are parameters.
- `setTimeout`, `requestAnimationFrame` and window listeners: they become an explicit timer slot, one outstanding frame and a count of listener pairs, driven by an abstract clock. Real concurrency is not modelled.
- The 300 ms timer that hides the percent overlay, and the overlay's visibility class: these are cosmetic and never cancelled. `show_percentage` is read only for that visibility, so it is merged by Config.Configure but not part of Config.Settings.
- `_hasDragged`: it is written but never read.
- `preventDefault` and `stopPropagation`: they only affect the browser's handling of the events.
- `hass.callService`, `history.pushState` and `dispatchEvent`: these are host calls. They are recorded as `Effect` values in `outbox`.
- `getCardSize`, `getStubConfig`, `customElements.define`, `window.customCards` and `console.log`: these are registration glue.
- Floating-point rounding: finite numbers are exact reals.
- Js.ToNumber: only the empty string and plain decimal digits are read as numbers. Every other numeric string form (sign, decimal point, exponent, surrounding spaces, hex) reads as NaN, because full `Number()` parsing is outside the card's logic. The parse never reaches a later reading: the configuration's own size and stroke overwrite it in the merge.
- Config.SettingsOf: a merged configuration whose angles or delay are not finite numbers has no typed reading. JavaScript would coerce strings in the card's arithmetic and comparisons, and that coercion is not modelled.
- Card.RingBrightnessCard.constructor: the card is built from typed settings. So a second `setConfig` on a live card, and a `hass` update that arrives before any `setConfig` (a TypeError), are not modelled.
- Values are undefined, null, booleans, numbers, strings and plain objects. Arrays and functions do not appear, so a `service` object with its own `split` method is not modelled.
- Entity attributes other than `brightness` (`entity_picture`, `friendly_name`, `icon`) only affect the markup.
- Dispatcher.Run: its own contract states only one send entry per event. The slot and the sends are stated by Dispatcher.RunSlot and Dispatcher.RunSends.

## Findings

| source | as written | input that shows it | evidently intended | confidence | as-written member | corrected member |
|---|---|---|---|---|---|---|
| ring-brigthness-card.js:484-491 | `disconnectedCallback` cancels the timer and the animation frame. It leaves a drag in progress (`_dragging`, `_cachedRect`) and its window `pointermove`/`pointerup` listeners registered. | Default arc, 50 ms delay: pointer-down at 310°, disconnect, pointer-move to 0°, animation frame at 10 ms, timer at 60 ms. The detached card issues `light.turn_on` with brightness 85. | Teardown ends the gesture too, so a detached card issues no further command. | not executed; medium | Card.DisconnectMidDragStillSends | Card.RingBrightnessCard.DisconnectEndingDrag |
