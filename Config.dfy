/** The card's configuration and its tap action: setConfig validates the raw
    configuration and merges it over the defaults, the card reads typed settings
    from the merged object, and _handleTapAction turns the tap-action descriptor
    into at most one command. */
module Config {
  import opened Js

  /** The value setConfig gives each key the configuration leaves out. */
  const Defaults: map<string, Value> := map[
    "name" := Null,
    "image" := Null,
    "size" := Num(Finite(180.0)),
    "stroke" := Num(Finite(14.0)),
    "start_angle" := Num(Finite(300.0)),
    "end_angle" := Num(Finite(120.0)),
    "throttle_delay" := Num(Finite(50.0)),
    "show_percentage" := Bool(true),
    "show_state" := Bool(true),
    "gradient_start" := Str("#ffd54f"),
    "gradient_end" := Str("#fe5000"),
    "tap_action" := Obj(map["action" := Str("toggle")])
  ]

  const MissingEntity: string := "Debes especificar una entidad (entity)"

  /** setConfig: throws when `entity` is missing or falsy; otherwise builds the
      object literal of defaults and then spreads the whole configuration over
      it, so every key the configuration has keeps its own value, however falsy
      or ill-typed, and only the keys it lacks take their defaults. */
  function Configure(config: map<string, Value>): (r: Result<map<string, Value>>)
    ensures r.Error? <==> !Truthy(Field(config, "entity"))
    ensures r.Error? ==> r.message == MissingEntity
    ensures r.Ok? ==> r.value.Keys == config.Keys + Defaults.Keys
    ensures r.Ok? ==> forall k :: k in config ==> r.value[k] == config[k]
    ensures r.Ok? ==> forall k :: k in Defaults && k !in config ==> r.value[k] == Defaults[k]
  {
    if !Truthy(Field(config, "entity")) then Error(MissingEntity)
    else Ok(Literal(config) + config)
  }

  /** The object literal setConfig builds before the spread: the entity, then each
      default behind `||`, `??` or `Number(…) ||`. */
  function Literal(config: map<string, Value>): (computed: map<string, Value>)
    ensures computed.Keys == Defaults.Keys + {"entity"}
    ensures forall k :: k in Defaults && k !in config ==> computed[k] == Defaults[k]
  {
    map[
        "entity" := Field(config, "entity"),
        "name" := Or(Field(config, "name"), Null),
        "image" := Or(Field(config, "image"), Null),
        "size" := Or(Num(ToNumber(Field(config, "size"))), Num(Finite(180.0))),
        "stroke" := Or(Num(ToNumber(Field(config, "stroke"))), Num(Finite(14.0))),
        "start_angle" := Coalesce(Field(config, "start_angle"), Num(Finite(300.0))),
        "end_angle" := Coalesce(Field(config, "end_angle"), Num(Finite(120.0))),
        "throttle_delay" := Coalesce(Field(config, "throttle_delay"), Num(Finite(50.0))),
        "show_percentage" := Coalesce(Field(config, "show_percentage"), Bool(true)),
        "show_state" := Coalesce(Field(config, "show_state"), Bool(true)),
        "gradient_start" := Or(Field(config, "gradient_start"), Str("#ffd54f")),
        "gradient_end" := Or(Field(config, "gradient_end"), Str("#fe5000")),
        "tap_action" := Or(Field(config, "tap_action"), Obj(map["action" := Str("toggle")]))
    ]
  }

  /** Because the spread comes last, a falsy size or tap action survives: the
      literal computes the defaults 180 and `{ action: 'toggle' }` for them, and
      the configuration's own 0 and null replace them. */
  lemma ConfigureKeepsPresentFalsyValues(config: map<string, Value>, entity: string)
    requires config == map["entity" := Str(entity), "size" := Num(Finite(0.0)), "tap_action" := Null]
    requires entity != ""
    ensures Field(Literal(config), "size") == Num(Finite(180.0))
    ensures Field(Literal(config), "tap_action") == Obj(map["action" := Str("toggle")])
    ensures Configure(config).Ok?
    ensures Field(Configure(config).value, "size") == Num(Finite(0.0))
    ensures Field(Configure(config).value, "tap_action") == Null
  {
    assert Field(config, "size") == Num(Finite(0.0)) && Field(config, "tap_action") == Null;
  }

  /** The settings the card reads from its merged configuration. */
  datatype Settings = Settings(
    entity: string,
    startAngle: real,
    endAngle: real,
    throttleDelay: nat,
    showState: bool,
    tapAction: Value)

  /** The delay setTimeout waits for a finite delay. The delay is converted to a
      signed 32-bit integer (truncated toward zero, then wrapped modulo 2^32), and
      a negative result waits for none. So a delay of 2^31 ms or more wraps and
      fires at once. */
  function TimerDelay(d: real): (n: nat)
    ensures 0.0 <= d < 2147483648.0 ==> n == d.Floor
    ensures -2147483648.0 <= d < 0.0 || 2147483648.0 <= d < 4294967296.0 ==> n == 0
    ensures n < 2147483648
  {
    var t := if d >= 0.0 then d.Floor else -((-d).Floor);
    var w := t % 4294967296;
    if w >= 2147483648 then 0 else w
  }

  /** The value is a finite number. */
  predicate IsFiniteNum(v: Value) {
    v.Num? && v.n.Finite?
  }

  /** The typed reading of a merged configuration, when its entity id is a string
      and its angles and delay are finite numbers; the switches count by
      truthiness, as the card's `if` tests do. */
  function SettingsOf(config: map<string, Value>): (r: Option<Settings>)
    ensures r.Some? <==>
      Field(config, "entity").Str? && IsFiniteNum(Field(config, "start_angle")) &&
      IsFiniteNum(Field(config, "end_angle")) && IsFiniteNum(Field(config, "throttle_delay"))
    ensures r.Some? ==>
      Field(config, "entity") == Str(r.value.entity) &&
      Field(config, "start_angle") == Num(Finite(r.value.startAngle)) &&
      Field(config, "end_angle") == Num(Finite(r.value.endAngle)) &&
      (r.value.showState <==> Truthy(Field(config, "show_state"))) &&
      r.value.tapAction == Field(config, "tap_action")
    ensures r.Some? ==> r.value.throttleDelay == TimerDelay(Field(config, "throttle_delay").n.r)
  {
    var entity := Field(config, "entity");
    var start := Field(config, "start_angle");
    var end := Field(config, "end_angle");
    var delay := Field(config, "throttle_delay");
    if entity.Str? && start.Num? && start.n.Finite? && end.Num? && end.n.Finite?
       && delay.Num? && delay.n.Finite?
    then
      Some(Settings(entity.s, start.n.r, end.n.r, TimerDelay(delay.n.r),
                    Truthy(Field(config, "show_state")),
                    Field(config, "tap_action")))
    else None
  }

  /** Each key the configuration lacks reads as its default after the merge. */
  lemma ConfigureFillsDefault(config: map<string, Value>, k: string)
    requires Truthy(Field(config, "entity")) && k in Defaults && k !in config
    ensures Field(Configure(config).value, k) == Defaults[k]
  {
  }

  lemma DefaultValues()
    ensures Defaults["start_angle"] == Num(Finite(300.0)) && Defaults["end_angle"] == Num(Finite(120.0))
    ensures Defaults["throttle_delay"] == Num(Finite(50.0))
    ensures Defaults["show_percentage"] == Bool(true) && Defaults["show_state"] == Bool(true)
    ensures Defaults["tap_action"] == Obj(map["action" := Str("toggle")])
  {
  }

  /** A configuration that names only its entity gets the default ring: 300 to 120
      degrees, 50 ms debounce, the state label on, and a tap that toggles. */
  lemma DefaultSettings(config: map<string, Value>, entity: string)
    requires config == map["entity" := Str(entity)] && entity != ""
    ensures SettingsOf(Configure(config).value)
         == Some(Settings(entity, 300.0, 120.0, 50, true, Obj(map["action" := Str("toggle")])))
  {
    DefaultFields(config, entity);
    assert TimerDelay(50.0) == 50;
  }

  lemma DefaultFields(config: map<string, Value>, entity: string)
    requires config == map["entity" := Str(entity)] && entity != ""
    ensures var r := Configure(config).value;
      Field(r, "entity") == Str(entity) &&
      Field(r, "start_angle") == Num(Finite(300.0)) && Field(r, "end_angle") == Num(Finite(120.0)) &&
      Field(r, "throttle_delay") == Num(Finite(50.0)) &&
      Field(r, "show_percentage") == Bool(true) && Field(r, "show_state") == Bool(true) &&
      Field(r, "tap_action") == Obj(map["action" := Str("toggle")])
  {
    ConfigureFillsDefault(config, "start_angle");
    ConfigureFillsDefault(config, "end_angle");
    ConfigureFillsDefault(config, "throttle_delay");
    ConfigureFillsDefault(config, "show_percentage");
    ConfigureFillsDefault(config, "show_state");
    ConfigureFillsDefault(config, "tap_action");
    DefaultValues();
  }

  /** The parts of a string between separators, as `s.split(sep)` returns them:
      at least one, none containing the separator, and joined back they give s. */
  function Split(s: string, sep: char): (parts: seq<string>)
    ensures |parts| >= 1
    ensures forall i :: 0 <= i < |parts| ==> sep !in parts[i]
    ensures Join(parts, sep) == s
    decreases |s|
  {
    if s == [] then [[]]
    else
      var rest := Split(s[1..], sep);
      if s[0] == sep then [[]] + rest
      else [[s[0]] + rest[0]] + rest[1..]
  }

  /** The parts with the separator between each two. */
  function Join(parts: seq<string>, sep: char): string
    requires |parts| >= 1
  {
    if |parts| == 1 then parts[0] else parts[0] + [sep] + Join(parts[1..], sep)
  }

  /** Splitting undoes joining parts that do not contain the separator. */
  lemma {:induction false} SplitJoin(parts: seq<string>, sep: char)
    requires |parts| >= 1
    requires forall i :: 0 <= i < |parts| ==> sep !in parts[i]
    ensures Split(Join(parts, sep), sep) == parts
    decreases |Join(parts, sep)|, |parts[0]|
  {
    var s := Join(parts, sep);
    if parts[0] == [] {
      if |parts| > 1 {
        assert s == [sep] + Join(parts[1..], sep);
        assert s[1..] == Join(parts[1..], sep);
        SplitJoin(parts[1..], sep);
        assert parts == [[]] + parts[1..];
      }
    } else {
      var tail := [parts[0][1..]] + parts[1..];
      assert tail[1..] == parts[1..];
      assert Join(tail, sep) == s[1..] by {
        if |parts| > 1 {
          assert s == parts[0] + [sep] + Join(parts[1..], sep);
        }
      }
      assert sep !in tail[0];
      SplitJoin(tail, sep);
      assert parts[0] == [s[0]] + tail[0];
      assert parts == [[s[0]] + tail[0]] + tail[1..];
    }
  }

  /** What the card asks of Home Assistant or of the page. */
  datatype Effect =
    | CallService(domain: string, service: Option<string>, data: Value)
    | MoreInfo(entityId: string)
    | Navigate(path: Value)

  /** The outcome of one tap: no command, one command, or a TypeError thrown by
      `split` on a service that is not a string. */
  datatype TapOutcome = NoCommand | Issue(effect: Effect) | Throws

  /** The service data `{ entity_id: entity }`. */
  function EntityData(entity: string): Value {
    Obj(map["entity_id" := Str(entity)])
  }

  /** _handleTapAction: toggle, turn_on and turn_off call services on the entity,
      more-info asks the page for the entity's dialog, navigate pushes its path
      when it has one, call-service calls the service named `domain.service`
      when it is given; none and any other action do nothing. */
  function TapAction(tapAction: Value, entity: string): (o: TapOutcome)
    ensures o.Issue? && o.effect.CallService? ==> '.' !in o.effect.domain
    ensures o.Issue? && o.effect.MoreInfo? ==> o.effect.entityId == entity
    ensures o.Issue? && o.effect.Navigate? ==> Truthy(o.effect.path)
    ensures o.Throws? ==> Prop(Or(tapAction, Obj(map["action" := Str("toggle")])), "action") == Str("call-service")
  {
    var action := Or(tapAction, Obj(map["action" := Str("toggle")]));
    var name := Prop(action, "action");
    if name == Str("toggle") then Issue(CallService("homeassistant", Some("toggle"), EntityData(entity)))
    else if name == Str("turn_on") then Issue(CallService("light", Some("turn_on"), EntityData(entity)))
    else if name == Str("turn_off") then Issue(CallService("light", Some("turn_off"), EntityData(entity)))
    else if name == Str("more-info") then Issue(MoreInfo(entity))
    else if name == Str("navigate") then
      var path := Prop(action, "navigation_path");
      if Truthy(path) then Issue(Navigate(path)) else NoCommand
    else if name == Str("call-service") then
      var service := Prop(action, "service");
      if !Truthy(service) then NoCommand
      else if !service.Str? then Throws
      else Issue(ServiceCall(service.s, Or(Prop(action, "service_data"), Obj(map[]))))
    else NoCommand
  }

  /** `const [domain, service] = name.split('.')` followed by the call: the first
      part is the domain, the second, when there is one, the service. */
  function ServiceCall(name: string, data: Value): (e: Effect)
    ensures e.CallService? && '.' !in e.domain && e.data == data
  {
    var parts := Split(name, '.');
    CallService(parts[0], if |parts| > 1 then Some(parts[1]) else None, data)
  }

  /** The command each action name issues for an action object: toggle calls
      `homeassistant.toggle` on the entity, turn_on and turn_off call
      `light.turn_on` and `light.turn_off`, more-info opens the entity's dialog,
      navigate with a truthy path pushes that path, call-service without a truthy
      service and none do nothing. */
  lemma TapActionTable(action: map<string, Value>, entity: string)
    ensures var name := Field(action, "action");
      var o := TapAction(Obj(action), entity);
      (name == Str("toggle") ==> o == Issue(CallService("homeassistant", Some("toggle"), EntityData(entity)))) &&
      (name == Str("turn_on") ==> o == Issue(CallService("light", Some("turn_on"), EntityData(entity)))) &&
      (name == Str("turn_off") ==> o == Issue(CallService("light", Some("turn_off"), EntityData(entity)))) &&
      (name == Str("more-info") ==> o == Issue(MoreInfo(entity))) &&
      (name == Str("navigate") && Truthy(Field(action, "navigation_path")) ==>
        o == Issue(Navigate(Field(action, "navigation_path")))) &&
      (name == Str("call-service") && !Truthy(Field(action, "service")) ==> o == NoCommand) &&
      (name == Str("none") ==> o == NoCommand)
  {
  }

  /** A service name of two or more dot-separated parts calls the first part as
      the domain and the second as the service; any further parts are dropped, as
      the two-element destructuring of `split('.')` does. */
  lemma CallServiceSplitsName(action: map<string, Value>, parts: seq<string>, entity: string)
    requires |parts| >= 2 && forall i :: 0 <= i < |parts| ==> '.' !in parts[i]
    requires Field(action, "action") == Str("call-service")
    requires Field(action, "service") == Str(Join(parts, '.'))
    ensures TapAction(Obj(action), entity)
         == Issue(CallService(parts[0], Some(parts[1]), Or(Field(action, "service_data"), Obj(map[]))))
  {
    JoinedNameSplits(parts);
    CallServiceOutcome(action, Join(parts, '.'), entity);
  }

  /** A call-service action with a non-empty string service calls the first part
      of its split as domain, and the second, when there is one, as service. */
  lemma CallServiceOutcome(action: map<string, Value>, name: string, entity: string)
    requires Field(action, "action") == Str("call-service")
    requires Field(action, "service") == Str(name) && name != []
    ensures TapAction(Obj(action), entity)
         == Issue(ServiceCall(name, Or(Field(action, "service_data"), Obj(map[]))))
  {
  }

  /** Joining two or more dot-free parts gives a non-empty name that splits back
      into them. */
  lemma JoinedNameSplits(parts: seq<string>)
    requires |parts| >= 2 && forall i :: 0 <= i < |parts| ==> '.' !in parts[i]
    ensures Join(parts, '.') != []
    ensures Split(Join(parts, '.'), '.') == parts
  {
    assert '.' in Join(parts, '.') by {
      assert Join(parts, '.') == parts[0] + ['.'] + Join(parts[1..], '.');
      assert Join(parts, '.')[|parts[0]|] == '.';
    }
    SplitJoin(parts, '.');
  }

  /** A service name without a dot calls that domain with an undefined service. */
  lemma CallServiceWithoutDot(action: map<string, Value>, name: string, entity: string)
    requires '.' !in name && name != ""
    requires Field(action, "action") == Str("call-service") && Field(action, "service") == Str(name)
    ensures TapAction(Obj(action), entity)
         == Issue(CallService(name, None, Or(Field(action, "service_data"), Obj(map[]))))
  {
    SplitJoin([name], '.');
    CallServiceOutcome(action, name, entity);
  }

  /** A missing or falsy tap action toggles the entity, as the default does. */
  lemma FalsyTapActionToggles(tapAction: Value, entity: string)
    requires !Truthy(tapAction)
    ensures TapAction(tapAction, entity) == Issue(CallService("homeassistant", Some("toggle"), EntityData(entity)))
  {
  }

  /** A navigate action without a truthy path does nothing. */
  lemma NavigateNeedsPath(action: map<string, Value>, entity: string)
    requires Field(action, "action") == Str("navigate") && !Truthy(Field(action, "navigation_path"))
    ensures TapAction(Obj(action), entity) == NoCommand
  {
  }

  /** A call-service action with a truthy service that is not a string throws. */
  lemma NonStringServiceThrows(action: map<string, Value>, entity: string)
    requires Field(action, "action") == Str("call-service")
    requires Truthy(Field(action, "service")) && !Field(action, "service").Str?
    ensures TapAction(Obj(action), entity) == Throws
  {
  }

  /** Only the listed action names issue a command; any other name, or an action
      that is not an object, does nothing. */
  lemma UnknownActionDoesNothing(tapAction: Value, entity: string)
    requires Truthy(tapAction)
    requires Prop(tapAction, "action") !in
      {Str("toggle"), Str("turn_on"), Str("turn_off"), Str("more-info"), Str("navigate"), Str("call-service")}
    ensures TapAction(tapAction, entity) == NoCommand
  {
  }
}
