/**
 * `MqttShellyAdapter`: the inbound pipeline from an MQTT message to a
 * device update, the device registry, the per-device address prefixes,
 * and the address resolution of `updateShelly`.
 *
 * The pure functions `MessageEffect`, `GetOrCreate`, `Update` and `Ingest`
 * specify the adapter on an abstract `AdapterView`; the class below keeps
 * the source's two records and its device objects and is proved to follow
 * them message by message. `JSON.parse` is the parameter `parse`, whose
 * `None` result stands for a thrown SyntaxError.
 */
module Ingress {
  import opened Wrappers
  import opened Strings
  import opened JsValues
  import opened Properties
  import opened Devices
  import opened Topics
  import opened MqttController

  /** Payloads a boolean-typed property reads as true; every other payload is false. */
  const BOOLEAN_TRUE: set<string> := {"1", "on", "open"}

  /** The `shellyplusht` properties whose payload is a JSON envelope. */
  const ENVELOPED: set<string> := {"battery", "temperature0", "humidity0"}

  /** `${s[i]}`: the character at `i`, or the text `undefined` past the end. */
  function CharAt(s: string, i: nat): (r: string)
    ensures i < |s| ==> r == s[i..i + 1]
    ensures i >= |s| ==> r == "undefined"
  {
    if i < |s| then [s[i]] else "undefined"
  }

  /** The event emitted for an input-event name: short press for code `S`, long press otherwise. */
  function EventName(name: string, event: JsValue): (r: string)
    ensures |r| >= 10 && r[..5] == "input" && r[|r| - 5..] == "Press"
    ensures r[5..|r| - 5] == CharAt(name, 11) || r[5..|r| - 5] == CharAt(name, 11) + "Long"
    ensures event == Str("S") <==> |r| == 10 + |CharAt(name, 11)|
  {
    var digit := CharAt(name, 11);
    var r := "input" + digit + (if event == Str("S") then "Press" else "LongPress");
    assert r[..5] == "input";
    assert event != Str("S") ==> r[5..|r| - 5] == digit + "Long";
    r
  }

  /** An `input_event` message: a count below one or an empty code emits nothing. */
  function InputEvent(name: string, parsed: Option<JsValue>): (e: Effect)
    ensures e.Throw? || e.Ignore? || e.Emit?
  {
    match parsed
    case None => Throw
    case Some(j) =>
      match Member(j, "event_cnt")
      case None => Throw
      case Some(count) =>
        if LessThanOne(count) then Ignore
        else
          match Member(j, "event")
          case None => Throw
          case Some(event) => if event == Str("") then Ignore else Emit(EventName(name, event))
  }

  /** The field a `shellyplusht` envelope carries for `name`; `None` when the access throws. */
  function Envelope(name: string, parsed: Option<JsValue>): (r: Option<JsValue>)
    requires name in ENVELOPED
    ensures parsed.None? || parsed == Some(Null) || parsed == Some(Undefined) ==> r.None?
    ensures parsed.Some? && parsed.value.Obj? && name == "temperature0" ==>
              r == Some(if "tC" in parsed.value.fields then parsed.value.fields["tC"] else Undefined)
    ensures parsed.Some? && parsed.value.Obj? && name == "humidity0" ==>
              r == Some(if "rh" in parsed.value.fields then parsed.value.fields["rh"] else Undefined)
    ensures parsed.Some? && parsed.value.Obj? && name == "battery" ==>
              var battery := if "battery" in parsed.value.fields then parsed.value.fields["battery"] else Undefined;
              (r.None? <==> !Defined(battery))
              && (battery.Obj? ==> r == Some(if "percent" in battery.fields then battery.fields["percent"] else Undefined))
  {
    match parsed
    case None => None
    case Some(j) =>
      if name == "battery" then
        match Member(j, "battery")
        case None => None
        case Some(battery) => Member(battery, "percent")
      else if name == "temperature0" then Member(j, "tC")
      else Member(j, "rh")
  }

  /**
   * `updateDevice` once the device is known: what a message with property
   * name `name` and payload `payload` does to a device of `model`, for a
   * message whose topic named the device type `msgType`.
   */
  function MessageEffect(msgType: string, model: Model, properties: map<string, Property>, name: string,
                  payload: string, parse: string -> Option<JsValue>): (e: Effect)
    ensures e.Store? ==> e.key in properties
    ensures e.Emit? || e.Ignore? ==> StartsWith(name, "input_event")
    ensures e.Connect? <==> !StartsWith(name, "input_event") && msgType == "shellyplusht" && name == "online"
    ensures e.Throw? ==> StartsWith(name, "input_event") || (msgType == "shellyplusht" && name in ENVELOPED)
    ensures e.Unmatched? ==> FindProperty(model, properties, name).None?
  {
    if StartsWith(name, "input_event") then InputEvent(name, parse(payload))
    else
      var found := FindProperty(model, properties, name);
      var formatted :=
        if found.Some? && DescriptionOf(properties[found.value].kind).valueType == BooleanType
        then Bool(payload in BOOLEAN_TRUE)
        else Str(payload);
      if msgType == "shellyplusht" && name == "online" then Connect(payload == "true")
      else if msgType == "shellyplusht" && name in ENVELOPED then
        match Envelope(name, parse(payload))
        case None => Throw
        case Some(v) => if found.Some? then Store(found.value, v) else Unmatched
      else if found.Some? then Store(found.value, formatted)
      else Unmatched
  }

  /** An input-event name never updates a property. */
  lemma InputEventsNeverStore(msgType: string, model: Model, properties: map<string, Property>, name: string,
                              payload: string, parse: string -> Option<JsValue>)
    requires StartsWith(name, "input_event")
    ensures var e := MessageEffect(msgType, model, properties, name, payload, parse);
      (e.Throw? || e.Ignore? || e.Emit?) && ApplyEffect(DeviceState(properties, {}, [], []), e).properties == properties
  {
  }

  /**
   * For an object payload, an input event is emitted exactly when the count
   * is not below one and the code is not empty; it is the short press for
   * code `S` and the long press for any other code, for the input named by
   * the one character after `input_event`, whatever follows it.
   */
  lemma InputEventDecoding(msgType: string, model: Model, properties: map<string, Property>, c: char, rest: string,
                           payload: string, parse: string -> Option<JsValue>, fields: map<string, JsValue>)
    requires parse(payload) == Some(Obj(fields))
    ensures var count := if "event_cnt" in fields then fields["event_cnt"] else Undefined;
      var event := if "event" in fields then fields["event"] else Undefined;
      var e := MessageEffect(msgType, model, properties, "input_event" + [c] + rest, payload, parse);
      && (e.Ignore? <==> LessThanOne(count) || event == Str(""))
      && (e.Emit? <==> !LessThanOne(count) && event != Str(""))
      && (e.Emit? ==> e.event == "input" + [c] + (if event == Str("S") then "Press" else "LongPress"))
  {
    var name := "input_event" + [c] + rest;
    assert name[..11] == "input_event";
    assert CharAt(name, 11) == [c];
  }

  /**
   * A bare `input_event` name (a topic whose index segment is empty) reads
   * past its end: the event emitted is `inputundefinedPress` or
   * `inputundefinedLongPress`.
   */
  lemma InputEventUnindexed(msgType: string, model: Model, properties: map<string, Property>,
                            payload: string, parse: string -> Option<JsValue>, fields: map<string, JsValue>)
    requires parse(payload) == Some(Obj(fields))
    ensures var count := if "event_cnt" in fields then fields["event_cnt"] else Undefined;
      var event := if "event" in fields then fields["event"] else Undefined;
      var e := MessageEffect(msgType, model, properties, "input_event", payload, parse);
      && (e.Emit? <==> !LessThanOne(count) && event != Str(""))
      && (e.Emit? ==> e.event == "inputundefined" + (if event == Str("S") then "Press" else "LongPress"))
  {
    assert "input_event"[..11] == "input_event";
    assert MessageEffect(msgType, model, properties, "input_event", payload, parse)
        == InputEvent("input_event", Some(Obj(fields)));
    assert CharAt("input_event", 11) == "undefined";
  }

  /** A payload that is not JSON makes an input event throw. */
  lemma InputEventMalformed(msgType: string, model: Model, properties: map<string, Property>, name: string,
                            payload: string, parse: string -> Option<JsValue>)
    requires StartsWith(name, "input_event") && parse(payload).None?
    ensures MessageEffect(msgType, model, properties, name, payload, parse) == Throw
  {
  }

  /**
   * A boolean-typed property stores true exactly for the payloads `1`, `on`
   * and `open`, and false for every other payload.
   */
  lemma BooleanAllowList(msgType: string, model: Model, properties: map<string, Property>, name: string,
                         payload: string, parse: string -> Option<JsValue>, key: string)
    requires !StartsWith(name, "input_event") && !(msgType == "shellyplusht" && name in ENVELOPED + {"online"})
    requires FindProperty(model, properties, name) == Some(key)
    requires properties[key].kind.Plain? && properties[key].kind.description.valueType == BooleanType
    ensures MessageEffect(msgType, model, properties, name, payload, parse) == Store(key, Bool(payload in BOOLEAN_TRUE))
    ensures ApplyEffect(DeviceState(properties, {}, [], []), MessageEffect(msgType, model, properties, name, payload, parse))
              .properties[key].value == Bool(payload == "1" || payload == "on" || payload == "open")
  {
  }

  /**
   * Through MQTT a `ButtonProperty` can only ever read false: the boolean
   * rule turns the payload into a boolean, and the button caches whether
   * its value is the number 1.
   */
  lemma ButtonReadsFalse(msgType: string, model: Model, properties: map<string, Property>, name: string,
                         payload: string, parse: string -> Option<JsValue>, key: string)
    requires !StartsWith(name, "input_event") && !(msgType == "shellyplusht" && name in ENVELOPED + {"online"})
    requires FindProperty(model, properties, name) == Some(key) && properties[key].kind.Button?
    ensures ApplyEffect(DeviceState(properties, {}, [], []), MessageEffect(msgType, model, properties, name, payload, parse))
              .properties[key].value == Bool(false)
  {
  }

  /** `online` from a `shellyplusht` changes connectivity and no property. */
  lemma OnlineSetsConnectivity(model: Model, properties: map<string, Property>, payload: string,
                               parse: string -> Option<JsValue>)
    ensures MessageEffect("shellyplusht", model, properties, "online", payload, parse) == Connect(payload == "true")
  {
  }

  /** A `shellyplusht` `temperature0` message stores the payload's `tC`, `undefined` when it has none. */
  lemma TemperatureEnvelope(model: Model, properties: map<string, Property>, payload: string,
                            parse: string -> Option<JsValue>, fields: map<string, JsValue>)
    requires parse(payload) == Some(Obj(fields)) && "temperature0" in properties
    ensures MessageEffect("shellyplusht", model, properties, "temperature0", payload, parse)
              == Store("temperature0", if "tC" in fields then fields["tC"] else Undefined)
  {
    assert "temperature0" in ENVELOPED;
    FirstCharDiffers("temperature0", "input_event");
  }

  /** A `shellyplusht` `humidity0` message stores the payload's `rh`, `undefined` when it has none. */
  lemma HumidityEnvelope(model: Model, properties: map<string, Property>, payload: string,
                         parse: string -> Option<JsValue>, fields: map<string, JsValue>)
    requires parse(payload) == Some(Obj(fields)) && "humidity0" in properties
    ensures MessageEffect("shellyplusht", model, properties, "humidity0", payload, parse)
              == Store("humidity0", if "rh" in fields then fields["rh"] else Undefined)
  {
    assert "humidity0" in ENVELOPED;
    FirstCharDiffers("humidity0", "input_event");
  }

  /**
   * A `shellyplusht` `battery` message stores `battery.percent`; it throws
   * when the payload's `battery` is missing or `null`.
   */
  lemma BatteryEnvelope(model: Model, properties: map<string, Property>, payload: string,
                        parse: string -> Option<JsValue>, fields: map<string, JsValue>)
    requires parse(payload) == Some(Obj(fields)) && "battery" in properties
    ensures var battery := if "battery" in fields then fields["battery"] else Undefined;
      var e := MessageEffect("shellyplusht", model, properties, "battery", payload, parse);
      && (!Defined(battery) ==> e == Throw)
      && (battery.Obj? ==> e == Store("battery", if "percent" in battery.fields then battery.fields["percent"] else Undefined))
  {
    assert "battery" in ENVELOPED;
    FirstCharDiffers("battery", "input_event");
  }

  /** A `shellyplusht` envelope that is not JSON, or is `null`, throws, with or without a property. */
  lemma EnvelopeMalformed(model: Model, properties: map<string, Property>, name: string, payload: string,
                          parse: string -> Option<JsValue>)
    requires name in ENVELOPED && (parse(payload).None? || parse(payload) == Some(Null))
    ensures MessageEffect("shellyplusht", model, properties, name, payload, parse) == Throw
  {
    if name == "battery" {
      FirstCharDiffers("battery", "input_event");
    } else if name == "temperature0" {
      FirstCharDiffers("temperature0", "input_event");
    } else {
      FirstCharDiffers("humidity0", "input_event");
    }
  }

  /**
   * The common path: a found property that is not boolean-typed, outside
   * input events and the `shellyplusht` special names, stores the payload
   * text unchanged.
   */
  lemma TextStored(msgType: string, model: Model, properties: map<string, Property>, name: string,
                   payload: string, parse: string -> Option<JsValue>, key: string)
    requires !StartsWith(name, "input_event") && !(msgType == "shellyplusht" && name in ENVELOPED + {"online"})
    requires FindProperty(model, properties, name) == Some(key)
    requires DescriptionOf(properties[key].kind).valueType != BooleanType
    ensures MessageEffect(msgType, model, properties, name, payload, parse) == Store(key, Str(payload))
    ensures ApplyEffect(DeviceState(properties, {}, [], []), MessageEffect(msgType, model, properties, name, payload, parse))
              .properties[key].value == Str(payload)
  {
  }

  /** A name with no property, outside the special cases, changes nothing. */
  lemma UnmatchedChangesNothing(msgType: string, model: Model, s: DeviceState, name: string,
                                payload: string, parse: string -> Option<JsValue>)
    requires !StartsWith(name, "input_event") && !(msgType == "shellyplusht" && name in ENVELOPED + {"online"})
    requires FindProperty(model, s.properties, name).None?
    ensures ApplyEffect(s, MessageEffect(msgType, model, s.properties, name, payload, parse)) == s
  {
  }

  /**
   * The events the adapter emits for `input_event0` and `input_event1` are
   * among those a new `Shelly1L` declares.
   */
  lemma Shelly1LDeclaresEmittedEvents(msgType: string, base: Catalogue, i: nat, payload: string,
                                      parse: string -> Option<JsValue>)
    requires i < 2
    ensures var s := InitialState(Shelly1L, base);
      var e := MessageEffect(msgType, Shelly1L, s.properties, "input_event" + NatToString(i), payload, parse);
      e.Emit? ==> e.event in s.events
  {
    var c := if i == 0 then '0' else '1';
    assert NatToString(i) == [c];
    var press, longPress := "input" + [c] + "Press", "input" + [c] + "LongPress";
    assert press in SHELLY_1L_EVENTS && longPress in SHELLY_1L_EVENTS by {
      if i == 0 {
        assert press == "input0Press" && longPress == "input0LongPress";
      } else {
        assert press == "input1Press" && longPress == "input1LongPress";
      }
    }
    assert "input_event" + NatToString(i) == "input_event" + [c] + "";
    InputEventPresses(msgType, Shelly1L, InitialState(Shelly1L, base).properties, c, "", payload, parse);
  }

  /** An emitted event is the short or the long press of the input named by the digit. */
  lemma InputEventPresses(msgType: string, model: Model, properties: map<string, Property>, c: char, rest: string,
                          payload: string, parse: string -> Option<JsValue>)
    ensures var e := MessageEffect(msgType, model, properties, "input_event" + [c] + rest, payload, parse);
      e.Emit? ==> e.event == "input" + [c] + "Press" || e.event == "input" + [c] + "LongPress"
  {
    var name := "input_event" + [c] + rest;
    assert name[..11] == "input_event";
    assert CharAt(name, 11) == [c];
  }

  datatype DeviceView = DeviceView(model: Model, controller: Option<Controller>, state: DeviceState)

  /** The adapter's registry, its address prefixes and its `handleDeviceAdded` calls, oldest first. */
  datatype AdapterView = AdapterView(devices: map<string, DeviceView>, prefixes: map<string, string>, added: seq<string>)

  /** What handling one message came to. */
  datatype Outcome = Discarded | Handled(effect: Effect)

  /** `createDevice`: only a `Shelly1L` is given a controller, for its own id. */
  function NewDevice(model: Model, id: string, catalogue: Model -> Catalogue): (d: DeviceView)
    ensures d.model == model && d.state == InitialState(model, catalogue(model))
    ensures d.controller.Some? <==> model == Shelly1L
    ensures d.controller.Some? ==> d.controller.value.id == id
  {
    DeviceView(model, if model == Shelly1L then Some(Controller(id)) else None, InitialState(model, catalogue(model)))
  }

  /** `getOrCreateDevice`: the stored device, else a new one for a known type, registered once. */
  function GetOrCreate(v: AdapterView, msgType: string, id: string, catalogue: Model -> Catalogue)
    : (r: (AdapterView, Option<DeviceView>))
    ensures r.0.prefixes == v.prefixes
    ensures id in v.devices ==> r == (v, Some(v.devices[id]))
    ensures id !in v.devices && ModelOf(msgType).None? ==> r == (v, None)
    ensures id !in v.devices && ModelOf(msgType).Some? ==>
              r.1 == Some(NewDevice(ModelOf(msgType).value, id, catalogue))
              && r.0.devices == v.devices[id := r.1.value] && r.0.added == v.added + [id]
  {
    if id in v.devices then (v, Some(v.devices[id]))
    else
      match ModelOf(msgType)
      case None => (v, None)
      case Some(m) =>
        var d := NewDevice(m, id, catalogue);
        (v.(devices := v.devices[id := d], added := v.added + [id]), Some(d))
  }

  /** `updateDevice`: look the device up or create it, then decode and apply the message. */
  function Update(v: AdapterView, msgType: string, id: string, name: string, payload: string,
                        parse: string -> Option<JsValue>, catalogue: Model -> Catalogue): (r: (AdapterView, Outcome))
    ensures r.0.prefixes == v.prefixes
    ensures r.0.added == v.added || (id !in v.devices && r.0.added == v.added + [id])
    ensures v.devices.Keys <= r.0.devices.Keys <= v.devices.Keys + {id}
    ensures forall k :: k in v.devices && k != id ==> r.0.devices[k] == v.devices[k]
    ensures r.1.Discarded? <==> id !in v.devices && ModelOf(msgType).None?
    ensures r.1.Handled? ==>
              var before := if id in v.devices then v.devices[id] else NewDevice(ModelOf(msgType).value, id, catalogue);
              id in r.0.devices && r.0.devices[id] == before.(state := ApplyEffect(before.state, r.1.effect))
              && r.1.effect == MessageEffect(msgType, before.model, before.state.properties, name, payload, parse)
  {
    var (v1, found) := GetOrCreate(v, msgType, id, catalogue);
    match found
    case None => (v1, Discarded)
    case Some(d) =>
      var e := MessageEffect(msgType, d.model, d.state.properties, name, payload, parse);
      (v1.(devices := v1.devices[id := d.(state := ApplyEffect(d.state, e))]), Handled(e))
  }

  /**
   * The message handler: a routed message first records the device segment
   * as the address prefix of its key, then updates the device.
   */
  function Ingest(v: AdapterView, topic: string, message: string, parse: string -> Option<JsValue>,
                  catalogue: Model -> Catalogue): (r: (AdapterView, Outcome))
    ensures RouteOf(topic).None? ==> r == (v, Discarded)
    ensures RouteOf(topic).Some? ==>
              var rt := RouteOf(topic).value;
              r == Update(v.(prefixes := v.prefixes[rt.key := rt.segment]), rt.deviceType, rt.key, rt.property,
                          message, parse, catalogue)
    ensures v.prefixes.Keys <= r.0.prefixes.Keys && v.devices.Keys <= r.0.devices.Keys && v.added <= r.0.added
  {
    match RouteOf(topic)
    case None => (v, Discarded)
    case Some(rt) =>
      Update(v.(prefixes := v.prefixes[rt.key := rt.segment]), rt.deviceType, rt.key, rt.property,
                   message, parse, catalogue)
  }

  /** Messages handled one after the other. */
  function IngestAll(v: AdapterView, messages: seq<(string, string)>, parse: string -> Option<JsValue>,
                     catalogue: Model -> Catalogue): (r: AdapterView)
    ensures v.prefixes.Keys <= r.prefixes.Keys && v.devices.Keys <= r.devices.Keys
    ensures v.added <= r.added
    decreases |messages|
  {
    if messages == [] then v
    else IngestAll(Ingest(v, messages[0].0, messages[0].1, parse, catalogue).0, messages[1..], parse, catalogue)
  }

  /** A recorded prefix fills exactly one segment of a path. */
  predicate SegmentOk(segment: string) {
    segment != "" && '/' !in segment
  }

  /**
   * The registry's invariant: every device was announced to the host exactly
   * once, every device has an address prefix, every prefix is one
   * non-empty path segment, and a device's controller addresses its own key.
   */
  ghost predicate ViewValid(v: AdapterView) {
    && (forall i, j :: 0 <= i < j < |v.added| ==> v.added[i] != v.added[j])
    && (forall k :: k in v.devices <==> k in v.added)
    && v.devices.Keys <= v.prefixes.Keys
    && (forall k :: k in v.prefixes ==> SegmentOk(v.prefixes[k]))
    && (forall k :: k in v.devices && v.devices[k].controller.Some? ==> v.devices[k].controller.value.id == k)
  }

  /** Recording a well-formed prefix keeps the registry's invariant. */
  lemma PrefixKeepsValid(v: AdapterView, key: string, segment: string)
    requires ViewValid(v) && AddressOk(key, segment)
    ensures ViewValid(v.(prefixes := v.prefixes[key := segment]))
  {
  }

  /** Registering a new device under a key with a recorded prefix keeps the registry's invariant. */
  lemma RegisterKeepsValid(v: AdapterView, id: string, d: DeviceView)
    requires ViewValid(v) && id in v.prefixes && id !in v.devices
    requires d.controller.Some? ==> d.controller.value.id == id
    ensures ViewValid(v.(devices := v.devices[id := d], added := v.added + [id]))
  {
    assert id !in v.added;
    assert forall i :: 0 <= i < |v.added| ==> (v.added + [id])[i] == v.added[i];
  }

  /** Looking up or creating a device with a recorded prefix keeps the registry's invariant. */
  lemma GetOrCreateKeepsValid(v: AdapterView, msgType: string, id: string, catalogue: Model -> Catalogue)
    requires ViewValid(v) && id in v.prefixes
    ensures ViewValid(GetOrCreate(v, msgType, id, catalogue).0)
  {
    if id !in v.devices && ModelOf(msgType).Some? {
      RegisterKeepsValid(v, id, NewDevice(ModelOf(msgType).value, id, catalogue));
    }
  }

  /** Updating a device with a recorded prefix keeps the invariant and removes no device. */
  lemma UpdateKeepsValid(v: AdapterView, msgType: string, id: string, name: string, payload: string,
                         parse: string -> Option<JsValue>, catalogue: Model -> Catalogue)
    requires ViewValid(v) && id in v.prefixes
    ensures ViewValid(Update(v, msgType, id, name, payload, parse, catalogue).0)
    ensures v.devices.Keys <= Update(v, msgType, id, name, payload, parse, catalogue).0.devices.Keys
  {
    GetOrCreateKeepsValid(v, msgType, id, catalogue);
  }

  /** A device's state is not part of the registry's invariant. */
  lemma StateKeepsValid(v: AdapterView, id: string, state: DeviceState)
    requires ViewValid(v) && id in v.devices
    ensures ViewValid(v.(devices := v.devices[id := v.devices[id].(state := state)]))
  {
  }

  /** Handling a message keeps the registry's invariant, and no device is ever removed. */
  lemma IngestKeepsValid(v: AdapterView, topic: string, message: string, parse: string -> Option<JsValue>,
                         catalogue: Model -> Catalogue)
    requires ViewValid(v)
    ensures ViewValid(Ingest(v, topic, message, parse, catalogue).0)
    ensures v.devices.Keys <= Ingest(v, topic, message, parse, catalogue).0.devices.Keys
  {
    match RouteOf(topic)
    case None =>
    case Some(rt) =>
      PrefixKeepsValid(v, rt.key, rt.segment);
      UpdateKeepsValid(v.(prefixes := v.prefixes[rt.key := rt.segment]), rt.deviceType, rt.key, rt.property,
                       message, parse, catalogue);
  }

  /** Any run of messages keeps the invariant and only ever adds devices. */
  lemma {:induction false} IngestAllKeepsValid(v: AdapterView, messages: seq<(string, string)>,
                                               parse: string -> Option<JsValue>, catalogue: Model -> Catalogue)
    requires ViewValid(v)
    ensures ViewValid(IngestAll(v, messages, parse, catalogue))
    ensures v.devices.Keys <= IngestAll(v, messages, parse, catalogue).devices.Keys
    decreases |messages|
  {
    if messages != [] {
      var v1 := Ingest(v, messages[0].0, messages[0].1, parse, catalogue).0;
      IngestKeepsValid(v, messages[0].0, messages[0].1, parse, catalogue);
      IngestAllKeepsValid(v1, messages[1..], parse, catalogue);
    }
  }

  /** In a valid registry each device was announced to the host exactly once. */
  lemma AnnouncedOnce(v: AdapterView, key: string)
    requires ViewValid(v) && key in v.devices
    ensures exists i :: 0 <= i < |v.added| && v.added[i] == key
    ensures forall i, j :: 0 <= i < |v.added| && 0 <= j < |v.added| && v.added[i] == key && v.added[j] == key ==> i == j
  {
    assert key in v.added;
  }

  /**
   * `updateDevice` on the registry: a key that already has a device reuses
   * it whatever type is named; a first message for a known type creates
   * and announces one device; an unknown type creates nothing and the
   * message is discarded.
   */
  lemma UpdateRegistration(v: AdapterView, msgType: string, id: string, name: string, payload: string,
                           parse: string -> Option<JsValue>, catalogue: Model -> Catalogue)
    ensures var (w, r) := Update(v, msgType, id, name, payload, parse, catalogue);
      && w.prefixes == v.prefixes
      && (id in v.devices ==>
            && w.devices.Keys == v.devices.Keys && w.added == v.added
            && w.devices[id].model == v.devices[id].model
            && w.devices[id].controller == v.devices[id].controller)
      && (id !in v.devices && ModelOf(msgType).Some? ==>
            && w.devices.Keys == v.devices.Keys + {id} && w.added == v.added + [id]
            && w.devices[id].model == ModelOf(msgType).value)
      && (id !in v.devices && ModelOf(msgType).None? ==>
            w.devices == v.devices && w.added == v.added && r == Discarded)
  {
  }

  /**
   * Registry idempotence through the message handler: the prefix of the
   * routed key is recorded first, whatever happens to the device.
   */
  lemma Registration(v: AdapterView, topic: string, message: string, parse: string -> Option<JsValue>,
                     catalogue: Model -> Catalogue)
    requires RouteOf(topic).Some?
    ensures var rt := RouteOf(topic).value;
      var (w, r) := Ingest(v, topic, message, parse, catalogue);
      && w.prefixes == v.prefixes[rt.key := rt.segment]
      && (rt.key in v.devices ==> w.devices.Keys == v.devices.Keys && w.added == v.added)
      && (rt.key !in v.devices && ModelOf(rt.deviceType).Some? ==> w.added == v.added + [rt.key])
      && (rt.key !in v.devices && ModelOf(rt.deviceType).None? ==> w.devices == v.devices && r == Discarded)
  {
    var rt := RouteOf(topic).value;
    UpdateRegistration(v.(prefixes := v.prefixes[rt.key := rt.segment]), rt.deviceType, rt.key, rt.property,
                       message, parse, catalogue);
  }

  /** A message whose topic does not route changes nothing, not even the prefixes. */
  lemma UnroutedIgnored(v: AdapterView, topic: string, message: string, parse: string -> Option<JsValue>,
                        catalogue: Model -> Catalogue)
    requires RouteOf(topic).None?
    ensures Ingest(v, topic, message, parse, catalogue) == (v, Discarded)
  {
  }

  /**
   * Unrecognised topics are ignored: when the grammar gives no property
   * name, or an empty one, the message records no prefix, creates no device
   * and changes no state.
   */
  lemma UnnamedTopicIgnored(v: AdapterView, parts: seq<string>, message: string, parse: string -> Option<JsValue>,
                            catalogue: Model -> Catalogue)
    requires |parts| >= 1 && SeparatorFree(parts, '/')
    requires PropertyName(parts).None? || PropertyName(parts) == Some("")
    ensures Ingest(v, Join(parts, '/'), message, parse, catalogue) == (v, Discarded)
  {
    UnnamedTopicDropped(parts);
    UnroutedIgnored(v, Join(parts, '/'), message, parse, catalogue);
  }

  /**
   * `updateShelly`'s address resolution: the path `shellies/<prefix>/<subpath>`,
   * or an error for an id with no recorded (truthy) prefix.
   */
  function Address(prefixes: map<string, string>, id: string, subpath: string): (r: Result<string, string>)
    ensures r.Failure? <==> id !in prefixes || prefixes[id] == ""
  {
    if id in prefixes && prefixes[id] != "" then Success("shellies/" + prefixes[id] + "/" + subpath)
    else Failure("Unknown mqtt device " + id)
  }

  /**
   * A resolved path splits into the root, the device segment exactly as it
   * was received, and the subpath's own parts.
   */
  lemma AddressParts(v: AdapterView, id: string, subpath: string)
    requires ViewValid(v) && Address(v.prefixes, id, subpath).Success?
    ensures Split(Address(v.prefixes, id, subpath).value, '/') == ["shellies", v.prefixes[id]] + Split(subpath, '/')
  {
    var segment := v.prefixes[id];
    var path := "shellies/" + segment + "/" + subpath;
    assert path == "shellies" + ['/'] + (segment + ['/'] + subpath);
    assert '/' !in "shellies";
    SplitCons("shellies", '/', segment + ['/'] + subpath);
    SplitCons(segment, '/', subpath);
  }

  /** Every registered device can be addressed, and every device command resolves. */
  lemma DevicesAddressable(v: AdapterView, key: string, cmd: Command)
    requires ViewValid(v) && key in v.devices
    ensures Address(v.prefixes, key, "").Success?
    ensures v.devices[key].controller.Some? ==>
              var p := Encode(v.devices[key].controller.value, cmd);
              Address(v.prefixes, p.id, p.subpath) == Success("shellies/" + v.prefixes[key] + "/" + p.subpath)
  {
    if v.devices[key].controller.Some? {
      EncodeDecode(v.devices[key].controller.value, cmd);
    }
  }

  /** After a routed message, its key resolves to the device segment of that message. */
  lemma LatestSegmentAddressed(v: AdapterView, topic: string, message: string, subpath: string,
                               parse: string -> Option<JsValue>, catalogue: Model -> Catalogue)
    requires RouteOf(topic).Some?
    ensures var rt := RouteOf(topic).value;
      Address(Ingest(v, topic, message, parse, catalogue).0.prefixes, rt.key, subpath)
        == Success("shellies/" + rt.segment + "/" + subpath)
  {
  }

  function ViewOf(d: Device): DeviceView
    reads d
  {
    DeviceView(d.model, d.controller, d.State())
  }

  class MqttShellyAdapter {
    var foundDevices: map<string, Device>
    var prefixByDevice: map<string, string>
    /** The ids passed to `handleDeviceAdded`, oldest first. */
    var added: seq<string>
    const parseJson: string -> Option<JsValue>
    const catalogue: Model -> Catalogue

    ghost function View(): AdapterView
      reads this, foundDevices.Values
    {
      AdapterView(map k | k in foundDevices :: ViewOf(foundDevices[k]), prefixByDevice, added)
    }

    ghost predicate Valid()
      reads this, foundDevices.Values
    {
      && ViewValid(View())
      && (forall k :: k in foundDevices ==> foundDevices[k].id == k)
    }

    constructor (parseJson: string -> Option<JsValue>, catalogue: Model -> Catalogue)
      ensures Valid() && View() == AdapterView(map[], map[], [])
      ensures this.parseJson == parseJson && this.catalogue == catalogue
    {
      this.parseJson := parseJson;
      this.catalogue := catalogue;
      foundDevices := map[];
      prefixByDevice := map[];
      added := [];
    }

    /** `createDevice`. */
    method CreateDevice(msgType: string, id: string) returns (device: Device?)
      ensures device == null <==> ModelOf(msgType).None?
      ensures device != null ==>
                fresh(device) && device.id == id && ViewOf(device) == NewDevice(ModelOf(msgType).value, id, catalogue)
    {
      var model := ModelOf(msgType);
      if model.None? {
        return null;
      }
      device := new Device(id, model.value, catalogue(model.value),
                           if model.value == Shelly1L then Some(Controller(id)) else None);
    }

    /** Files a new device under `id` and announces it to the host. */
    method Register(id: string, device: Device)
      requires Valid() && id in prefixByDevice && id !in foundDevices
      requires device.id == id && (device.controller.Some? ==> device.controller.value.id == id)
      modifies this
      ensures Valid()
      ensures foundDevices == old(foundDevices)[id := device] && prefixByDevice == old(prefixByDevice)
      ensures View() == old(View()).(devices := old(View()).devices[id := ViewOf(device)], added := old(added) + [id])
    {
      ghost var v0 := View();
      RegisterKeepsValid(v0, id, ViewOf(device));
      foundDevices := foundDevices[id := device];
      added := added + [id];
      ghost var devices := v0.devices[id := ViewOf(device)];
      assert View().devices.Keys == devices.Keys;
      forall k | k in devices
        ensures View().devices[k] == devices[k]
      {
      }
      assert View().devices == devices;
    }

    /** `getOrCreateDevice`: returns the very object stored for `id` when there is one. */
    method GetOrCreateDevice(msgType: string, id: string) returns (device: Device?)
      requires Valid() && id in prefixByDevice
      modifies this
      ensures Valid()
      ensures (View(), if device == null then None else Some(ViewOf(device)))
              == GetOrCreate(old(View()), msgType, id, catalogue)
      ensures id in old(foundDevices) ==> device == old(foundDevices[id])
      ensures id !in old(foundDevices) && device != null ==> fresh(device)
      ensures device != null ==> id in foundDevices && foundDevices[id] == device
      ensures forall k :: k in old(foundDevices) ==> k in foundDevices && foundDevices[k] == old(foundDevices[k])
      ensures prefixByDevice == old(prefixByDevice)
    {
      if id in foundDevices {
        device := foundDevices[id];
        return;
      }
      device := CreateDevice(msgType, id);
      if device != null {
        Register(id, device);
      }
    }

    /** Applies an effect to the registered device under `id`; no other device changes. */
    method ApplyToDevice(id: string, e: Effect)
      requires Valid() && id in foundDevices
      modifies foundDevices[id]
      ensures Valid()
      ensures View() == old(View()).(devices := old(View()).devices[id := ViewOf(foundDevices[id])])
      ensures ViewOf(foundDevices[id]) == old(View()).devices[id].(state := ApplyEffect(old(View()).devices[id].state, e))
    {
      ghost var v0 := View();
      var device := foundDevices[id];
      device.Apply(e);
      ghost var devices := v0.devices[id := ViewOf(device)];
      assert View().devices.Keys == devices.Keys;
      forall k | k in devices
        ensures View().devices[k] == devices[k]
      {
        if k != id {
          assert foundDevices[k].id == k;
        }
      }
      assert View().devices == devices;
      StateKeepsValid(v0, id, device.State());
    }

    /** `updateDevice`. */
    method UpdateDevice(msgType: string, id: string, name: string, value: string) returns (r: Outcome)
      requires Valid() && id in prefixByDevice
      modifies this, foundDevices.Values
      ensures Valid()
      ensures (View(), r) == Update(old(View()), msgType, id, name, value, parseJson, catalogue)
    {
      var device := GetOrCreateDevice(msgType, id);
      if device == null {
        return Discarded;
      }
      var e := MessageEffect(msgType, device.model, device.properties, name, value, parseJson);
      ApplyToDevice(id, e);
      r := Handled(e);
    }

    /** `mqttPrefixByDevice[key] = segment`. */
    method RecordPrefix(key: string, segment: string)
      requires Valid() && AddressOk(key, segment)
      modifies this
      ensures Valid()
      ensures View() == old(View()).(prefixes := old(prefixByDevice)[key := segment])
      ensures foundDevices == old(foundDevices)
    {
      ghost var v0 := View();
      PrefixKeepsValid(v0, key, segment);
      prefixByDevice := prefixByDevice[key := segment];
      assert View().devices == v0.devices;
    }

    /** The `message` handler: route the topic, record the prefix, update the device. */
    method HandleMessage(topic: string, message: string) returns (r: Outcome)
      requires Valid()
      modifies this, foundDevices.Values
      ensures Valid()
      ensures (View(), r) == Ingest(old(View()), topic, message, parseJson, catalogue)
    {
      var route := RouteOf(topic);
      if route.None? {
        return Discarded;
      }
      var rt := route.value;
      RecordPrefix(rt.key, rt.segment);
      r := UpdateDevice(rt.deviceType, rt.key, rt.property, message);
    }

    /** `updateShelly` up to the publish: the target path and payload, or the unknown-device error. */
    method UpdateShelly(id: string, subpath: string, value: string) returns (r: Result<(string, string), string>)
      ensures r.Success? <==> Address(prefixByDevice, id, subpath).Success?
      ensures r.Success? ==> r.value == (Address(prefixByDevice, id, subpath).value, value)
    {
      var mqttDevicePrefix := if id in prefixByDevice then prefixByDevice[id] else "";
      if mqttDevicePrefix == "" {
        return Failure("Unknown mqtt device " + id);
      }
      r := Success(("shellies/" + mqttDevicePrefix + "/" + subpath, value));
    }
  }
}
