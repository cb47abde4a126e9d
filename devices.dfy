/**
 * The devices the MQTT adapter creates. The shared base class
 * (`src/devices/shelly-device.ts`), `ShellyHT`, `ShellyDoorWindow2`,
 * `ShellyHTPlus`, `OverheatableDevice` and the relay and power-meter
 * helpers are not part of this model: what they contribute is an opaque
 * `Catalogue` of properties and events. `Shelly1L` is modelled in full on
 * top of its catalogue, including its `findProperty` alias.
 */
module Devices {
  import opened Wrappers
  import opened JsValues
  import opened Properties
  import opened MqttController

  /** The device classes the adapter can instantiate. */
  datatype Model = ShellyHT | Shelly1L | ShellyDoorWindow2 | ShellyHTPlus

  /** `createDevice`'s switch on the device type. */
  function ModelOf(deviceType: string): (m: Option<Model>)
    ensures m.Some? <==> deviceType in {"shellyht", "shelly1l", "shellydw2", "shellyplusht"}
  {
    if deviceType == "shellyht" then Some(ShellyHT)
    else if deviceType == "shelly1l" then Some(Shelly1L)
    else if deviceType == "shellydw2" then Some(ShellyDoorWindow2)
    else if deviceType == "shellyplusht" then Some(ShellyHTPlus)
    else None
  }

  /** The type string each model is created for. */
  function TypeName(m: Model): string {
    match m
    case ShellyHT => "shellyht"
    case Shelly1L => "shelly1l"
    case ShellyDoorWindow2 => "shellydw2"
    case ShellyHTPlus => "shellyplusht"
  }

  /** Each model is created for exactly one type string. */
  lemma ModelOfTypeName(m: Model, deviceType: string)
    ensures ModelOf(TypeName(m)) == Some(m)
    ensures ModelOf(deviceType).Some? ==> TypeName(ModelOf(deviceType).value) == deviceType
  {
  }

  /** What the classes outside this model contribute to a new device. */
  datatype Catalogue = Catalogue(properties: map<string, Property>, events: set<string>)

  /**
   * The observable state of a device: its properties with their cached
   * values, its declared events, the events it has emitted and the
   * connectivity values it has been notified of, oldest first.
   */
  datatype DeviceState = DeviceState(
    properties: map<string, Property>,
    events: set<string>,
    emitted: seq<string>,
    connectivity: seq<bool>)

  const SHELLY_1L_EVENTS: set<string> := {"input0Press", "input0LongPress", "input1Press", "input1LongPress"}

  /** A device right after construction. */
  function InitialState(model: Model, base: Catalogue): (s: DeviceState)
    ensures s.emitted == [] && s.connectivity == []
    ensures base.properties.Keys <= s.properties.Keys && base.events <= s.events
    ensures model != Shelly1L ==> s.properties == base.properties && s.events == base.events
  {
    if model == Shelly1L then
      DeviceState(base.properties["input0" := ButtonProperty()]["input1" := ButtonProperty()],
                  base.events + SHELLY_1L_EVENTS, [], [])
    else
      DeviceState(base.properties, base.events, [], [])
  }

  /**
   * A new `Shelly1L` has read-only boolean buttons `input0` and `input1`,
   * declares the four press events on top of its catalogue's, and keeps
   * every other catalogue property as it was.
   */
  lemma Shelly1LCatalogue(base: Catalogue)
    ensures var s := InitialState(Shelly1L, base);
      && "input0" in s.properties && "input1" in s.properties
      && s.properties["input0"] == ButtonProperty() && s.properties["input1"] == ButtonProperty()
      && DescriptionOf(s.properties["input0"].kind) == Description(BooleanType, true)
      && s.events == base.events + SHELLY_1L_EVENTS
      && s.properties.Keys == base.properties.Keys + {"input0", "input1"}
      && (forall k :: k in base.properties && k !in {"input0", "input1"} ==> s.properties[k] == base.properties[k])
      && s.emitted == [] && s.connectivity == []
  {
  }

  /**
   * `findProperty(name)`: the key of the property the name resolves to.
   * A `Shelly1L` falls back from `temperature` to `internalTemperature`.
   */
  function FindProperty(model: Model, properties: map<string, Property>, name: string): (r: Option<string>)
    ensures r.Some? ==> r.value in properties
    ensures name in properties ==> r == Some(name)
    ensures r.Some? && r.value != name ==>
              model == Shelly1L && name == "temperature" && r.value == "internalTemperature"
    ensures r.None? <==>
              name !in properties && !(model == Shelly1L && name == "temperature" && "internalTemperature" in properties)
  {
    if name in properties then Some(name)
    else if model == Shelly1L && name == "temperature" && "internalTemperature" in properties then Some("internalTemperature")
    else None
  }

  /** What one inbound message does to a device. */
  datatype Effect =
    | Emit(event: string)              // eventNotify
    | Ignore                           // an input event that carries no press
    | Connect(connected: bool)         // connectedNotify
    | Store(key: string, value: JsValue) // setCachedValueAndNotify on the property under key
    | Unmatched                        // no property of that name
    | Throw                            // JSON.parse or a property access threw

  /** The device state after an effect; nothing but the named part changes. */
  function ApplyEffect(s: DeviceState, e: Effect): (r: DeviceState)
    ensures r.events == s.events && r.properties.Keys == s.properties.Keys
    ensures r.emitted == s.emitted + (if e.Emit? then [e.event] else [])
    ensures r.connectivity == s.connectivity + (if e.Connect? then [e.connected] else [])
    ensures forall k :: k in s.properties && !(e.Store? && e.key == k) ==> r.properties[k] == s.properties[k]
    ensures e.Store? && e.key in s.properties ==>
              r.properties[e.key] == SetCachedValue(s.properties[e.key], e.value)
  {
    match e
    case Emit(event) => s.(emitted := s.emitted + [event])
    case Connect(b) => s.(connectivity := s.connectivity + [b])
    case Store(k, v) =>
      if k in s.properties then s.(properties := s.properties[k := SetCachedValue(s.properties[k], v)]) else s
    case _ => s
  }

  /** A device object held by the adapter's registry. */
  class Device {
    const id: string
    const model: Model
    /** The controller a `Shelly1L` is built with; the other models get none. */
    const controller: Option<Controller>
    /**
     * Channels the `Shelly1L` constructor requests from the relay and
     * power-meter helpers; 0 for the models whose constructors are outside
     * this model.
     */
    const relayChannels: nat
    const powerMeterChannels: nat
    var properties: map<string, Property>
    var events: set<string>
    var emitted: seq<string>
    var connectivity: seq<bool>

    function State(): DeviceState
      reads this
    {
      DeviceState(properties, events, emitted, connectivity)
    }

    constructor (id: string, model: Model, base: Catalogue, controller: Option<Controller>)
      ensures this.id == id && this.model == model && this.controller == controller
      ensures State() == InitialState(model, base)
      ensures model == Shelly1L ==> relayChannels == 1 && powerMeterChannels == 1
    {
      this.id := id;
      this.model := model;
      this.controller := controller;
      if model == Shelly1L {
        relayChannels, powerMeterChannels := 1, 1;
      } else {
        relayChannels, powerMeterChannels := 0, 0;
      }
      properties := base.properties;
      events := base.events;
      emitted := [];
      connectivity := [];
      new;
      if model == Shelly1L {
        AddProperty("input0", ButtonProperty());
        AddEvent("input0Press");
        AddEvent("input0LongPress");
        AddProperty("input1", ButtonProperty());
        AddEvent("input1Press");
        AddEvent("input1LongPress");
      }
    }

    /** `addProperty`: a property of the same name is replaced. */
    method AddProperty(name: string, p: Property)
      modifies this
      ensures properties == old(properties)[name := p]
      ensures events == old(events) && emitted == old(emitted) && connectivity == old(connectivity)
    {
      properties := properties[name := p];
    }

    /** `addEvent`. */
    method AddEvent(name: string)
      modifies this
      ensures events == old(events) + {name}
      ensures properties == old(properties) && emitted == old(emitted) && connectivity == old(connectivity)
    {
      events := events + {name};
    }

    /** Carries out one effect of an inbound message. */
    method Apply(e: Effect)
      modifies this
      ensures State() == ApplyEffect(old(State()), e)
    {
      match e
      case Emit(event) =>
        emitted := emitted + [event];
      case Connect(b) =>
        connectivity := connectivity + [b];
      case Store(k, v) =>
        if k in properties {
          properties := properties[k := SetCachedValue(properties[k], v)];
        }
      case _ =>
    }
  }
}
