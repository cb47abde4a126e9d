/**
 * `ShellyDevice` (the gateway device built over a `shellies` library
 * object): its constructor's mode dispatch, the relay probe loop, the
 * roller actions, the optional temperature and power properties, action
 * callbacks and the change-event handler.
 *
 * The library object is a bag of fields read by name. The property
 * classes it creates (`SwitchProperty`, `TemperatureProperty`,
 * `PowerProperty`) are not part of this model; each is recorded by its
 * kind, and a switch by the relay channel its setter writes.
 */
module ShellyLib {
  import opened Wrappers
  import opened Strings
  import opened JsValues

  /** A `shellies` device: its id and the fields the constructor reads. */
  datatype Shelly = Shelly(id: string, fields: map<string, JsValue>)

  /** `device[name]`; an absent field reads as `undefined`. */
  function Field(d: Shelly, name: string): JsValue {
    if name in d.fields then d.fields[name] else Undefined
  }

  datatype Mode = RelayMode | RollerMode | UnknownMode

  /** The constructor's dispatch: a missing or falsy mode means relay mode. */
  function ModeOf(d: Shelly): (m: Mode)
    ensures !Truthy(Field(d, "mode")) ==> m == RelayMode
    ensures Field(d, "mode") == Str("relay") ==> m == RelayMode
    ensures Field(d, "mode") == Str("roller") ==> m == RollerMode
    ensures m == UnknownMode <==>
              Truthy(Field(d, "mode")) && Field(d, "mode") != Str("relay") && Field(d, "mode") != Str("roller")
  {
    var mode := Field(d, "mode");
    if !Truthy(mode) then RelayMode
    else if mode == Str("relay") then RelayMode
    else if mode == Str("roller") then RollerMode
    else UnknownMode
  }

  /** The library calls a gateway device can make. */
  datatype LibCommand = SetRelay(index: nat, value: bool) | SetRollerState(state: string)

  /** What each created property is: a switch bound to a relay channel, or a sensor. */
  datatype LibKind = Switch(channel: nat) | InternalTemperature | Power

  datatype LibProperty = LibProperty(kind: LibKind, value: JsValue)

  /** A property as its class constructs it, before any value arrives. */
  function NewProperty(kind: LibKind): LibProperty {
    LibProperty(kind, Undefined)
  }

  /** The property name probed for relay channel `i`. */
  function RelayName(i: nat): string {
    "relay" + NatToString(i)
  }

  /** Distinct channels probe distinct names, none of them a sensor's. */
  lemma RelayNamesDistinct(i: nat, j: nat)
    ensures RelayName(i) == RelayName(j) ==> i == j
    ensures RelayName(i) != "internalTemperature" && RelayName(i) != "power"
  {
    if RelayName(i) == RelayName(j) {
      assert NatToString(i) == RelayName(i)[5..] && NatToString(j) == RelayName(j)[5..];
      NatToStringInjective(i, j);
    }
    assert RelayName(i)[0] == 'r';
  }

  /** The switches the probe loop creates for the channels below `n`. */
  function RelayProperties(d: Shelly, n: nat): map<string, LibProperty>
    requires n <= 4
  {
    if n == 0 then map[]
    else
      var name := RelayName(n - 1);
      var earlier := RelayProperties(d, n - 1);
      if Defined(Field(d, name)) then earlier[name := NewProperty(Switch(n - 1))] else earlier
  }

  /**
   * The probe is exact: channel `i` gets a switch, bound to channel `i`,
   * precisely when `i` is below `n` and `relay<i>` is defined on the device;
   * no other name is created.
   */
  lemma {:induction false} RelayPropertiesExact(d: Shelly, n: nat)
    requires n <= 4
    ensures forall i: nat :: RelayName(i) in RelayProperties(d, n) <==> i < n && Defined(Field(d, RelayName(i)))
    ensures forall i: nat :: RelayName(i) in RelayProperties(d, n) ==>
              RelayProperties(d, n)[RelayName(i)] == NewProperty(Switch(i))
    ensures forall k :: k in RelayProperties(d, n) ==> exists i: nat :: i < n && k == RelayName(i)
  {
    if n > 0 {
      RelayPropertiesExact(d, n - 1);
      forall i: nat
        ensures RelayName(i) == RelayName(n - 1) ==> i == n - 1
      {
        RelayNamesDistinct(i, n - 1);
      }
    }
  }

  /** The properties a new `ShellyDevice` ends up with. */
  function ExpectedProperties(d: Shelly): map<string, LibProperty> {
    var byMode := if ModeOf(d) == RelayMode then RelayProperties(d, 4) else map[];
    var withTemperature :=
      if Truthy(Field(d, "internalTemperature")) then byMode["internalTemperature" := NewProperty(InternalTemperature)]
      else byMode;
    if Defined(Field(d, "powerMeter0")) then withTemperature["power" := NewProperty(Power)] else withTemperature
  }

  const ROLLER_ACTIONS: set<string> := {"open", "stop", "close"}

  /** The action callbacks a new `ShellyDevice` ends up with. */
  function ExpectedCallbacks(d: Shelly): map<string, LibCommand> {
    if ModeOf(d) == RollerMode then
      map["open" := SetRollerState("open"), "stop" := SetRollerState("stop"), "close" := SetRollerState("close")]
    else map[]
  }

  /**
   * Relay probe: a new device has a switch `relay<i>` exactly in relay mode,
   * for `i` in 0..3 with `relay<i>` defined on the library object; writing
   * that switch sets relay `i`.
   */
  lemma RelayProbe(d: Shelly, i: nat, value: bool)
    ensures RelayName(i) in ExpectedProperties(d) <==>
              ModeOf(d) == RelayMode && i < 4 && Defined(Field(d, RelayName(i)))
    ensures RelayName(i) in ExpectedProperties(d) ==>
              SwitchWrite(ExpectedProperties(d)[RelayName(i)], value) == Some(SetRelay(i, value))
  {
    RelayPropertiesExact(d, 4);
    RelayNamesDistinct(i, i);
  }

  /** Every property of a new device is a probed switch or one of the two optional sensors. */
  lemma PropertiesAccountedFor(d: Shelly, k: string)
    requires k in ExpectedProperties(d)
    ensures k == "internalTemperature" || k == "power" || exists i: nat :: i < 4 && k == RelayName(i)
  {
    RelayPropertiesExact(d, 4);
  }

  /**
   * The optional sensors are independent of the mode: `internalTemperature`
   * exactly when that field is truthy, `power` exactly when `powerMeter0`
   * is defined.
   */
  lemma OptionalProperties(d: Shelly)
    ensures "internalTemperature" in ExpectedProperties(d) <==> Truthy(Field(d, "internalTemperature"))
    ensures "power" in ExpectedProperties(d) <==> Defined(Field(d, "powerMeter0"))
    ensures "power" in ExpectedProperties(d) ==> ExpectedProperties(d)["power"].kind == Power
  {
    RelayPropertiesExact(d, 4);
    RelayNamesDistinct(0, 0);
    forall i: nat ensures RelayName(i) != "internalTemperature" && RelayName(i) != "power" {
      RelayNamesDistinct(i, i);
    }
  }

  /**
   * Roller mode registers exactly `open`, `stop` and `close`, each setting
   * the roller state to its own name, and creates no switch; relay and
   * unknown modes register no action, and an unknown mode creates no switch.
   */
  lemma ModeOutcomes(d: Shelly, i: nat)
    ensures ModeOf(d) == RollerMode ==>
              ExpectedCallbacks(d).Keys == ROLLER_ACTIONS
              && (forall a :: a in ExpectedCallbacks(d) ==> ExpectedCallbacks(d)[a] == SetRollerState(a))
    ensures ModeOf(d) != RollerMode ==> ExpectedCallbacks(d) == map[]
    ensures ModeOf(d) != RelayMode ==> RelayName(i) !in ExpectedProperties(d)
  {
    RelayNamesDistinct(i, i);
  }

  /** What writing a switch asks of the library; sensors take no writes. */
  function SwitchWrite(p: LibProperty, value: bool): (c: Option<LibCommand>)
    ensures c.Some? <==> p.kind.Switch?
  {
    match p.kind
    case Switch(channel) => Some(SetRelay(channel, value))
    case _ => None
  }

  /** One step of `performAction`. */
  datatype ActionStep = Start | Run(command: LibCommand) | Finish

  class ShellyDevice {
    const device: Shelly
    var properties: map<string, LibProperty>
    /** The `callbacks` dictionary. */
    var callbacks: map<string, LibCommand>
    /** The actions announced with `addAction`. */
    var actions: set<string>

    constructor (device: Shelly)
      ensures this.device == device
      ensures properties == ExpectedProperties(device)
      ensures callbacks == ExpectedCallbacks(device) && actions == callbacks.Keys
    {
      this.device := device;
      properties := map[];
      callbacks := map[];
      actions := {};
      new;
      var mode := Field(device, "mode");
      if Truthy(mode) {
        if mode == Str("relay") {
          ConfigureRelayMode();
        } else if mode == Str("roller") {
          ConfigureRollerMode();
        }
      } else {
        ConfigureRelayMode();
      }
      assert properties == (if ModeOf(device) == RelayMode then RelayProperties(device, 4) else map[]);
      assert callbacks == ExpectedCallbacks(device);
      if Truthy(Field(device, "internalTemperature")) {
        properties := properties["internalTemperature" := NewProperty(InternalTemperature)];
      }
      if Defined(Field(device, "powerMeter0")) {
        properties := properties["power" := NewProperty(Power)];
      }
    }

    /** `configureRelayMode`: probes `relay0` to `relay3` and adds a switch for each one defined. */
    method ConfigureRelayMode()
      modifies this
      ensures properties == old(properties) + RelayProperties(device, 4)
      ensures callbacks == old(callbacks) && actions == old(actions)
    {
      var i := 0;
      while i < 4
        invariant 0 <= i <= 4
        invariant properties == old(properties) + RelayProperties(device, i)
        invariant callbacks == old(callbacks) && actions == old(actions)
      {
        var property := RelayName(i);
        if Defined(Field(device, property)) {
          properties := properties[property := NewProperty(Switch(i))];
        }
        i := i + 1;
      }
    }

    /** `configureRollerMode`: the actions `open`, `stop` and `close`. */
    method ConfigureRollerMode()
      modifies this
      ensures callbacks == old(callbacks)["open" := SetRollerState("open")]["stop" := SetRollerState("stop")]
                                          ["close" := SetRollerState("close")]
      ensures actions == old(actions) + ROLLER_ACTIONS
      ensures properties == old(properties)
    {
      AddCallbackAction("open", SetRollerState("open"));
      AddCallbackAction("stop", SetRollerState("stop"));
      AddCallbackAction("close", SetRollerState("close"));
    }

    /** `addCallbackAction`: a callback of the same name is replaced. */
    method AddCallbackAction(name: string, callback: LibCommand)
      modifies this
      ensures actions == old(actions) + {name}
      ensures callbacks == old(callbacks)[name := callback]
      ensures properties == old(properties)
    {
      actions := actions + {name};
      callbacks := callbacks[name := callback];
    }

    /** `performAction`: start, the registered callback if any, finish. */
    method PerformAction(name: string) returns (trace: seq<ActionStep>)
      ensures |trace| >= 2 && trace[0] == Start && trace[|trace| - 1] == Finish
      ensures name in callbacks <==> |trace| == 3
      ensures name in callbacks ==> trace[1] == Run(callbacks[name])
      ensures forall c :: Run(c) in trace ==> name in callbacks && c == callbacks[name]
    {
      trace := [Start];
      if name in callbacks {
        trace := trace + [Run(callbacks[name])];
      }
      trace := trace + [Finish];
    }

    /** The library's `change` event: only the property of that name takes the new value. */
    method OnChange(prop: string, newValue: JsValue)
      modifies this
      ensures prop in old(properties) ==> properties == old(properties)[prop := old(properties)[prop].(value := newValue)]
      ensures prop !in old(properties) ==> properties == old(properties)
      ensures callbacks == old(callbacks) && actions == old(actions)
    {
      if prop in properties {
        properties := properties[prop := properties[prop].(value := newValue)];
      }
    }
  }
}
