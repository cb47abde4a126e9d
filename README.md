# Shelly MQTT adapter — a Dafny model

This project models the translation layer of the Shelly gateway add-on
between Shelly MQTT topics and gateway devices:

- the inbound pipeline of `MqttShellyAdapter`: the topic
  `shellies/<type>-<id>/<segments…>` is split on `/`, the device segment is
  split at its last `-`, the remaining segments are mapped to a property
  name by a grammar on the number of parts, the device segment is recorded
  as the address prefix of `shelly-mqtt-<id>`, the device is looked up or
  created in a keyed registry, and the payload is decoded (input events,
  the boolean allow-list, the `shellyplusht` JSON envelopes and the
  `online` signal) into one effect on the device;
- `updateShelly`'s address resolution, `shellies/<prefix>/<subpath>` or an
  error for an unknown id;
- the command encoder `MQTTShellyController` and a decoder for its output;
- the `ShellyDevice` built over a `shellies` library object: mode dispatch,
  the relay probe loop, the roller actions, the optional temperature and
  power properties, action callbacks and the change handler;
- `Shelly1L`'s property and event catalogue and its `findProperty` alias;
- `ButtonProperty`'s declaration and its strict value conversion.

Modules, lowest first: `Wrappers` (`Option`, `Result`), `Strings` (the
JavaScript string operations the code uses, `lastIndexOf`, `split`,
`startsWith`, one-character `replace` and decimal rendering, together with
the helpers their proofs need: a forward search, `Join` as the partner of
`Split`, a suffix test and decimal reading), `JsValues` (JavaScript values, property
access that throws on `null`/`undefined`, truthiness, `!= undefined`,
`< 1`), `Topics`, `MqttController`, `Properties`, `Devices`, `Ingress`
(the adapter) and `ShellyLib` (`src/shelly-device.ts`).

The adapter is specified twice: pure functions on an `AdapterView`
(`GetOrCreate`, `Update`, `Ingest`, `Address`) carry the lemmas, and the
class `Ingress.MqttShellyAdapter`, which keeps the source's two records
and its device objects, is proved to follow them message by message
(`HandleMessage` ensures its new view and outcome are `Ingest` of the old
view). The registry invariant `ViewValid` (each device announced once,
each device has a prefix, each prefix is one non-empty path segment, each
controller addresses its own key) is kept by every message.

`JSON.parse` is a constructor parameter of the adapter,
`parseJson: string -> Option<JsValue>`, whose `None` stands for a thrown
`SyntaxError`. An exception the source does not catch is the effect
`Throw`: nothing more happens to the device, while the prefix write and a
device creation made before it stay.

## Model

| member | source | states |
|---|---|---|
| Strings.LastIndexOf | src/mqtt/mqtt-shelly-adapter.ts:60 | the result is -1 exactly when the character is absent; otherwise it is a position holding the character with none after it |
| Strings.Split | src/mqtt/mqtt-shelly-adapter.ts:56 | a split has at least one piece and no piece holds the separator |
| Strings.SplitJoin | src/mqtt/mqtt-shelly-adapter.ts:56 | splitting separator-free parts joined by `/` gives back exactly those parts |
| Strings.JoinSplit | src/mqtt/mqtt-shelly-adapter.ts:56 | joining the pieces of a split with the separator rebuilds the string |
| Strings.RemoveFirst | src/mqtt/mqtt-shelly-adapter.ts:129 | a string without the character is unchanged; otherwise exactly one character is removed |
| Strings.RemoveFirstAt | src/mqtt/mqtt-shelly-adapter.ts:129 | `replace(':', '')` drops only the first `:`; text after it is kept verbatim |
| Strings.ParseIntToString | src/mqtt/mqtt-shelly-controller.ts:20 | an integer rendered in decimal reads back as the same integer |
| JsValues.Member | src/mqtt/mqtt-shelly-adapter.ts:153-176 | a property access throws exactly on `null` and `undefined`; on an object it reads the field, or `undefined` when absent |
| JsValues.LessThanOne | src/mqtt/mqtt-shelly-adapter.ts:153 | a number compares with 1 numerically, `false` and `null` and `""` are below 1, `true` is not, and `undefined` or an object is never below 1 |
| Topics.PropertyName | src/mqtt/mqtt-shelly-adapter.ts:96-145 | a name is produced only for 3 to 5 parts; 3 parts give `parts[2]` verbatim; a 5-part name is `powerMeter<parts[3]>` |
| Topics.FivePartTopics | src/mqtt/mqtt-shelly-adapter.ts:98-111 | five parts give a name exactly when `parts[2]` is `relay` and `parts[4]` is `power` |
| Topics.FourPartTopics | src/mqtt/mqtt-shelly-adapter.ts:113-134 | relay/input/input_event concatenate kind and index; sensor maps `lux` to `illuminance`; status maps `devicepower:0` to `battery` and otherwise drops the first `:`; any other kind gives none |
| Topics.StatusDropsFirstColon | src/mqtt/mqtt-shelly-adapter.ts:125-129 | a status key `a:b` with no `:` in `a` becomes `ab`, later colons kept |
| Topics.RootIgnored | src/mqtt/mqtt-shelly-adapter.ts:96-145 | replacing the root segment never changes the property name |
| Topics.SplitDevice | src/mqtt/mqtt-shelly-adapter.ts:59-64 | a split yields a non-empty type and a dash-free id that rebuild the segment as `type-id` |
| Topics.SplitDeviceDefined | src/mqtt/mqtt-shelly-adapter.ts:59-62 | a segment is processed exactly when it has a `-` after its first character |
| Topics.SplitDeviceRoundTrip | src/mqtt/mqtt-shelly-adapter.ts:60-64 | a non-empty type, `-` and a dash-free id split back into that type and id |
| Topics.RouteOf | src/mqtt/mqtt-shelly-adapter.ts:56-71 | a routed message has a non-empty property name, its type is the text before the last `-`, and its key is `shelly-mqtt-<id>` for the id after it |
| Topics.RouteOfParts | src/mqtt/mqtt-shelly-adapter.ts:56-71 | a topic built from separator-free parts with segment `type-id` routes to type, key `shelly-mqtt-<id>`, that segment and the grammar's name |
| Topics.UnnamedTopicDropped | src/mqtt/mqtt-shelly-adapter.ts:56-69 | a topic whose parts the grammar gives no name or the empty name is dropped, whatever its device segment |
| Topics.UndelimitedDeviceDropped | src/mqtt/mqtt-shelly-adapter.ts:59-62 | a topic whose device segment has no `-` after position 0 is dropped |
| MqttController.SetRollerState | src/mqtt/mqtt-shelly-controller.ts:14-17 | the state goes verbatim to `roller/0/command` for the controller's id; the duration plays no part |
| MqttController.SetRollerPosition | src/mqtt/mqtt-shelly-controller.ts:19-21 | the payload to `roller/0/command/pos` reads back as the position |
| MqttController.SetRelay | src/mqtt/mqtt-shelly-controller.ts:30-32 | the subpath is `relay/<i>/command` with `<i>` reading back as the index; the payload is `on` exactly when the value is true, else `off` |
| MqttController.WhitePayload | src/mqtt/mqtt-shelly-controller.ts:35-38 | the payload is `{"brightness":` then the decimal brightness then `,"turn":true}` or `,"turn":false}` as `on` says |
| MqttController.SetWhite | src/mqtt/mqtt-shelly-controller.ts:34-39 | the payload to `white/0/set` is the JSON object that reads back as brightness and turn |
| MqttController.ParseWhiteRoundTrip | src/mqtt/mqtt-shelly-controller.ts:35-38 | `{"brightness":b,"turn":on}` with keys in that order reads back as `(b, on)` |
| MqttController.On | src/mqtt/mqtt-shelly-controller.ts:23-28 | the listener is called once with `(type, null, null)` for every type but `change`, and never for `change` |
| MqttController.Encode | src/mqtt/mqtt-shelly-controller.ts:14-39 | every command is published for the controller's own id, a roller state verbatim to `roller/0/command`, a position to `roller/0/command/pos`, a relay to `relay/…/command`, a white level to `white/0/set` |
| MqttController.EncodeDecode | src/mqtt/mqtt-shelly-controller.ts:9-39 | every command is sent for the id fixed at construction, and its subpath and payload decode back to the command |
| MqttController.EncodeInjective | src/mqtt/mqtt-shelly-controller.ts:14-39 | two commands that publish the same pair are the same command |
| Properties.ButtonProperty | src/properties/button-property.ts:10-17 | a button is declared boolean and read-only |
| Properties.Converted | src/properties/button-property.ts:19-21 | a button stores a boolean that is true exactly for the number 1; other properties store the value given |
| Properties.SetCachedValue | src/properties/button-property.ts:19-22 | caching keeps the property's kind and stores the converted value |
| Properties.ButtonIsStrict | src/properties/button-property.ts:20 | the number 1 is cached as true, the string `1` and the boolean true as false |
| Properties.ButtonCachesBoolean | src/properties/button-property.ts:19-22 | a button's cached value is always a boolean, and only the last write counts |
| Devices.ModelOf | src/mqtt/mqtt-shelly-adapter.ts:211-226 | a device class exists exactly for `shellyht`, `shelly1l`, `shellydw2` and `shellyplusht` |
| Devices.ModelOfTypeName | src/mqtt/mqtt-shelly-adapter.ts:211-226 | each device class is created for exactly one type string |
| Devices.InitialState | src/devices/shelly-1l-relay.ts:14-33 | a new device has emitted nothing and reported no connectivity, keeps every catalogue property and event, and only a `Shelly1L` adds to them |
| Devices.Shelly1LCatalogue | src/devices/shelly-1l-relay.ts:14-33 | a new `Shelly1L` adds read-only boolean buttons `input0` and `input1` and the four press events to its catalogue, and nothing else changes |
| Devices.FindProperty | src/devices/shelly-1l-relay.ts:35-47 | an existing name resolves to itself; otherwise only a `Shelly1L` resolves `temperature` to `internalTemperature`; anything else is not found |
| Devices.ApplyEffect | src/mqtt/mqtt-shelly-adapter.ts:150-189 | an effect changes only its own part: an event is appended, a connectivity value is appended, or one property's cached value is set |
| Devices.Device.constructor | src/devices/shelly-1l-relay.ts:14-33 | a new device has its catalogue plus, for a `Shelly1L`, the buttons and events, and requests one relay and one power-meter channel |
| Devices.Device.AddProperty | src/devices/shelly-1l-relay.ts:19 | adding a property replaces one of the same name and changes nothing else |
| Devices.Device.AddEvent | src/devices/shelly-1l-relay.ts:20-22 | adding an event changes nothing but the event set |
| Devices.Device.Apply | src/mqtt/mqtt-shelly-adapter.ts:150-189 | the device's new state is `ApplyEffect` of its old state |
| Ingress.CharAt | src/mqtt/mqtt-shelly-adapter.ts:156 | `${name[11]}` is the one character at index 11, or the text `undefined` past the end of the name |
| Ingress.EventName | src/mqtt/mqtt-shelly-adapter.ts:156 | the event is `input`, the character at index 11, then `Press` exactly for code `S` and `LongPress` for any other code |
| Ingress.InputEvent | src/mqtt/mqtt-shelly-adapter.ts:151-159 | an input event throws, does nothing, or emits one event; it never stores |
| Ingress.Envelope | src/mqtt/mqtt-shelly-adapter.ts:167-177 | a non-JSON or `null` payload throws; `temperature0` reads `tC`, `humidity0` reads `rh` and `battery` reads `battery.percent`, throwing exactly when `battery` is missing or `null`; an absent field reads `undefined` |
| Ingress.MessageEffect | src/mqtt/mqtt-shelly-adapter.ts:147-190 | a store is only for a property the device has; only an `input_event` name emits or ignores; connectivity changes exactly for `online` from a `shellyplusht`; only input events and `shellyplusht` envelopes throw; an unmatched name has no property |
| Ingress.InputEventsNeverStore | src/mqtt/mqtt-shelly-adapter.ts:151-159 | a name starting with `input_event` never changes a property |
| Ingress.InputEventDecoding | src/mqtt/mqtt-shelly-adapter.ts:152-158 | for any name `input_event<c><rest>`, nothing happens exactly when `event_cnt < 1` or `event` is empty; otherwise one event `input<c>Press` for code `S` or `input<c>LongPress` for any other code, whatever `<rest>` is |
| Ingress.InputEventUnindexed | src/mqtt/mqtt-shelly-adapter.ts:152-158 | a bare `input_event` name emits `inputundefinedPress` or `inputundefinedLongPress` under the same conditions |
| Ingress.InputEventMalformed | src/mqtt/mqtt-shelly-adapter.ts:152 | a payload that is not JSON makes an input event throw |
| Ingress.InputEventPresses | src/mqtt/mqtt-shelly-adapter.ts:156 | for any name `input_event<c><rest>`, an emitted event is the short or long press of input `<c>`; the characters after `<c>` play no part |
| Ingress.BooleanAllowList | src/mqtt/mqtt-shelly-adapter.ts:164-166 | a boolean property stores true exactly for `1`, `on` and `open`, false for any other payload |
| Ingress.ButtonReadsFalse | src/mqtt/mqtt-shelly-adapter.ts:164-166 | a button updated through MQTT always caches false |
| Ingress.OnlineSetsConnectivity | src/mqtt/mqtt-shelly-adapter.ts:178-180 | `online` from a `shellyplusht` sets connectivity to `payload == "true"` and updates no property |
| Ingress.TemperatureEnvelope | src/mqtt/mqtt-shelly-adapter.ts:172-174 | `temperature0` from a `shellyplusht` with an object payload stores its `tC`, `undefined` when it has none |
| Ingress.HumidityEnvelope | src/mqtt/mqtt-shelly-adapter.ts:175-177 | `humidity0` from a `shellyplusht` with an object payload stores its `rh`, `undefined` when it has none |
| Ingress.BatteryEnvelope | src/mqtt/mqtt-shelly-adapter.ts:169-171 | `battery` from a `shellyplusht` stores `battery.percent`, and throws when the payload's `battery` is missing or `null` |
| Ingress.EnvelopeMalformed | src/mqtt/mqtt-shelly-adapter.ts:167-177 | an envelope name from a `shellyplusht` whose payload is not JSON or is `null` throws, whether or not the device has the property |
| Ingress.TextStored | src/mqtt/mqtt-shelly-adapter.ts:161-185 | a found property that is not boolean-typed, outside input events and the `shellyplusht` names, caches the payload text unchanged |
| Ingress.UnmatchedChangesNothing | src/mqtt/mqtt-shelly-adapter.ts:184-188 | a name with no property changes nothing on the device |
| Ingress.Shelly1LDeclaresEmittedEvents | src/devices/shelly-1l-relay.ts:20-32 | the events emitted for `input_event0` and `input_event1` are among those a `Shelly1L` declares |
| Ingress.NewDevice | src/mqtt/mqtt-shelly-adapter.ts:211-226 | a new device has the model's initial state, and a controller, for its own id, exactly when it is a `Shelly1L` |
| Ingress.GetOrCreate | src/mqtt/mqtt-shelly-adapter.ts:192-209 | a stored device is returned unchanged; otherwise a known type creates, stores and announces one device and an unknown type changes nothing |
| Ingress.Update | src/mqtt/mqtt-shelly-adapter.ts:147-190 | prefixes stay; at most the id is added to the devices and the announcements; other devices are untouched; the message is discarded exactly for a new id of unknown type; otherwise the device under the id takes the message's effect |
| Ingress.Ingest | src/mqtt/mqtt-shelly-adapter.ts:54-75 | an unrouted topic is discarded with nothing changed; a routed one records its prefix and then is `Update`; prefixes, devices and announcements only grow |
| Ingress.IngestAll | src/mqtt/mqtt-shelly-adapter.ts:54-75 | over any run of messages the prefixes and devices only grow and earlier announcements are kept in order |
| Ingress.PrefixKeepsValid | src/mqtt/mqtt-shelly-adapter.ts:70 | recording a routed prefix keeps the registry invariant |
| Ingress.RegisterKeepsValid | src/mqtt/mqtt-shelly-adapter.ts:201-205 | storing and announcing a new device under a prefixed key keeps the registry invariant |
| Ingress.GetOrCreateKeepsValid | src/mqtt/mqtt-shelly-adapter.ts:192-209 | a lookup or creation keeps the registry invariant |
| Ingress.UpdateKeepsValid | src/mqtt/mqtt-shelly-adapter.ts:147-190 | a device update keeps the registry invariant and removes no device |
| Ingress.IngestKeepsValid | src/mqtt/mqtt-shelly-adapter.ts:54-75 | every message keeps the registry invariant and removes no device |
| Ingress.IngestAllKeepsValid | src/mqtt/mqtt-shelly-adapter.ts:54-75 | any run of messages keeps the invariant and only adds devices |
| Ingress.AnnouncedOnce | src/mqtt/mqtt-shelly-adapter.ts:201-205 | in a valid registry every device was announced to the host exactly once |
| Ingress.UpdateRegistration | src/mqtt/mqtt-shelly-adapter.ts:192-209 | an existing key keeps its device whatever type is named; a known type registers one device; an unknown type registers none and the message is discarded |
| Ingress.Registration | src/mqtt/mqtt-shelly-adapter.ts:69-71 | the prefix is recorded before the lookup, so unknown types get one too, and registration is idempotent per key |
| Ingress.UnnamedTopicIgnored | src/mqtt/mqtt-shelly-adapter.ts:65-72 | a message whose topic the grammar gives no name, or the empty name, records no prefix, creates no device and changes no state |
| Ingress.UnroutedIgnored | src/mqtt/mqtt-shelly-adapter.ts:56-74 | a topic that does not route changes nothing, not even the prefixes |
| Ingress.Address | src/mqtt/mqtt-shelly-adapter.ts:78-83 | an id without a recorded non-empty prefix is rejected; otherwise the target is `shellies/<prefix>/<subpath>` |
| Ingress.AddressParts | src/mqtt/mqtt-shelly-adapter.ts:83 | the target splits into `shellies`, the prefix as received and the subpath's own parts |
| Ingress.DevicesAddressable | src/mqtt/mqtt-shelly-adapter.ts:78-83 | every registered device resolves, and every command of its controller resolves to its own prefix |
| Ingress.LatestSegmentAddressed | src/mqtt/mqtt-shelly-adapter.ts:70 | after a routed message its key resolves to that message's device segment, overwriting earlier ones |
| Ingress.MqttShellyAdapter.constructor | src/mqtt/mqtt-shelly-adapter.ts:19-22 | a new adapter has no device, no prefix and has announced nothing |
| Ingress.MqttShellyAdapter.CreateDevice | src/mqtt/mqtt-shelly-adapter.ts:211-226 | a fresh device of the model for the type, with a controller for a `Shelly1L`, or none for an unknown type |
| Ingress.MqttShellyAdapter.Register | src/mqtt/mqtt-shelly-adapter.ts:203-204 | the new device is stored under its id and announced; the invariant holds |
| Ingress.MqttShellyAdapter.GetOrCreateDevice | src/mqtt/mqtt-shelly-adapter.ts:192-209 | follows `GetOrCreate`, returning the very object already stored for the id |
| Ingress.MqttShellyAdapter.ApplyToDevice | src/mqtt/mqtt-shelly-adapter.ts:150-189 | only the device under the id changes, by its effect |
| Ingress.MqttShellyAdapter.UpdateDevice | src/mqtt/mqtt-shelly-adapter.ts:147-190 | the new view and outcome are `Update` of the old view |
| Ingress.MqttShellyAdapter.RecordPrefix | src/mqtt/mqtt-shelly-adapter.ts:70 | the prefix of the key is overwritten; the invariant holds |
| Ingress.MqttShellyAdapter.HandleMessage | src/mqtt/mqtt-shelly-adapter.ts:54-75 | the new view and outcome are `Ingest` of the old view, and the invariant holds |
| Ingress.MqttShellyAdapter.UpdateShelly | src/mqtt/mqtt-shelly-adapter.ts:78-83 | fails exactly when `Address` fails, otherwise targets `Address`'s path with the value unchanged |
| ShellyLib.ModeOf | src/shelly-device.ts:33-48 | a missing or falsy mode and `relay` select relay mode, `roller` roller mode, any other truthy mode neither |
| ShellyLib.RelayNamesDistinct | src/shelly-device.ts:86 | distinct channels probe distinct names, none of them a sensor's |
| ShellyLib.RelayPropertiesExact | src/shelly-device.ts:85-91 | the probe creates a switch for channel `i` exactly when `i` is probed and `relay<i>` is defined, bound to channel `i`, and no other name |
| ShellyLib.RelayProbe | src/shelly-device.ts:85-91 | a new device has `relay<i>` exactly in relay mode for `i` in 0..3 with `relay<i>` defined, and writing it sets relay `i` |
| ShellyLib.PropertiesAccountedFor | src/shelly-device.ts:33-58 | every property of a new device is a probed switch, `internalTemperature` or `power` |
| ShellyLib.OptionalProperties | src/shelly-device.ts:50-58 | `internalTemperature` exists exactly when that field is truthy and `power` exactly when `powerMeter0` is defined, in every mode |
| ShellyLib.ModeOutcomes | src/shelly-device.ts:33-48 | roller mode registers exactly `open`, `stop`, `close`, each setting the roller state to its own name; other modes register none; only relay mode creates switches |
| ShellyLib.SwitchWrite | src/shelly-device.ts:89 | only a switch can be written, and it sets its own relay channel to the value |
| ShellyLib.ShellyDevice.constructor | src/shelly-device.ts:16-59 | the properties and callbacks of a new device are `ExpectedProperties` and `ExpectedCallbacks`, and its actions are the callbacks' names |
| ShellyLib.ShellyDevice.ConfigureRelayMode | src/shelly-device.ts:81-92 | the loop over 0..3 adds exactly the switches `RelayProperties` describes |
| ShellyLib.ShellyDevice.ConfigureRollerMode | src/shelly-device.ts:94-114 | adds the actions `open`, `stop` and `close`, each bound to its own roller state |
| ShellyLib.ShellyDevice.AddCallbackAction | src/shelly-device.ts:61-64 | the action is announced and its callback replaces any earlier one of that name |
| ShellyLib.ShellyDevice.PerformAction | src/shelly-device.ts:66-79 | start comes first and finish last; the registered callback runs in between exactly when there is one, and nothing else runs |
| ShellyLib.ShellyDevice.OnChange | src/shelly-device.ts:22-31 | a change updates only the property of that name, and nothing when there is none |

## Left out

- MQTT transport (connect, subscribe, the `connect`/`error` handlers and `client.publish` with its promise): network I/O. `UpdateShelly` stops at the target path and payload or the unknown-device error.
- Logging (`console.*`, `debug`): no effect on state.
- `src/index.ts` (plugin start-up, configuration, database): host I/O.
- Host UI metadata: `@context`, `@type`, titles, display names and event descriptions.
- `JSON.parse`: a parameter of the adapter; the model does not parse JSON text.
- JavaScript numbers: modelled as reals in payload values and as integers in commands; `toString` of non-integral or very large numbers (`1.5`, `1e21`) and `NaN` are not modelled, and strings are converted to numbers only when they are an optional `-` followed by digits, and the empty string to 0. Other strings JavaScript converts, such as whitespace, are NaN here: an `event_cnt` of `" "` is 0 in JavaScript, so that input event is ignored, while the model emits it.
- Arrays among JSON values are not modelled.
- Keys inherited through the prototype of the plain objects `foundDevices`, `mqttPrefixByDevice` and `callbacks` (`constructor`, `toString`, `__proto__`) are treated as absent: `PerformAction("toString")` runs no callback, where JavaScript would call the inherited function. The host only performs the actions a device declared, so that name does not reach it.
- The device classes `ShellyHT`, `ShellyDoorWindow2`, `ShellyHTPlus`, `OverheatableDevice` and the base class of `src/devices/shelly-device.ts` with `addRelays`/`addPowermeters`: the adapter's `catalogue` parameter gives the properties and events they contribute.
- `SwitchProperty`, `TemperatureProperty`, `PowerProperty` and the `shellies` library object: recorded by kind, with `SwitchWrite` standing for the setter closure; their own value conversions are not modelled.
- Property and event notifications to the host (`notifyPropertyChanged`, event dispatch) and `handleDeviceAdded`'s own work: the model records the emitted events, the connectivity values and the announced ids.
- Text encoding: a Dafny `char` is a Unicode scalar value, while `name[11]` reads one UTF-16 code unit and `message.toString()` decodes the payload bytes as UTF-8; names and payloads are taken as already-decoded character sequences, and an index into a character outside the Basic Multilingual Plane is not modelled.
- Asynchronous ordering of promises and event-loop callbacks.
- Devices.Device.constructor: the relay and power-meter channel counts are stated for `Shelly1L` only, because the other constructors are outside this model.
- Because the boolean rule turns an MQTT payload into a boolean before `ButtonProperty` compares it strictly with the number 1, a button updated through MQTT always reads false; `Ingress.ButtonReadsFalse` states this behaviour as the code has it.
