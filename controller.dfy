/**
 * `MQTTShellyController`: turns each command on a device into the
 * `(subpath, payload)` pair handed to the adapter's `updateShelly`, always
 * for the device id fixed when the controller was built. A decoder for the
 * same pairs is the partner the encoder is proved against.
 */
module MqttController {
  import opened Wrappers
  import opened Strings
  import opened JsValues

  /** The controller keeps the id it was constructed with; nothing reassigns it. */
  datatype Controller = Controller(id: string)

  /** One call `updateShelly(id, subpath, payload)`. */
  datatype Publish = Publish(id: string, subpath: string, payload: string)

  /** The commands the controller accepts (numbers are modelled as integers). */
  datatype Command =
    | RollerState(state: string)
    | RollerPosition(position: int)
    | Relay(index: int, on: bool)
    | White(brightness: int, turn: bool)

  /** `setRollerState(state, duration)`: the duration is only logged. */
  function SetRollerState(c: Controller, state: string, duration: Option<real>): (p: Publish)
    ensures p == Publish(c.id, "roller/0/command", state)
  {
    Publish(c.id, "roller/0/command", state)
  }

  /** `setRollerPosition(position)`. */
  function SetRollerPosition(c: Controller, position: int): (p: Publish)
    ensures p.id == c.id && p.subpath == "roller/0/command/pos"
    ensures ParseInt(p.payload) == Some(position)
  {
    ParseIntToString(position);
    Publish(c.id, "roller/0/command/pos", IntToString(position))
  }

  const RELAY_HEAD := "relay/"
  const RELAY_TAIL := "/command"

  /** `setRelay(index, value)`. */
  function SetRelay(c: Controller, index: int, value: bool): (p: Publish)
    ensures p.id == c.id
    ensures StartsWith(p.subpath, RELAY_HEAD) && EndsWith(p.subpath, RELAY_TAIL)
    ensures |p.subpath| > |RELAY_HEAD| + |RELAY_TAIL|
    ensures ParseInt(p.subpath[|RELAY_HEAD|..|p.subpath| - |RELAY_TAIL|]) == Some(index)
    ensures p.payload == "on" <==> value
    ensures p.payload in {"on", "off"}
  {
    var subpath := RELAY_HEAD + IntToString(index) + RELAY_TAIL;
    assert subpath[..|RELAY_HEAD|] == RELAY_HEAD;
    assert subpath[|subpath| - |RELAY_TAIL|..] == RELAY_TAIL;
    assert subpath[|RELAY_HEAD|..|subpath| - |RELAY_TAIL|] == IntToString(index);
    ParseIntToString(index);
    Publish(c.id, subpath, if value then "on" else "off")
  }

  /** `JSON.stringify({brightness, turn: on})`: the keys come out in that order. */
  function WhitePayload(brightness: int, on: bool): (payload: string)
    ensures StartsWith(payload, WHITE_HEAD) && EndsWith(payload, if on then TURN_ON else TURN_OFF)
    ensures |WHITE_HEAD| + |if on then TURN_ON else TURN_OFF| < |payload|
    ensures payload[|WHITE_HEAD|..|payload| - |if on then TURN_ON else TURN_OFF|] == IntToString(brightness)
  {
    var tail := if on then TURN_ON else TURN_OFF;
    var payload := "{\"brightness\":" + IntToString(brightness) + ",\"turn\":" + (if on then "true" else "false") + "}";
    assert payload == WHITE_HEAD + IntToString(brightness) + tail;
    assert payload[..|WHITE_HEAD|] == WHITE_HEAD;
    assert payload[|payload| - |tail|..] == tail;
    payload
  }

  /** `setWhite(brightness, on)`. */
  function SetWhite(c: Controller, brightness: int, on: bool): (p: Publish)
    ensures p.id == c.id && p.subpath == "white/0/set"
    ensures ParseWhite(p.payload) == Some((brightness, on))
  {
    ParseWhiteRoundTrip(brightness, on);
    Publish(c.id, "white/0/set", WhitePayload(brightness, on))
  }

  /** The listener call `listener(prop, newValue, oldValue)`. */
  datatype ListenerCall = ListenerCall(prop: string, newValue: JsValue, oldValue: JsValue)

  /** `on(type, listener)`: the calls made to the listener, which happen at once. */
  function On(eventType: string): (calls: seq<ListenerCall>)
    ensures eventType == "change" <==> calls == []
    ensures |calls| <= 1
    ensures forall i :: 0 <= i < |calls| ==> calls[i] == ListenerCall(eventType, Null, Null)
  {
    if eventType != "change" then [ListenerCall(eventType, Null, Null)] else []
  }

  /** The publish a command causes. */
  function Encode(c: Controller, cmd: Command): (p: Publish)
    ensures p.id == c.id
    ensures cmd.RollerState? ==> p.subpath == "roller/0/command" && p.payload == cmd.state
    ensures cmd.RollerPosition? ==> p.subpath == "roller/0/command/pos"
    ensures cmd.Relay? ==> StartsWith(p.subpath, RELAY_HEAD) && EndsWith(p.subpath, RELAY_TAIL)
    ensures cmd.White? ==> p.subpath == "white/0/set"
  {
    match cmd
    case RollerState(state) => SetRollerState(c, state, None)
    case RollerPosition(position) => SetRollerPosition(c, position)
    case Relay(index, on) => SetRelay(c, index, on)
    case White(brightness, turn) => SetWhite(c, brightness, turn)
  }

  const WHITE_HEAD := "{\"brightness\":"
  const TURN_ON := ",\"turn\":true}"
  const TURN_OFF := ",\"turn\":false}"

  /** Reads the payload `WhitePayload` writes. */
  function ParseWhite(payload: string): Option<(int, bool)> {
    if !StartsWith(payload, WHITE_HEAD) then None
    else
      var rest := payload[|WHITE_HEAD|..];
      var on := |rest| >= |TURN_ON| && rest[|rest| - |TURN_ON|..] == TURN_ON;
      var off := |rest| >= |TURN_OFF| && rest[|rest| - |TURN_OFF|..] == TURN_OFF;
      var number := if on then rest[..|rest| - |TURN_ON|] else if off then rest[..|rest| - |TURN_OFF|] else "";
      if !on && !off then None
      else
        match ParseInt(number)
        case None => None
        case Some(b) => Some((b, on))
  }

  lemma ParseWhiteRoundTrip(brightness: int, on: bool)
    ensures ParseWhite(WhitePayload(brightness, on)) == Some((brightness, on))
  {
    var digits := IntToString(brightness);
    var tail := if on then TURN_ON else TURN_OFF;
    var payload := WhitePayload(brightness, on);
    var rest := payload[|WHITE_HEAD|..];
    assert rest[..|rest| - |tail|] == payload[|WHITE_HEAD|..|payload| - |tail|];
    assert rest[|rest| - |tail|..] == tail;
    assert rest[..|rest| - |tail|] == digits;
    if !on {
      assert rest[|rest| - |TURN_ON|..] != TURN_ON by {
        assert rest[|rest| - 2] == 'e';
        assert TURN_ON[|TURN_ON| - 2] == 'e';
        assert rest[|rest| - 3] == 's';
        assert TURN_ON[|TURN_ON| - 3] == 'u';
        assert rest[|rest| - |TURN_ON|..][|TURN_ON| - 3] == rest[|rest| - 3];
      }
    }
    ParseIntToString(brightness);
  }

  /** Reads a `(subpath, payload)` pair back into the command that produced it. */
  function Decode(subpath: string, payload: string): Option<Command> {
    if subpath == "roller/0/command" then Some(RollerState(payload))
    else if subpath == "roller/0/command/pos" then
      match ParseInt(payload)
      case None => None
      case Some(position) => Some(RollerPosition(position))
    else if subpath == "white/0/set" then
      match ParseWhite(payload)
      case None => None
      case Some((brightness, turn)) => Some(White(brightness, turn))
    else if StartsWith(subpath, RELAY_HEAD) && EndsWith(subpath, RELAY_TAIL)
         && |subpath| >= |RELAY_HEAD| + |RELAY_TAIL| && payload in {"on", "off"} then
      match ParseInt(subpath[|RELAY_HEAD|..|subpath| - |RELAY_TAIL|])
      case None => None
      case Some(index) => Some(Relay(index, payload == "on"))
    else None
  }

  /**
   * Every command reaches the adapter for the controller's own id, and its
   * subpath and payload determine the command: encoding loses nothing but
   * the roller duration.
   */
  lemma EncodeDecode(c: Controller, cmd: Command)
    ensures Encode(c, cmd).id == c.id
    ensures Decode(Encode(c, cmd).subpath, Encode(c, cmd).payload) == Some(cmd)
  {
    match cmd
    case RollerState(_) =>
    case RollerPosition(position) =>
    case Relay(index, on) =>
      var p := SetRelay(c, index, on);
      assert Encode(c, cmd) == p;
      var subpath := p.subpath;
      assert subpath[..|RELAY_HEAD|] == RELAY_HEAD;
      assert subpath[1] == 'e';
      assert subpath != "roller/0/command" && subpath != "roller/0/command/pos" && subpath != "white/0/set";
    case White(_, _) =>
  }

  /** Two commands that publish the same pair are the same command. */
  lemma EncodeInjective(c: Controller, a: Command, b: Command)
    requires Encode(c, a) == Encode(c, b)
    ensures a == b
  {
    EncodeDecode(c, a);
    EncodeDecode(c, b);
  }
}
