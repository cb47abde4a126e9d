/**
 * The inbound side of the MQTT adapter up to the device update: the topic
 * `shellies/<type>-<id>/<segments...>` is split on `/`, the device segment
 * is split at its last `-`, and the remaining segments are mapped to a
 * canonical property name by a closed grammar on the number of parts.
 */
module Topics {
  import opened Wrappers
  import opened Strings

  /** Registry key under which the adapter files a device id. */
  const KEY_PREFIX := "shelly-mqtt-"

  function DeviceKey(id: string): string {
    KEY_PREFIX + id
  }

  /**
   * `getPropertyName`: the canonical property name for the parts of a topic,
   * or `None` (the source's `null`). The root `parts[0]` and the device
   * segment `parts[1]` are never read.
   */
  function PropertyName(parts: seq<string>): (r: Option<string>)
    ensures r.Some? ==> 3 <= |parts| <= 5
    ensures |parts| == 3 ==> r == Some(parts[2])
    ensures |parts| == 5 && r.Some? ==> r.value == "powerMeter" + parts[3]
  {
    if |parts| == 5 then
      if parts[2] == "relay" && parts[4] == "power" then Some("powerMeter" + parts[3]) else None
    else if |parts| == 4 then
      var kind, sub := parts[2], parts[3];
      if kind == "sensor" then Some(if sub == "lux" then "illuminance" else sub)
      else if kind == "relay" || kind == "input" || kind == "input_event" then Some(kind + sub)
      else if kind == "status" then Some(if sub == "devicepower:0" then "battery" else RemoveFirst(sub, ':'))
      else None
    else if |parts| == 3 then Some(parts[2])
    else None
  }

  /** Five parts name a power meter exactly for `<root>/<device>/relay/<i>/power`. */
  lemma FivePartTopics(parts: seq<string>)
    requires |parts| == 5
    ensures PropertyName(parts).Some? <==> parts[2] == "relay" && parts[4] == "power"
  {
  }

  /** The four-part grammar, kind by kind. */
  lemma FourPartTopics(parts: seq<string>)
    requires |parts| == 4
    ensures parts[2] in {"relay", "input", "input_event"} ==> PropertyName(parts) == Some(parts[2] + parts[3])
    ensures parts[2] == "sensor" ==>
      PropertyName(parts) == Some(if parts[3] == "lux" then "illuminance" else parts[3])
    ensures parts[2] == "status" && parts[3] == "devicepower:0" ==> PropertyName(parts) == Some("battery")
    ensures parts[2] == "status" && parts[3] != "devicepower:0" ==>
      PropertyName(parts) == Some(RemoveFirst(parts[3], ':'))
    ensures parts[2] !in {"relay", "input", "input_event", "sensor", "status"} ==> PropertyName(parts).None?
  {
  }

  /** A status key loses only its first `:`. */
  lemma StatusDropsFirstColon(root: string, segment: string, a: string, b: string)
    requires ':' !in a && a + ":" + b != "devicepower:0"
    ensures PropertyName([root, segment, "status", a + ":" + b]) == Some(a + b)
  {
    assert a + ":" + b == a + [':'] + b;
    RemoveFirstAt(a, ':', b);
  }

  /** The root segment is never inspected. */
  lemma RootIgnored(parts: seq<string>, root: string)
    requires |parts| >= 1
    ensures PropertyName(parts[0 := root]) == PropertyName(parts)
  {
  }

  /**
   * The device segment split at its last `-`: `(type, id)`, or `None` when
   * the segment is empty or its last `-` is missing or at position 0.
   */
  function SplitDevice(segment: string): (r: Option<(string, string)>)
    ensures r.Some? ==> r.value.0 != "" && r.value.0 + "-" + r.value.1 == segment && '-' !in r.value.1
  {
    if segment == "" then None
    else
      var d := LastIndexOf(segment, '-');
      if d > 0 then
        assert segment == segment[..d] + "-" + segment[d + 1..];
        Some((segment[..d], segment[d + 1..]))
      else None
  }

  /** A segment splits exactly when it has a `-` after its first character. */
  lemma SplitDeviceDefined(segment: string)
    ensures SplitDevice(segment).Some? <==> exists i :: 0 < i < |segment| && segment[i] == '-'
  {
    if segment != "" && LastIndexOf(segment, '-') <= 0 {
      var d := LastIndexOf(segment, '-');
      forall i | 0 < i < |segment| ensures segment[i] != '-' {
        if d == 0 {
          assert segment[1..][i - 1] == segment[i];
        }
      }
    }
  }

  /** A type followed by `-` and a dash-free id splits back into that type and id. */
  lemma SplitDeviceRoundTrip(deviceType: string, id: string)
    requires deviceType != "" && '-' !in id
    ensures SplitDevice(deviceType + "-" + id) == Some((deviceType, id))
  {
    var segment := deviceType + "-" + id;
    assert segment == deviceType + ['-'] + id;
    LastIndexOfBefore(deviceType, '-', id);
    assert segment[..|deviceType|] == deviceType;
    assert segment[|deviceType| + 1..] == id;
  }

  /** What the message handler extracts from a topic it goes on to process. */
  datatype Route = Route(deviceType: string, key: string, segment: string, property: string)

  /**
   * The message handler's guards: a device segment that splits, and a
   * property name that is present and non-empty (the source tests it for
   * truthiness). The key is `shelly-mqtt-<id>`.
   */
  function RouteOf(topic: string): (r: Option<Route>)
    ensures r.Some? ==> r.value.property != "" && AddressOk(r.value.key, r.value.segment)
    ensures r.Some? ==>
              SplitDevice(r.value.segment).Some? && r.value.deviceType == SplitDevice(r.value.segment).value.0
  {
    var parts := Split(topic, '/');
    if |parts| < 2 then None
    else
      match SplitDevice(parts[1])
      case None => None
      case Some((deviceType, id)) =>
        match PropertyName(parts)
        case None => None
        case Some(p) => if p == "" then None else Some(Route(deviceType, DeviceKey(id), parts[1], p))
  }

  /**
   * A recorded address prefix: a non-empty device segment without `/`
   * whose id part is the one the key was built from.
   */
  predicate AddressOk(key: string, segment: string) {
    && segment != ""
    && '/' !in segment
    && SplitDevice(segment).Some?
    && key == DeviceKey(SplitDevice(segment).value.1)
  }

  /**
   * A topic assembled from separator-free parts, with a device segment
   * `<type>-<id>`, is routed to `shelly-mqtt-<id>` with the property name
   * the grammar gives its parts.
   */
  lemma RouteOfParts(root: string, deviceType: string, id: string, tail: seq<string>)
    requires deviceType != "" && '-' !in id
    requires SeparatorFree([root, deviceType + "-" + id] + tail, '/')
    requires PropertyName([root, deviceType + "-" + id] + tail).Some?
    requires PropertyName([root, deviceType + "-" + id] + tail).value != ""
    ensures RouteOf(Join([root, deviceType + "-" + id] + tail, '/'))
      == Some(Route(deviceType, DeviceKey(id), deviceType + "-" + id,
                    PropertyName([root, deviceType + "-" + id] + tail).value))
  {
    var parts := [root, deviceType + "-" + id] + tail;
    SplitJoin(parts, '/');
    SplitDeviceRoundTrip(deviceType, id);
  }

  /**
   * A topic whose parts the grammar does not name, or names with the empty
   * string, is dropped whatever its device segment.
   */
  lemma UnnamedTopicDropped(parts: seq<string>)
    requires |parts| >= 1 && SeparatorFree(parts, '/')
    requires PropertyName(parts).None? || PropertyName(parts) == Some("")
    ensures RouteOf(Join(parts, '/')).None?
  {
    SplitJoin(parts, '/');
  }

  /** Topics with a missing or undelimited device segment are dropped. */
  lemma UndelimitedDeviceDropped(root: string, segment: string, tail: seq<string>)
    requires SeparatorFree([root, segment] + tail, '/')
    requires forall i :: 0 < i < |segment| ==> segment[i] != '-'
    ensures RouteOf(Join([root, segment] + tail, '/')).None?
  {
    SplitJoin([root, segment] + tail, '/');
    SplitDeviceDefined(segment);
  }
}
