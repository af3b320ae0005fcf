/**
 * The Gson adapter for grid items (`CustomGridItemSerialization.kt`): an
 * item is written as an object `{"type": "Alarm"|"Timer", "item": …}` and
 * read back by dispatching on the tag. The payload codec that Gson's
 * context supplies is a parameter.
 */
module Serialization {
  import opened Wrappers
  import opened GridItems
  import AlarmData
  import TimerData

  /** Gson's JSON tree. Numbers keep their text; an object maps member names to values. */
  datatype Json =
    | JsonNull
    | JsonBool(b: bool)
    | JsonNumber(text: string)
    | JsonString(s: string)
    | JsonArray(elements: seq<Json>)
    | JsonObject(members: map<string, Json>)

  /**
   * `JsonElement.getAsString()`: the text of a primitive, or of the only
   * element of a one-element array; anything else has no string value.
   */
  function AsString(j: Json): (r: Option<string>)
    ensures j.JsonString? ==> r == Some(j.s)
    ensures j.JsonNull? || j.JsonObject? ==> r.None?
  {
    match j
    case JsonNull => None
    case JsonBool(b) => Some(if b then "true" else "false")
    case JsonNumber(t) => Some(t)
    case JsonString(s) => Some(s)
    case JsonArray(es) => if |es| == 1 then AsString(es[0]) else None
    case JsonObject(_) => None
  }

  /** What is handed to the adapter: a known grid item, or some other `GridItem` class. */
  datatype Source = Known(item: GridItem) | Foreign(className: string)

  /** Why reading or writing failed. */
  datatype Error =
    | UnknownSubtype(className: string)
    | NotAnObject
    | MissingType
    | TypeNotAString
    | MissingItem
    | UnknownType(tag: string)
    | BadPayload

  /** The tag written for each kind of item. */
  function Tag(item: GridItem): (t: string)
    ensures t == "Alarm" <==> item.AlarmItem?
    ensures t == "Timer" <==> item.TimerItem?
  {
    if item.AlarmItem? then "Alarm" else "Timer"
  }

  /**
   * `serialize`: nothing (or no context) gives `JsonNull`; a known item gives
   * its tag and its payload; any other class is refused.
   */
  function Serialize(src: Option<Source>, hasContext: bool, encode: GridItem -> Json): (r: Result<Json, Error>)
    ensures src.None? || !hasContext ==> r == Ok(JsonNull)
    ensures src.Some? && hasContext && src.value.Foreign? ==> r == Err(UnknownSubtype(src.value.className))
    ensures src.Some? && hasContext && src.value.Known? ==>
      r.Ok? && r.value.JsonObject? && r.value.members.Keys == {"type", "item"}
      && r.value.members["type"] == JsonString(Tag(src.value.item))
      && r.value.members["item"] == encode(src.value.item)
  {
    if src.None? || !hasContext then Ok(JsonNull)
    else match src.value
      case Foreign(name) => Err(UnknownSubtype(name))
      case Known(item) => Ok(JsonObject(map["type" := JsonString(Tag(item)), "item" := encode(item)]))
  }

  /**
   * `deserialize`: the input must be an object (and a context present); its
   * `type` member must exist and have a string value; then its `item` member
   * must exist; only then is the tag dispatched on, and the payload decoded
   * as an alarm or a timer.
   */
  function Deserialize(json: Option<Json>, hasContext: bool,
                       decodeAlarm: Json -> Option<AlarmData.Alarm>,
                       decodeTimer: Json -> Option<TimerData.Timer>): (r: Result<GridItem, Error>)
    ensures json.None? || !hasContext || !json.value.JsonObject? ==> r == Err(NotAnObject)
    ensures r.Ok? ==> json.Some? && json.value.JsonObject? && "item" in json.value.members && "type" in json.value.members
    ensures r.Ok? && r.value.AlarmItem? ==>
      AsString(json.value.members["type"]) == Some("Alarm") && decodeAlarm(json.value.members["item"]) == Some(r.value.alarm)
    ensures r.Ok? && r.value.TimerItem? ==>
      AsString(json.value.members["type"]) == Some("Timer") && decodeTimer(json.value.members["item"]) == Some(r.value.timer)
  {
    if json.None? || !hasContext || !json.value.JsonObject? then Err(NotAnObject)
    else
      var members := json.value.members;
      if "type" !in members then Err(MissingType)
      else match AsString(members["type"])
        case None => Err(TypeNotAString)
        case Some(tag) =>
          if "item" !in members then Err(MissingItem)
          else if tag == "Alarm" then
            match decodeAlarm(members["item"])
            case None => Err(BadPayload)
            case Some(a) => Ok(AlarmItem(a))
          else if tag == "Timer" then
            match decodeTimer(members["item"])
            case None => Err(BadPayload)
            case Some(t) => Ok(TimerItem(t))
          else Err(UnknownType(tag))
  }

  /**
   * Writing an item and reading it back gives the same item, of the same
   * kind, whenever the payload codec gives back the payload.
   */
  lemma RoundTrip(item: GridItem, encode: GridItem -> Json,
                  decodeAlarm: Json -> Option<AlarmData.Alarm>, decodeTimer: Json -> Option<TimerData.Timer>)
    requires item.AlarmItem? ==> decodeAlarm(encode(item)) == Some(item.alarm)
    requires item.TimerItem? ==> decodeTimer(encode(item)) == Some(item.timer)
    ensures
      var written := Serialize(Some(Known(item)), true, encode);
      written.Ok? && Deserialize(Some(written.value), true, decodeAlarm, decodeTimer) == Ok(item)
  {
  }

  /**
   * The tag is checked only after the `item` member is found: an object with
   * an unknown tag and no payload is reported as missing its payload.
   */
  lemma ItemCheckedBeforeTag(decodeAlarm: Json -> Option<AlarmData.Alarm>, decodeTimer: Json -> Option<TimerData.Timer>)
    ensures Deserialize(Some(JsonObject(map["type" := JsonString("Clock")])), true, decodeAlarm, decodeTimer) == Err(MissingItem)
    ensures Deserialize(Some(JsonObject(map["type" := JsonString("Clock"), "item" := JsonNull])), true, decodeAlarm, decodeTimer)
            == Err(UnknownType("Clock"))
  {
  }

  /** A numeric tag is read through its text, so `{"type": 5}` is an unknown type, not a malformed one. */
  lemma NumericTagIsText(payload: Json, decodeAlarm: Json -> Option<AlarmData.Alarm>, decodeTimer: Json -> Option<TimerData.Timer>)
    ensures Deserialize(Some(JsonObject(map["type" := JsonNumber("5"), "item" := payload])), true, decodeAlarm, decodeTimer)
            == Err(UnknownType("5"))
  {
  }
}
