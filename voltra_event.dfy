/**
 * Events that the iOS runtime announces to the JavaScript bridge: their
 * persistence flag, their bridge names, and the key/value dictionary built for
 * each. The clock reading `Date().timeIntervalSince1970` is a parameter.
 */
module VoltraEvent {
  import opened Base
  import JsonValue

  /** `VoltraEventType`. */
  datatype EventType =
    | Interaction(source: string, identifier: string, payload: Option<string>)
    | StateChange(activityName: string, state: string)
    | TokenReceived(activityName: string, pushToken: string)
    | PushToStartTokenReceived(token: string)

  /** The four variants without their payloads. */
  datatype EventKind = InteractionKind | StateChangeKind | TokenReceivedKind | PushToStartKind

  function KindOf(e: EventType): EventKind {
    match e
    case Interaction(_, _, _) => InteractionKind
    case StateChange(_, _) => StateChangeKind
    case TokenReceived(_, _) => TokenReceivedKind
    case PushToStartTokenReceived(_) => PushToStartKind
  }

  /** `isPersistent`: only interactions survive the death of the app. */
  function IsPersistent(e: EventType): (r: bool)
    ensures r <==> KindOf(e) == InteractionKind
  {
    match e
    case Interaction(_, _, _) => true
    case _ => false
  }

  /** `name`: the event name used on the JavaScript bridge. */
  function Name(e: EventType): (r: string)
    ensures r != []
  {
    match e
    case Interaction(_, _, _) => "interaction"
    case StateChange(_, _) => "stateChange"
    case TokenReceived(_, _) => "activityTokenReceived"
    case PushToStartTokenReceived(_) => "activityPushToStartTokenReceived"
  }

  /** What a bridge listener does with a name: find the event kind it stands for. */
  function KindOfName(name: string): Option<EventKind> {
    if name == "interaction" then Some(InteractionKind)
    else if name == "stateChange" then Some(StateChangeKind)
    else if name == "activityTokenReceived" then Some(TokenReceivedKind)
    else if name == "activityPushToStartTokenReceived" then Some(PushToStartKind)
    else None
  }

  /** Every name identifies its kind, so the four names are pairwise distinct. */
  lemma NameIdentifiesKind(e: EventType, f: EventType)
    ensures KindOfName(Name(e)) == Some(KindOf(e))
    ensures Name(e) == Name(f) <==> KindOf(e) == KindOf(f)
  {
    assert KindOfName(Name(f)) == Some(KindOf(f));
  }

  /** A value in the `[String: Any]` dictionary handed to the bridge. */
  datatype BridgeValue = BridgeString(s: string) | BridgeDouble(d: JsonValue.Float64)

  /** The dictionary of `asDictionary`, keyed as the bridge's fixed event contract says. */
  function EventDictionary(e: EventType, timestamp: JsonValue.Float64): (d: map<string, BridgeValue>)
    ensures "type" in d && d["type"] == BridgeString(Name(e))
    ensures "timestamp" in d <==> KindOf(e) != PushToStartKind
    ensures "timestamp" in d ==> d["timestamp"] == BridgeDouble(timestamp)
    ensures "payload" in d <==> KindOf(e) == InteractionKind
    ensures "state" !in d
    ensures "activityState" in d <==> KindOf(e) == StateChangeKind
    ensures "activityName" in d <==> KindOf(e) in {StateChangeKind, TokenReceivedKind}
  {
    match e
    case Interaction(source, identifier, payload) =>
      map["type" := BridgeString(Name(e)), "source" := BridgeString(source),
          "timestamp" := BridgeDouble(timestamp), "identifier" := BridgeString(identifier),
          "payload" := BridgeString(if payload.Some? then payload.value else "")]
    case StateChange(activityName, state) =>
      map["type" := BridgeString(Name(e)), "timestamp" := BridgeDouble(timestamp),
          "activityName" := BridgeString(activityName), "activityState" := BridgeString(state)]
    case TokenReceived(activityName, pushToken) =>
      map["type" := BridgeString(Name(e)), "timestamp" := BridgeDouble(timestamp),
          "activityName" := BridgeString(activityName), "pushToken" := BridgeString(pushToken)]
    case PushToStartTokenReceived(token) =>
      map["type" := BridgeString(Name(e)), "pushToStartToken" := BridgeString(token)]
  }

  /** The exact key set of each variant's dictionary. */
  lemma EventKeys(e: EventType, timestamp: JsonValue.Float64)
    ensures KindOf(e) == InteractionKind ==>
      EventDictionary(e, timestamp).Keys == {"type", "source", "timestamp", "identifier", "payload"}
    ensures KindOf(e) == StateChangeKind ==>
      EventDictionary(e, timestamp).Keys == {"type", "timestamp", "activityName", "activityState"}
    ensures KindOf(e) == TokenReceivedKind ==>
      EventDictionary(e, timestamp).Keys == {"type", "timestamp", "activityName", "pushToken"}
    ensures KindOf(e) == PushToStartKind ==>
      EventDictionary(e, timestamp).Keys == {"type", "pushToStartToken"}
  {
  }

  /**
   * `asDictionary`: starts from `["type": name]` and adds the variant's fields one
   * subscript assignment at a time.
   */
  method AsDictionary(e: EventType, timestamp: JsonValue.Float64) returns (dict: map<string, BridgeValue>)
    ensures dict == EventDictionary(e, timestamp)
  {
    dict := map["type" := BridgeString(Name(e))];
    match e {
      case Interaction(source, identifier, payload) =>
        dict := dict["source" := BridgeString(source)];
        dict := dict["timestamp" := BridgeDouble(timestamp)];
        dict := dict["identifier" := BridgeString(identifier)];
        dict := dict["payload" := BridgeString(if payload.Some? then payload.value else "")];
      case StateChange(activityName, state) =>
        dict := dict["timestamp" := BridgeDouble(timestamp)];
        dict := dict["activityName" := BridgeString(activityName)];
        dict := dict["activityState" := BridgeString(state)];
      case TokenReceived(activityName, pushToken) =>
        dict := dict["timestamp" := BridgeDouble(timestamp)];
        dict := dict["activityName" := BridgeString(activityName)];
        dict := dict["pushToken" := BridgeString(pushToken)];
      case PushToStartTokenReceived(token) =>
        dict := dict["pushToStartToken" := BridgeString(token)];
    }
  }

  /** A string field of a bridge dictionary, if present and a string. */
  function StringField(d: map<string, BridgeValue>, key: string): Option<string> {
    if key in d && d[key].BridgeString? then Some(d[key].s) else None
  }

  /** A bridge listener's reading of a dictionary back into an event. */
  function FromDictionary(d: map<string, BridgeValue>): Option<EventType> {
    match StringField(d, "type")
    case None => None
    case Some(name) =>
      match KindOfName(name)
      case None => None
      case Some(InteractionKind) =>
        if StringField(d, "source").Some? && StringField(d, "identifier").Some? && StringField(d, "payload").Some?
        then Some(Interaction(StringField(d, "source").value, StringField(d, "identifier").value,
                              StringField(d, "payload")))
        else None
      case Some(StateChangeKind) =>
        if StringField(d, "activityName").Some? && StringField(d, "activityState").Some?
        then Some(StateChange(StringField(d, "activityName").value, StringField(d, "activityState").value))
        else None
      case Some(TokenReceivedKind) =>
        if StringField(d, "activityName").Some? && StringField(d, "pushToken").Some?
        then Some(TokenReceived(StringField(d, "activityName").value, StringField(d, "pushToken").value))
        else None
      case Some(PushToStartKind) =>
        if StringField(d, "pushToStartToken").Some?
        then Some(PushToStartTokenReceived(StringField(d, "pushToStartToken").value))
        else None
  }

  /** An interaction whose missing payload is written as the empty string, as the bridge receives it. */
  function WithPayloadDefault(e: EventType): EventType {
    match e
    case Interaction(source, identifier, None) => Interaction(source, identifier, Some(""))
    case _ => e
  }

  /**
   * The dictionary carries every field of the event: reading it back gives the
   * event, except that a nil payload comes back as `""`.
   */
  lemma DictionaryRoundTrip(e: EventType, timestamp: JsonValue.Float64)
    ensures FromDictionary(EventDictionary(e, timestamp)) == Some(WithPayloadDefault(e))
  {
    NameIdentifiesKind(e, e);
  }

  /** A nil payload and an empty payload are indistinguishable on the bridge. */
  lemma NilPayloadIsEmptyString(source: string, identifier: string, timestamp: JsonValue.Float64)
    ensures EventDictionary(Interaction(source, identifier, None), timestamp)
         == EventDictionary(Interaction(source, identifier, Some("")), timestamp)
  {
  }
}
