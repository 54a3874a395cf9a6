/** The AG-UI message protocol: message records, the typed message
    constructors, the middleware/handler pipeline, the field codec, protocol
    versions and the target router (src/protocols/ag_ui_protocol.py). */
module Protocol {
  import opened Wrappers
  import opened Json
  import Strings

  datatype MessageType =
    | UiModification | UiQuery | UiResponse
    | VoiceCommand | VoiceResponse | VoiceStatus
    | VisualDebug | ElementSelect | ElementInspect
    | StateSync | StateUpdate | StateQuery
    | UserInteraction | UserBehavior | UserPreference
    | SystemStatus | ErrorReport | Heartbeat

  /** The enum's value, as it appears on the wire. */
  function TypeValue(t: MessageType): string {
    match t
    case UiModification => "ui_modification"
    case UiQuery => "ui_query"
    case UiResponse => "ui_response"
    case VoiceCommand => "voice_command"
    case VoiceResponse => "voice_response"
    case VoiceStatus => "voice_status"
    case VisualDebug => "visual_debug"
    case ElementSelect => "element_select"
    case ElementInspect => "element_inspect"
    case StateSync => "state_sync"
    case StateUpdate => "state_update"
    case StateQuery => "state_query"
    case UserInteraction => "user_interaction"
    case UserBehavior => "user_behavior"
    case UserPreference => "user_preference"
    case SystemStatus => "system_status"
    case ErrorReport => "error_report"
    case Heartbeat => "heartbeat"
  }

  /** The enum member's name, as `str(MessageType.X)` prints it after "MessageType.". */
  function TypeName(t: MessageType): string {
    match t
    case UiModification => "UI_MODIFICATION"
    case UiQuery => "UI_QUERY"
    case UiResponse => "UI_RESPONSE"
    case VoiceCommand => "VOICE_COMMAND"
    case VoiceResponse => "VOICE_RESPONSE"
    case VoiceStatus => "VOICE_STATUS"
    case VisualDebug => "VISUAL_DEBUG"
    case ElementSelect => "ELEMENT_SELECT"
    case ElementInspect => "ELEMENT_INSPECT"
    case StateSync => "STATE_SYNC"
    case StateUpdate => "STATE_UPDATE"
    case StateQuery => "STATE_QUERY"
    case UserInteraction => "USER_INTERACTION"
    case UserBehavior => "USER_BEHAVIOR"
    case UserPreference => "USER_PREFERENCE"
    case SystemStatus => "SYSTEM_STATUS"
    case ErrorReport => "ERROR_REPORT"
    case Heartbeat => "HEARTBEAT"
  }

  /** `MessageType(s)`: lookup by value. */
  function ParseType(s: string): (r: Option<MessageType>)
    ensures r.Some? ==> TypeValue(r.value) == s
  {
    if s == "ui_modification" then Some(UiModification)
    else if s == "ui_query" then Some(UiQuery)
    else if s == "ui_response" then Some(UiResponse)
    else if s == "voice_command" then Some(VoiceCommand)
    else if s == "voice_response" then Some(VoiceResponse)
    else if s == "voice_status" then Some(VoiceStatus)
    else if s == "visual_debug" then Some(VisualDebug)
    else if s == "element_select" then Some(ElementSelect)
    else if s == "element_inspect" then Some(ElementInspect)
    else if s == "state_sync" then Some(StateSync)
    else if s == "state_update" then Some(StateUpdate)
    else if s == "state_query" then Some(StateQuery)
    else if s == "user_interaction" then Some(UserInteraction)
    else if s == "user_behavior" then Some(UserBehavior)
    else if s == "user_preference" then Some(UserPreference)
    else if s == "system_status" then Some(SystemStatus)
    else if s == "error_report" then Some(ErrorReport)
    else if s == "heartbeat" then Some(Heartbeat)
    else None
  }

  /** Every member's value parses back to that member: the enum is a bijection
      between its members and the eighteen value strings. */
  lemma ParseTypeValue(t: MessageType)
    ensures ParseType(TypeValue(t)) == Some(t)
  {
    match t
    case UiModification | UiQuery | UiResponse | VoiceCommand | VoiceResponse | VoiceStatus =>
      ParseUiAndVoice(t);
    case VisualDebug | ElementSelect | ElementInspect | StateSync | StateUpdate | StateQuery =>
      ParseVisualAndState(t);
    case _ =>
      ParseUserAndSystem(t);
  }

  lemma ParseUiAndVoice(t: MessageType)
    requires t in {UiModification, UiQuery, UiResponse, VoiceCommand, VoiceResponse, VoiceStatus}
    ensures ParseType(TypeValue(t)) == Some(t)
  {
  }

  lemma ParseVisualAndState(t: MessageType)
    requires t in {VisualDebug, ElementSelect, ElementInspect, StateSync, StateUpdate, StateQuery}
    ensures ParseType(TypeValue(t)) == Some(t)
  {
  }

  lemma ParseUserAndSystem(t: MessageType)
    requires t in {UserInteraction, UserBehavior, UserPreference, SystemStatus, ErrorReport, Heartbeat}
    ensures ParseType(TypeValue(t)) == Some(t)
  {
  }

  /** `MessageType(v)` applied to a JSON value: only a known value string succeeds. */
  /** The message of the `ValueError` the enum raises for a value it lacks. */
  function NotAMessageType(v: Value): string {
    PyRepr(v) + " is not a valid MessageType"
  }

  lemma EmptyNotAMessageType()
    ensures NotAMessageType(JStr("")) == "'' is not a valid MessageType"
  {
    Strings.EmptyRepr();
  }

  function ParseTypeJson(v: Value): (r: Result<MessageType, PyError>)
    ensures r.Ok? <==> v.JStr? && ParseType(v.s).Some?
    ensures r.Ok? ==> TypeValue(r.value) == v.s
  {
    if v.JStr? && ParseType(v.s).Some? then Ok(ParseType(v.s).value)
    else Err(PyError(ValueError, NotAMessageType(v)))
  }

  /** The empty value is not a member, and the message quotes it. */
  lemma EmptyMessageTypeText()
    ensures ParseTypeJson(JStr("")) == Err(PyError(ValueError, "'' is not a valid MessageType"))
  {
    EmptyNotAMessageType();
  }

  datatype Priority = Low | Normal | High | Critical

  function PriorityValue(p: Priority): int {
    match p
    case Low => 1
    case Normal => 2
    case High => 3
    case Critical => 4
  }

  /** The fields of an `AGUIMessage`; `timestamp` is an abstract clock reading. */
  datatype Message = Message(
    messageId: string,
    messageType: MessageType,
    timestamp: int,
    source: string,
    target: Option<string>,
    priority: Priority,
    version: string,
    sessionId: Option<string>,
    userId: Option<string>,
    payload: Obj,
    metadata: Obj)

  /** Values the source draws from `uuid.uuid4()` and `datetime.now()`. */
  datatype Fresh = Fresh(messageId: string, now: int, modificationId: string)

  /** The Python class a message is constructed with. */
  datatype MessageClass =
    | BaseClass
    | VoiceCommandClass
    | VisualDebugClass
    | UiModificationClass
    | StateSyncClass
    | UserInteractionClass

  /** The `message_classes` table of `_dict_to_message`. */
  function ClassFor(t: MessageType): (c: MessageClass)
    ensures c != BaseClass <==> t in {VoiceCommand, VisualDebug, UiModification, StateSync, UserInteraction}
  {
    match t
    case VoiceCommand => VoiceCommandClass
    case VisualDebug => VisualDebugClass
    case UiModification => UiModificationClass
    case StateSync => StateSyncClass
    case UserInteraction => UserInteractionClass
    case _ => BaseClass
  }

  /** The class-level default of `message_type`; the base class has none. */
  function ClassDefaultType(c: MessageClass): Option<MessageType> {
    match c
    case BaseClass => None
    case VoiceCommandClass => Some(VoiceCommand)
    case VisualDebugClass => Some(VisualDebug)
    case UiModificationClass => Some(UiModification)
    case StateSyncClass => Some(StateSync)
    case UserInteractionClass => Some(UserInteraction)
  }

  /** The payload keys a subclass constructor writes from its keyword arguments. */
  function ListedKeys(c: MessageClass): set<string> {
    match c
    case BaseClass => {}
    case VoiceCommandClass => {"transcript", "intent", "confidence", "language", "audio_duration"}
    case VisualDebugClass => {"element_id", "action", "properties", "dom_path", "screenshot_data", "coordinates"}
    case UiModificationClass => {"modification_id", "target_element", "modification_type", "parameters", "preview_mode", "rollback_data"}
    case StateSyncClass => {"state_type", "state_data", "sync_scope", "incremental"}
    case UserInteractionClass => {"interaction_type", "element_info", "interaction_data", "context", "device_info"}
  }

  /** The default the constructor uses for a listed key missing from its arguments. */
  function KeyDefault(c: MessageClass, k: string, fr: Fresh): Value {
    match c
    case VoiceCommandClass =>
      if k == "transcript" then JStr("")
      else if k == "confidence" || k == "audio_duration" then JReal(0.0)
      else if k == "language" then JStr("zh-TW")
      else JObj(map[])
    case VisualDebugClass =>
      if k == "screenshot_data" then JNull
      else if k == "properties" || k == "coordinates" then JObj(map[])
      else JStr("")
    case UiModificationClass =>
      if k == "modification_id" then JStr(fr.modificationId)
      else if k == "preview_mode" then JBool(false)
      else if k == "parameters" || k == "rollback_data" then JObj(map[])
      else JStr("")
    case StateSyncClass =>
      if k == "state_type" then JStr("")
      else if k == "sync_scope" then JStr("session")
      else if k == "incremental" then JBool(false)
      else JObj(map[])
    case UserInteractionClass =>
      if k == "interaction_type" then JStr("")
      else JObj(map[])
    case BaseClass => JNull
  }

  /** The `self.payload.update({...})` dictionary of a subclass constructor. */
  function Overrides(c: MessageClass, data: Obj, fr: Fresh): (o: Obj)
    ensures o.Keys == ListedKeys(c)
  {
    map k | k in ListedKeys(c) :: GetOr(data, k, KeyDefault(c, k, fr))
  }

  // ---- field validation of the pydantic model ----

  function StrField(data: Obj, k: string, default: string): Result<string, PyError> {
    if k !in data then Ok(default)
    else if data[k].JStr? then Ok(data[k].s)
    else Err(PyError(ValidationError, k + ": Input should be a valid string"))
  }

  function RequiredStr(data: Obj, k: string): Result<string, PyError> {
    if k in data && data[k].JStr? then Ok(data[k].s)
    else Err(PyError(ValidationError, k + ": Field required or not a string"))
  }

  function OptStrField(data: Obj, k: string): Result<Option<string>, PyError> {
    if k !in data || data[k] == JNull then Ok(None)
    else if data[k].JStr? then Ok(Some(data[k].s))
    else Err(PyError(ValidationError, k + ": Input should be a valid string"))
  }

  function IntField(data: Obj, k: string, default: int): Result<int, PyError> {
    if k !in data then Ok(default)
    else if data[k].JInt? then Ok(data[k].i)
    else Err(PyError(ValidationError, k + ": Input should be a valid datetime"))
  }

  function ObjField(data: Obj, k: string): Result<Obj, PyError> {
    if k !in data then Ok(map[])
    else if data[k].JObj? then Ok(data[k].fields)
    else Err(PyError(ValidationError, k + ": Input should be a valid dictionary"))
  }

  function PriorityField(data: Obj): Result<Priority, PyError> {
    if "priority" !in data then Ok(Normal)
    else match data["priority"]
      case JInt(1) => Ok(Low)
      case JInt(2) => Ok(Normal)
      case JInt(3) => Ok(High)
      case JInt(4) => Ok(Critical)
      case _ => Err(PyError(ValidationError, "priority: Input should be 1, 2, 3 or 4"))
  }

  function TypeField(data: Obj, default: Option<MessageType>): Result<MessageType, PyError> {
    if "message_type" in data then ParseTypeJson(data["message_type"])
    else if default.Some? then Ok(default.value)
    else Err(PyError(ValidationError, "message_type: Field required"))
  }

  /** Keyword arguments that leave every field except `source`, `session_id`
      and `user_id` at its default. */
  predicate OmitsFields(d: Obj) {
    && "message_id" !in d && "message_type" !in d && "timestamp" !in d && "target" !in d
    && "priority" !in d && "version" !in d && "payload" !in d && "metadata" !in d
  }

  /** `AGUIMessage.__init__(**data)` as pydantic validates it for class `c`. */
  function Validate(c: MessageClass, data: Obj, fr: Fresh): Result<Message, PyError> {
    var messageId :- StrField(data, "message_id", fr.messageId);
    var messageType :- TypeField(data, ClassDefaultType(c));
    var timestamp :- IntField(data, "timestamp", fr.now);
    var source :- RequiredStr(data, "source");
    var target :- OptStrField(data, "target");
    var priority :- PriorityField(data);
    var version :- StrField(data, "version", "1.0");
    var sessionId :- OptStrField(data, "session_id");
    var userId :- OptStrField(data, "user_id");
    var payload :- ObjField(data, "payload");
    var metadata :- ObjField(data, "metadata");
    Ok(Message(messageId, messageType, timestamp, source, target, priority, version,
               sessionId, userId, payload, metadata))
  }

  /** `cls(**data)`: validation, then the subclass's payload update. Every listed
      key ends up holding the keyword argument or its default, whatever the
      incoming payload held; every other payload key survives. */
  function Construct(c: MessageClass, data: Obj, fr: Fresh): (r: Result<Message, PyError>)
    ensures r.Ok? <==> Validate(c, data, fr).Ok?
    ensures r.Ok? ==> var v := Validate(c, data, fr).value;
      && r.value == v.(payload := r.value.payload)
      && r.value.payload.Keys == v.payload.Keys + ListedKeys(c)
      && (forall k :: k in ListedKeys(c) ==> r.value.payload[k] == GetOr(data, k, KeyDefault(c, k, fr)))
      && (forall k :: k in v.payload && k !in ListedKeys(c) ==> r.value.payload[k] == v.payload[k])
  {
    var m :- Validate(c, data, fr);
    Ok(m.(payload := m.payload + Overrides(c, data, fr)))
  }

  /** `_dict_to_message`: the type string picks the class; an unknown or missing
      type raises ValueError before any class is tried. */
  function DictToMessage(data: Obj, fr: Fresh): (r: Result<Message, PyError>)
    ensures ParseTypeJson(GetOr(data, "message_type", JNull)).Err? ==> r.Err? && r.error.kind == ValueError
    ensures ParseTypeJson(GetOr(data, "message_type", JNull)).Ok? ==>
      r == Construct(ClassFor(ParseTypeJson(data["message_type"]).value), data, fr)
  {
    var t :- ParseTypeJson(GetOr(data, "message_type", JNull));
    Construct(ClassFor(t), data, fr)
  }

  // ---- codec ----

  /** `model_dump_json()` as the dictionary the JSON text encodes. */
  function Serialize(m: Message): (d: Obj)
    ensures d.Keys == FieldNames()
  {
    map[
      "message_id" := JStr(m.messageId),
      "message_type" := JStr(TypeValue(m.messageType)),
      "timestamp" := JInt(m.timestamp),
      "source" := JStr(m.source),
      "target" := OptStr(m.target),
      "priority" := JInt(PriorityValue(m.priority)),
      "version" := JStr(m.version),
      "session_id" := OptStr(m.sessionId),
      "user_id" := OptStr(m.userId),
      "payload" := JObj(m.payload),
      "metadata" := JObj(m.metadata)
    ]
  }

  function FieldNames(): set<string> {
    {"message_id", "message_type", "timestamp", "source", "target", "priority", "version",
     "session_id", "user_id", "payload", "metadata"}
  }

  /** `deserialize_message`: JSON text parsing is abstracted, the dictionary goes to `_dict_to_message`. */
  function Deserialize(d: Obj, fr: Fresh): Result<Message, PyError> {
    DictToMessage(d, fr)
  }

  lemma ValidateSerialized(m: Message, c: MessageClass, fr: Fresh)
    ensures Validate(c, Serialize(m), fr) == Ok(m)
  {
    SerializedFields(m);
    ValidateFields(Serialize(m), m, c, fr);
  }

  /** Each field of a message is stored under its own name. */
  lemma SerializedFields(m: Message)
    ensures HoldsFields(Serialize(m), m)
  {
    var d := Serialize(m);
    assert d["message_id"] == JStr(m.messageId);
    assert d["message_type"] == JStr(TypeValue(m.messageType));
    assert d["timestamp"] == JInt(m.timestamp);
    assert d["source"] == JStr(m.source);
    assert d["target"] == OptStr(m.target);
    assert d["priority"] == JInt(PriorityValue(m.priority));
    assert d["version"] == JStr(m.version);
    assert d["session_id"] == OptStr(m.sessionId);
    assert d["user_id"] == OptStr(m.userId);
    assert d["payload"] == JObj(m.payload);
    assert d["metadata"] == JObj(m.metadata);
  }

  /** `d` holds every field of `m` under its name, in serialized form. */
  predicate HoldsFields(d: Obj, m: Message) {
    && "message_id" in d && d["message_id"] == JStr(m.messageId)
    && "message_type" in d && d["message_type"] == JStr(TypeValue(m.messageType))
    && "timestamp" in d && d["timestamp"] == JInt(m.timestamp)
    && "source" in d && d["source"] == JStr(m.source)
    && "target" in d && d["target"] == OptStr(m.target)
    && "priority" in d && d["priority"] == JInt(PriorityValue(m.priority))
    && "version" in d && d["version"] == JStr(m.version)
    && "session_id" in d && d["session_id"] == OptStr(m.sessionId)
    && "user_id" in d && d["user_id"] == OptStr(m.userId)
    && "payload" in d && d["payload"] == JObj(m.payload)
    && "metadata" in d && d["metadata"] == JObj(m.metadata)
  }

  /** A dictionary holding the serialized fields of `m` validates to `m`. */
  lemma ValidateFields(d: Obj, m: Message, c: MessageClass, fr: Fresh)
    requires HoldsFields(d, m)
    ensures Validate(c, d, fr) == Ok(m)
  {
    ParseTypeValue(m.messageType);
    assert TypeField(d, ClassDefaultType(c)) == Ok(m.messageType);
    assert PriorityField(d) == Ok(m.priority);
    assert OptStrField(d, "target") == Ok(m.target);
    assert OptStrField(d, "session_id") == Ok(m.sessionId);
    assert OptStrField(d, "user_id") == Ok(m.userId);
  }

  /** The type string of a serialized message selects the class of its type. */
  lemma DeserializeSerialized(m: Message, fr: Fresh)
    ensures var c := ClassFor(m.messageType);
      Deserialize(Serialize(m), fr) == Ok(m.(payload := m.payload + Overrides(c, Serialize(m), fr)))
  {
    var d := Serialize(m);
    var c := ClassFor(m.messageType);
    ParseTypeValue(m.messageType);
    assert GetOr(d, "message_type", JNull) == JStr(TypeValue(m.messageType));
    assert ParseTypeJson(GetOr(d, "message_type", JNull)) == Ok(m.messageType);
    ValidateSerialized(m, c, fr);
    assert Construct(c, d, fr) == Ok(m.(payload := m.payload + Overrides(c, d, fr)));
  }

  /** A base-class message survives serialization unchanged. */
  lemma RoundTripBase(m: Message, fr: Fresh)
    requires ClassFor(m.messageType) == BaseClass
    ensures Deserialize(Serialize(m), fr) == Ok(m)
  {
    DeserializeSerialized(m, fr);
    assert Overrides(BaseClass, Serialize(m), fr) == map[];
    assert m.payload + map[] == m.payload;
  }

  /** The payload a message of class `c` comes back with after a round trip. */
  function ResetPayload(m: Message, fr: Fresh): Obj {
    var c := ClassFor(m.messageType);
    m.payload + map k | k in ListedKeys(c) :: KeyDefault(c, k, fr)
  }

  /** For the five subclasses a round trip resets every listed payload key to
      its default: the serialized dictionary carries them only inside
      `payload`, never as top-level arguments. All other fields survive. */
  lemma RoundTripResetsListedKeys(m: Message, fr: Fresh)
    ensures Deserialize(Serialize(m), fr) == Ok(m.(payload := ResetPayload(m, fr)))
    ensures forall k :: k in ListedKeys(ClassFor(m.messageType)) ==>
      k in ResetPayload(m, fr) && ResetPayload(m, fr)[k] == KeyDefault(ClassFor(m.messageType), k, fr)
    ensures forall k :: k in m.payload && k !in ListedKeys(ClassFor(m.messageType)) ==>
      ResetPayload(m, fr)[k] == m.payload[k]
  {
    DeserializeSerialized(m, fr);
    OverridesOfSerialized(m, ClassFor(m.messageType), fr);
  }

  /** The serialized dictionary holds none of the listed keys at top level. */
  lemma OverridesOfSerialized(m: Message, c: MessageClass, fr: Fresh)
    ensures Overrides(c, Serialize(m), fr) == map k | k in ListedKeys(c) :: KeyDefault(c, k, fr)
  {
    OverridesWithoutListedKeys(Serialize(m), c, fr);
  }

  /** A dictionary holding only the message fields supplies no keyword argument. */
  lemma OverridesWithoutListedKeys(d: Obj, c: MessageClass, fr: Fresh)
    requires d.Keys == FieldNames()
    ensures Overrides(c, d, fr) == map k | k in ListedKeys(c) :: KeyDefault(c, k, fr)
  {
    ListedKeysAreNotFields(c);
    forall k | k in ListedKeys(c) ensures GetOr(d, k, KeyDefault(c, k, fr)) == KeyDefault(c, k, fr) {
      assert k !in FieldNames();
    }
  }

  lemma ListedKeysAreNotFields(c: MessageClass)
    ensures ListedKeys(c) !! FieldNames()
  {
    match c
    case BaseClass =>
    case VoiceCommandClass => VoiceKeysAreNotFields();
    case VisualDebugClass => VisualKeysAreNotFields();
    case UiModificationClass => ModificationKeysAreNotFields();
    case StateSyncClass => StateKeysAreNotFields();
    case UserInteractionClass => InteractionKeysAreNotFields();
  }

  lemma VoiceKeysAreNotFields()
    ensures ListedKeys(VoiceCommandClass) !! FieldNames()
  {
  }

  lemma VisualKeysAreNotFields()
    ensures ListedKeys(VisualDebugClass) !! FieldNames()
  {
  }

  lemma ModificationKeysAreNotFields()
    ensures ListedKeys(UiModificationClass) !! FieldNames()
  {
  }

  lemma StateKeysAreNotFields()
    ensures ListedKeys(StateSyncClass) !! FieldNames()
  {
  }

  lemma InteractionKeysAreNotFields()
    ensures ListedKeys(UserInteractionClass) !! FieldNames()
  {
  }

  /** A voice command whose transcript is "hi" comes back with transcript "". */
  lemma RoundTripLosesTranscript(fr: Fresh)
    ensures var m := Message("m1", VoiceCommand, 0, "client", None, Normal, "1.0", None, None,
                             map["transcript" := JStr("hi")], map[]);
      && Deserialize(Serialize(m), fr).Ok?
      && "transcript" in Deserialize(Serialize(m), fr).value.payload
      && Deserialize(Serialize(m), fr).value.payload["transcript"] == JStr("")
      && Deserialize(Serialize(m), fr) != Ok(m)
  {
    var m := Message("m1", VoiceCommand, 0, "client", None, Normal, "1.0", None, None,
                     map["transcript" := JStr("hi")], map[]);
    RoundTripResetsListedKeys(m, fr);
    assert "transcript" in ListedKeys(VoiceCommandClass);
    assert ResetPayload(m, fr)["transcript"] == JStr("");
  }

  // ---- middleware and handler dispatch ----

  /** A middleware or handler: returns a message, `None`, or raises. */
  type Stage = Message -> Result<Option<Message>, PyError>

  datatype ProtocolHandler = ProtocolHandler(handlers: map<MessageType, Stage>, middleware: seq<Stage>)

  function EmptyHandler(): ProtocolHandler {
    ProtocolHandler(map[], [])
  }

  /** `register_handler`: the new handler replaces any earlier one for that type. */
  function RegisterHandler(ph: ProtocolHandler, t: MessageType, h: Stage): (r: ProtocolHandler)
    ensures r.handlers.Keys == ph.handlers.Keys + {t}
    ensures r.handlers[t] == h
    ensures forall u :: u in ph.handlers && u != t ==> r.handlers[u] == ph.handlers[u]
    ensures r.middleware == ph.middleware
  {
    ph.(handlers := ph.handlers[t := h])
  }

  /** `add_middleware`: appends to the stack. */
  function AddMiddleware(ph: ProtocolHandler, mw: Stage): (r: ProtocolHandler)
    ensures r.middleware == ph.middleware + [mw]
    ensures r.handlers == ph.handlers
  {
    ph.(middleware := ph.middleware + [mw])
  }

  /** The middleware loop of `process_message`: in order; the first `None`
      ends the pipeline; an exception propagates. */
  function RunMiddleware(stack: seq<Stage>, m: Message): Result<Option<Message>, PyError>
    decreases |stack|
  {
    if |stack| == 0 then Ok(Some(m))
    else match stack[0](m)
      case Err(e) => Err(e)
      case Ok(None) => Ok(None)
      case Ok(Some(m')) => RunMiddleware(stack[1..], m')
  }

  /** Appending a middleware runs it after the existing stack, and only on
      a message the existing stack let through. */
  lemma {:induction false} RunMiddlewareAppend(stack: seq<Stage>, mw: Stage, m: Message)
    ensures RunMiddleware(stack + [mw], m) ==
      match RunMiddleware(stack, m)
      case Ok(Some(m')) => mw(m')
      case other => other
    decreases |stack|
  {
    if |stack| == 0 {
      assert stack + [mw] == [mw];
      assert [mw][1..] == [];
      match mw(m)
      case Err(e) =>
      case Ok(None) =>
      case Ok(Some(m')) =>
    } else {
      assert (stack + [mw])[0] == stack[0];
      assert (stack + [mw])[1..] == stack[1..] + [mw];
      match stack[0](m)
      case Err(e) =>
      case Ok(None) =>
      case Ok(Some(m')) => RunMiddlewareAppend(stack[1..], mw, m');
    }
  }

  /** A middleware that returns `None` stops everything after it. */
  lemma {:induction false} MiddlewareNoneStops(stack: seq<Stage>, i: int, m: Message)
    requires 0 <= i < |stack|
    requires RunMiddleware(stack[..i], m).Ok? && RunMiddleware(stack[..i], m).value.Some?
    requires stack[i](RunMiddleware(stack[..i], m).value.value) == Ok(None)
    ensures RunMiddleware(stack, m) == Ok(None)
    decreases |stack|
  {
    if i == 0 {
      assert stack[..0] == [];
    } else {
      assert stack[..i][0] == stack[0];
      assert stack[..i][1..] == stack[1..][..i - 1];
      match stack[0](m)
      case Err(e) =>
      case Ok(None) =>
      case Ok(Some(m')) => MiddlewareNoneStops(stack[1..], i - 1, m');
    }
  }

  /** What `process_message` is given. */
  datatype Incoming = FromDict(d: Obj) | FromMessage(m: Message)

  /** `_create_error_response`. */
  function ErrorResponse(original: Message, text: string, fr: Fresh): (r: Message)
    ensures r.messageType == ErrorReport && r.source == "protocol_handler"
    ensures r.target == Some(original.source)
    ensures r.sessionId == original.sessionId && r.userId == original.userId
    ensures r.payload.Keys == {"error_message", "original_message_id", "error_code"}
    ensures r.payload["original_message_id"] == JStr(original.messageId)
    ensures r.payload["error_code"] == JStr("HANDLER_ERROR")
    ensures r.payload["error_message"] == JStr(text)
  {
    Message(fr.messageId, ErrorReport, fr.now, "protocol_handler", Some(original.source),
            Normal, "1.0", original.sessionId, original.userId,
            map["error_message" := JStr(text),
                "original_message_id" := JStr(original.messageId),
                "error_code" := JStr("HANDLER_ERROR")],
            map[])
  }

  function NoHandlerText(t: MessageType): string {
    "No handler for message type: MessageType." + TypeName(t)
  }

  /** The message `process_message` works on: a dict is converted first. */
  function Converted(input: Incoming, fr: Fresh): Result<Message, PyError> {
    match input
    case FromDict(d) => DictToMessage(d, fr)
    case FromMessage(m) => Ok(m)
  }

  /** What the handler lookup returns for the message `m'` the middleware let
      through: the registered handler's reply, or an error report carrying
      its exception's text or the missing-handler text. */
  predicate Handled(ph: ProtocolHandler, m': Message, out: Option<Message>, errFr: Fresh) {
    && (m'.messageType !in ph.handlers ==>
          out == Some(ErrorResponse(m', NoHandlerText(m'.messageType), errFr)))
    && (m'.messageType in ph.handlers && ph.handlers[m'.messageType](m').Err? ==>
          out == Some(ErrorResponse(m', ph.handlers[m'.messageType](m').error.text, errFr)))
    && (m'.messageType in ph.handlers && ph.handlers[m'.messageType](m').Ok? ==>
          out == ph.handlers[m'.messageType](m').value)
  }

  /** `process_message`. Conversion and middleware errors propagate; a message
      the middleware drops gives `None`; otherwise the result never raises:
      a missing handler and a handler exception both become an error report. */
  function ProcessMessage(ph: ProtocolHandler, input: Incoming, fr: Fresh, errFr: Fresh)
    : (r: Result<Option<Message>, PyError>)
    ensures Converted(input, fr).Err? ==> r == Err(Converted(input, fr).error)
    ensures Converted(input, fr).Ok? ==> var passed := RunMiddleware(ph.middleware, Converted(input, fr).value);
      && (passed.Err? ==> r == Err(passed.error))
      && (passed == Ok(None) ==> r == Ok(None))
      && (passed.Ok? && passed.value.Some? ==> r.Ok? && Handled(ph, passed.value.value, r.value, errFr))
    ensures r.Err? ==> Converted(input, fr).Err? || RunMiddleware(ph.middleware, Converted(input, fr).value).Err?
  {
    var m :- Converted(input, fr);
    var passed :- RunMiddleware(ph.middleware, m);
    if passed.None? then Ok(None)
    else
      var m' := passed.value;
      if m'.messageType in ph.handlers then
        match ph.handlers[m'.messageType](m')
        case Ok(response) => Ok(response)
        case Err(e) => Ok(Some(ErrorResponse(m', e.text, errFr)))
      else
        Ok(Some(ErrorResponse(m', NoHandlerText(m'.messageType), errFr)))
  }

  /** Whatever the middleware stack, once it lets a message object through as
      `m'`, `process_message` does not raise: the registered handler's reply
      is returned, and its exception and a missing handler are reported back
      to the sender. */
  lemma ProcessNeverRaises(ph: ProtocolHandler, m: Message, m': Message, fr: Fresh, errFr: Fresh)
    requires RunMiddleware(ph.middleware, m) == Ok(Some(m'))
    ensures var r := ProcessMessage(ph, FromMessage(m), fr, errFr);
      && r.Ok?
      && (m'.messageType !in ph.handlers ==>
            r.value == Some(ErrorResponse(m', NoHandlerText(m'.messageType), errFr)))
      && (m'.messageType in ph.handlers && ph.handlers[m'.messageType](m').Err? ==>
            r.value == Some(ErrorResponse(m', ph.handlers[m'.messageType](m').error.text, errFr)))
      && (m'.messageType in ph.handlers && ph.handlers[m'.messageType](m').Ok? ==>
            r.value == ph.handlers[m'.messageType](m').value)
  {
    assert Converted(FromMessage(m), fr) == Ok(m);
  }

  /** The handler registered last for a type is the one invoked, on the
      message the middleware produced. */
  lemma RegisteredHandlerInvoked(ph: ProtocolHandler, t: MessageType, h: Stage, m: Message,
                                 fr: Fresh, errFr: Fresh)
    requires RunMiddleware(ph.middleware, m).Ok?
    requires RunMiddleware(ph.middleware, m).value.Some?
    requires RunMiddleware(ph.middleware, m).value.value.messageType == t
    ensures var m' := RunMiddleware(ph.middleware, m).value.value;
      ProcessMessage(RegisterHandler(ph, t, h), FromMessage(m), fr, errFr) ==
        match h(m')
        case Ok(resp) => Ok(resp)
        case Err(e) => Ok(Some(ErrorResponse(m', e.text, errFr)))
  {
  }

  /** When the middleware drops the message no handler runs and the result is `None`. */
  lemma DroppedMessageNotHandled(ph: ProtocolHandler, m: Message, fr: Fresh, errFr: Fresh)
    requires RunMiddleware(ph.middleware, m) == Ok(None)
    ensures ProcessMessage(ph, FromMessage(m), fr, errFr) == Ok(None)
  {
  }

  // ---- protocol versions ----

  const CurrentVersion: string := "1.0"
  const SupportedVersions: seq<string> := ["1.0"]

  function IsSupported(v: string): (b: bool)
    ensures b <==> v == "1.0"
  {
    v in SupportedVersions
  }

  datatype CompatibilityInfo = CompatibilityInfo(supported: bool, currentVersion: string, migrationRequired: bool)

  function GetCompatibilityInfo(v: string): (r: CompatibilityInfo)
    ensures r.supported <==> v == "1.0"
    ensures r.migrationRequired <==> v != "1.0"
    ensures r.supported <==> !r.migrationRequired
    ensures r.currentVersion == "1.0"
  {
    CompatibilityInfo(IsSupported(v), CurrentVersion, v != CurrentVersion)
  }

  // ---- message router ----

  datatype Router = Router(routes: map<string, string>, balancers: map<string, Message -> Option<string>>)

  function RegisterRoute(r: Router, target: string, endpoint: string): Router {
    r.(routes := r.routes[target := endpoint])
  }

  function RegisterLoadBalancer(r: Router, target: string, balancer: Message -> Option<string>): Router {
    r.(balancers := r.balancers[target := balancer])
  }

  /** `route_message`: no target means no route; a load balancer for the
      target wins over a direct route; otherwise the direct route, if any. */
  function RouteMessage(r: Router, m: Message): (e: Option<string>)
    ensures (m.target.None? || m.target.value == "") ==> e.None?
    ensures m.target.Some? && m.target.value != "" && m.target.value in r.balancers ==>
      e == r.balancers[m.target.value](m)
    ensures m.target.Some? && m.target.value != "" && m.target.value !in r.balancers ==>
      (e.Some? <==> m.target.value in r.routes) && (e.Some? ==> e.value == r.routes[m.target.value])
  {
    if m.target.None? || m.target.value == "" then None
    else if m.target.value in r.balancers then r.balancers[m.target.value](m)
    else if m.target.value in r.routes then Some(r.routes[m.target.value])
    else None
  }

  /** A registered direct route is used unless a balancer exists for the target. */
  lemma RouteAfterRegister(r: Router, target: string, endpoint: string, m: Message)
    requires m.target == Some(target) && target != ""
    ensures target !in r.balancers ==> RouteMessage(RegisterRoute(r, target, endpoint), m) == Some(endpoint)
    ensures target in r.balancers ==>
      RouteMessage(RegisterRoute(r, target, endpoint), m) == r.balancers[target](m)
  {
  }

  /** Registering a balancer overrides any direct route for that target. */
  lemma BalancerTakesPrecedence(r: Router, target: string, b: Message -> Option<string>, m: Message)
    requires m.target == Some(target) && target != ""
    ensures RouteMessage(RegisterLoadBalancer(r, target, b), m) == b(m)
  {
  }
}
