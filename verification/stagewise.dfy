/** The pure parts of `StagewiseIntegration`
    (src/integrations/stagewise_integration.py): DOM-path building, the
    accessibility score, websocket event dispatch and the handler registry.
    The browser, the driver and the websocket are not modelled; what a
    handler call or an outgoing frame would do is returned as an `Effect`. */
module Stagewise {
  import opened Wrappers
  import opened Json
  import Strings
  import Protocol

  // ---- DOM path ----

  /** `str.lower()` on a value read from a dict; only strings have it. */
  function LowerOf(v: Value): Result<string, PyError> {
    if v.JStr? then Ok(Strings.Lower(v.s))
    else Err(NoAttribute(v, "lower"))
  }

  /** `_generate_dom_path`: the lowercased tag, then `#id` when the id is
      truthy, else `.first-class` when the class name is truthy. */
  function DomPath(elementData: Obj): (r: Result<string, PyError>)
    ensures var tag := GetOr(elementData, "tagName", JStr(""));
      var id := GetOr(elementData, "id", JStr(""));
      var cls := GetOr(elementData, "className", JStr(""));
      && (r.Ok? <==> tag.JStr? && (Truthy(id) || !Truthy(cls) || (cls.JStr? && !Strings.AllSpace(cls.s))))
      && (r.Ok? && Truthy(id) ==> r.value == Strings.Lower(tag.s) + "#" + PyStr(id))
      && (r.Ok? && !Truthy(id) && !Truthy(cls) ==> r.value == Strings.Lower(tag.s))
      && (r.Ok? && !Truthy(id) && Truthy(cls) ==>
            exists first: string, k: nat :: Strings.FirstWordAt(cls.s, first, k)
                                           && r.value == Strings.Lower(tag.s) + "." + first)
      && (r.Err? && tag.JStr? && !Truthy(id) && cls.JStr? ==> r.error.kind == IndexError)
  {
    var tag :- LowerOf(GetOr(elementData, "tagName", JStr("")));
    var id := GetOr(elementData, "id", JStr(""));
    var cls := GetOr(elementData, "className", JStr(""));
    if Truthy(id) then Ok(tag + "#" + PyStr(id))
    else if Truthy(cls) then
      if !cls.JStr? then Err(NoAttribute(cls, "split"))
      else match Strings.FirstToken(cls.s)
        case None => Err(PyError(IndexError, "list index out of range"))
        case Some(first) =>
          Ok(tag + "." + first)
    else Ok(tag)
  }

  /** A class name of whitespace only passes the truthiness guard and then
      has no first token. */
  lemma WhitespaceClassNameFails()
    ensures DomPath(map["tagName" := JStr("DIV"), "className" := JStr("  ")]).Err?
    ensures DomPath(map["tagName" := JStr("DIV"), "className" := JStr("  ")]).error.kind == IndexError
  {
    assert Strings.AllSpace("  ");
  }

  // ---- accessibility ----

  datatype Issue = MissingAlt | KeyboardInaccessible

  /** What `_check_accessibility` reads from the element: its tag, and its
      `alt` and `tabindex` attributes (`None` when absent). `intOf` is
      `int(...)` on an attribute string. */
  datatype ElementFacts = ElementFacts(tagName: string, alt: Option<string>, tabindex: Option<string>)

  predicate TruthyAttr(a: Option<string>) {
    a.Some? && |a.value| > 0
  }

  /** `int(tabindex) < 0`. */
  predicate NegativeAttr(a: Option<string>, intOf: string -> int) {
    match a
    case Some(t) => intOf(t) < 0
    case None => false
  }

  function AccessibilityIssues(el: ElementFacts, intOf: string -> int): seq<Issue> {
    var tag := Strings.Lower(el.tagName);
    (if tag == "img" && !TruthyAttr(el.alt) then [MissingAlt] else [])
    + (if tag in ["button", "a", "input"] && !TruthyAttr(el.tabindex) then
         var tabindex := el.tabindex;
         if TruthyAttr(tabindex) && NegativeAttr(tabindex, intOf) then [KeyboardInaccessible] else []
       else [])
  }

  /** `max(0, 100 - len(issues) * 20)`. */
  function Score(issues: nat): (s: int)
    ensures 0 <= s <= 100
    ensures s == 100 <==> issues == 0
    ensures issues <= 5 ==> s == 100 - 20 * issues
  {
    if 100 - issues * 20 > 0 then 100 - issues * 20 else 0
  }

  datatype AccessibilityReport = AccessibilityReport(issues: seq<Issue>, score: int)

  function CheckAccessibility(el: ElementFacts, intOf: string -> int): (r: AccessibilityReport)
    ensures 0 <= r.score <= 100
    ensures r.score == 100 <==> |r.issues| == 0
  {
    var issues := AccessibilityIssues(el, intOf);
    AccessibilityReport(issues, Score(|issues|))
  }

  /** The keyboard check needs a truthy tabindex inside a branch that only
      runs without one, so only a missing alt text is ever reported: the
      score is 80 for an `img` without alt text and 100 otherwise, whatever
      `int(...)` would have returned. */
  lemma OnlyMissingAltReported(el: ElementFacts, intOf: string -> int)
    ensures KeyboardInaccessible !in CheckAccessibility(el, intOf).issues
    ensures CheckAccessibility(el, intOf).issues
            == (if Strings.Lower(el.tagName) == "img" && !TruthyAttr(el.alt) then [MissingAlt] else [])
    ensures CheckAccessibility(el, intOf).score
            == (if Strings.Lower(el.tagName) == "img" && !TruthyAttr(el.alt) then 80 else 100)
  {
  }

  // ---- handler registry and websocket dispatch ----

  /** A registered handler, identified by the callable registered. */
  type HandlerRef = nat

  /** The state the dispatch reads: the constructor's config, the
      `event_handlers` dict and whether a websocket client exists
      (`self.ws_connection`, set on connecting and never cleared). */
  datatype Integration = Integration(config: Obj, handlers: map<string, HandlerRef>, hasClient: bool)

  /** `register_event_handler`: the newest registration for a type wins. */
  function RegisterEventHandler(st: Integration, eventType: string, h: HandlerRef): (r: Integration)
    ensures eventType in r.handlers && r.handlers[eventType] == h
    ensures forall t :: t in st.handlers && t != eventType ==> t in r.handlers && r.handlers[t] == st.handlers[t]
    ensures r.handlers.Keys == st.handlers.Keys + {eventType}
    ensures r.config == st.config && r.hasClient == st.hasClient
  {
    st.(handlers := st.handlers[eventType := h])
  }

  /** What handling one websocket frame does. */
  datatype Effect =
    | NoEffect
    | Invoke(handler: HandlerRef, message: Protocol.Message)
    | SendInspection(elementId: Value)

  /** The keyword arguments of the selection's `VisualDebugMessage`. */
  function SelectionArgs(config: Obj, elementData: Obj, domPath: string): Obj {
    map[
      "source" := JStr("stagewise"),
      "session_id" := GetOr(config, "session_id", JNull),
      "user_id" := GetOr(config, "user_id", JStr("developer")),
      "element_id" := GetOr(elementData, "id", JStr("")),
      "action" := JStr("select"),
      "properties" := JObj(elementData),
      "dom_path" := JStr(domPath)]
  }

  /** A value pydantic accepts for an `Optional[str]` field. */
  predicate OptStrValue(v: Value) {
    v == JNull || v.JStr?
  }

  predicate ConfigIdsValid(config: Obj) {
    OptStrValue(GetOr(config, "session_id", JNull)) && OptStrValue(GetOr(config, "user_id", JStr("developer")))
  }

  /** Keyword arguments that set only `source`, `session_id` and `user_id`
      among the message's own fields, the ids taken from `config`. */
  predicate IdArgs(d: Obj, config: Obj) {
    && Protocol.OmitsFields(d)
    && "source" in d && d["source"] == JStr("stagewise")
    && "session_id" in d && d["session_id"] == GetOr(config, "session_id", JNull)
    && "user_id" in d && d["user_id"] == GetOr(config, "user_id", JStr("developer"))
  }

  /** Validation of keyword arguments that set only `source`, `session_id`
      and `user_id` among the message's own fields: it succeeds exactly when
      both ids are strings or `None`. */
  lemma ValidateIds(c: Protocol.MessageClass, d: Obj, fr: Protocol.Fresh)
    requires c != Protocol.BaseClass
    requires "message_id" !in d && "message_type" !in d && "timestamp" !in d && "target" !in d
    requires "priority" !in d && "version" !in d && "payload" !in d && "metadata" !in d
    requires "source" in d && d["source"] == JStr("stagewise") && "session_id" in d && "user_id" in d
    ensures var r := Protocol.Validate(c, d, fr);
      && (r.Ok? <==> OptStrValue(d["session_id"]) && OptStrValue(d["user_id"]))
      && (r.Ok? ==> r.value.messageType == Protocol.ClassDefaultType(c).value && r.value.source == "stagewise")
  {
    assert Protocol.StrField(d, "message_id", fr.messageId) == Ok(fr.messageId);
    assert Protocol.TypeField(d, Protocol.ClassDefaultType(c)) == Ok(Protocol.ClassDefaultType(c).value);
    assert Protocol.IntField(d, "timestamp", fr.now) == Ok(fr.now);
    assert Protocol.RequiredStr(d, "source") == Ok("stagewise");
    assert Protocol.OptStrField(d, "target") == Ok(None);
    assert Protocol.PriorityField(d) == Ok(Protocol.Normal);
    assert Protocol.StrField(d, "version", "1.0") == Ok("1.0");
    assert Protocol.ObjField(d, "payload") == Ok(map[]);
    assert Protocol.ObjField(d, "metadata") == Ok(map[]);
    assert Protocol.OptStrField(d, "session_id").Ok? <==> OptStrValue(d["session_id"]);
    assert Protocol.OptStrField(d, "user_id").Ok? <==> OptStrValue(d["user_id"]);
  }

  /** The selection message validates exactly when the configured ids are
      strings or absent, and then carries the selection in its payload. */
  lemma SelectionMessage(config: Obj, elementData: Obj, domPath: string, fr: Protocol.Fresh)
    ensures var r := Protocol.Construct(Protocol.VisualDebugClass, SelectionArgs(config, elementData, domPath), fr);
      && (r.Ok? <==> ConfigIdsValid(config))
      && (r.Ok? ==>
            && r.value.messageType == Protocol.VisualDebug
            && r.value.source == "stagewise"
            && "action" in r.value.payload && r.value.payload["action"] == JStr("select")
            && "element_id" in r.value.payload && r.value.payload["element_id"] == GetOr(elementData, "id", JStr(""))
            && "dom_path" in r.value.payload && r.value.payload["dom_path"] == JStr(domPath))
  {
    var d := SelectionArgs(config, elementData, domPath);
    SelectionArgsShape(config, elementData, domPath);
    SelectionFromArgs(d, config, elementData, domPath, fr);
  }

  lemma SelectionArgsShape(config: Obj, elementData: Obj, domPath: string)
    ensures var d := SelectionArgs(config, elementData, domPath);
      && IdArgs(d, config)
      && "action" in d && d["action"] == JStr("select")
      && "element_id" in d && d["element_id"] == GetOr(elementData, "id", JStr(""))
      && "dom_path" in d && d["dom_path"] == JStr(domPath)
  {
    SelectionArgsOmitFields(config, elementData, domPath);
  }

  lemma SelectionArgsOmitFields(config: Obj, elementData: Obj, domPath: string)
    ensures Protocol.OmitsFields(SelectionArgs(config, elementData, domPath))
  {
  }

  lemma SelectionFromArgs(d: Obj, config: Obj, elementData: Obj, domPath: string, fr: Protocol.Fresh)
    requires IdArgs(d, config)
    requires "action" in d && d["action"] == JStr("select")
    requires "element_id" in d && d["element_id"] == GetOr(elementData, "id", JStr(""))
    requires "dom_path" in d && d["dom_path"] == JStr(domPath)
    ensures var r := Protocol.Construct(Protocol.VisualDebugClass, d, fr);
      && (r.Ok? <==> ConfigIdsValid(config))
      && (r.Ok? ==>
            && r.value.messageType == Protocol.VisualDebug
            && r.value.source == "stagewise"
            && "action" in r.value.payload && r.value.payload["action"] == JStr("select")
            && "element_id" in r.value.payload && r.value.payload["element_id"] == GetOr(elementData, "id", JStr(""))
            && "dom_path" in r.value.payload && r.value.payload["dom_path"] == JStr(domPath))
  {
    var c := Protocol.VisualDebugClass;
    ValidateIds(c, d, fr);
    assert "action" in Protocol.ListedKeys(c) && "element_id" in Protocol.ListedKeys(c) && "dom_path" in Protocol.ListedKeys(c);
  }

  /** `_handle_element_selection`: the payload is built, then the handler
      registered for `element_selected`, if any, receives it. */
  function HandleSelection(st: Integration, eventData: Value, fr: Protocol.Fresh): (r: Result<Effect, PyError>)
    ensures !eventData.JObj? ==> r.Err? && r.error.kind == AttributeError
    ensures eventData.JObj? ==>
      (r.Ok? <==> DomPath(eventData.fields).Ok? && ConfigIdsValid(st.config))
    ensures r.Ok? ==> (r.value == NoEffect <==> "element_selected" !in st.handlers)
    ensures r.Ok? && r.value != NoEffect ==>
      && r.value.Invoke?
      && "element_selected" in st.handlers && r.value.handler == st.handlers["element_selected"]
      && r.value.message.messageType == Protocol.VisualDebug
      && r.value.message.source == "stagewise"
      && "action" in r.value.message.payload && r.value.message.payload["action"] == JStr("select")
      && "element_id" in r.value.message.payload
      && r.value.message.payload["element_id"] == GetOr(eventData.fields, "id", JStr(""))
  {
    match eventData
    case JObj(fields) =>
      var path :- DomPath(fields);
      SelectionMessage(st.config, fields, path, fr);
      var m :- Protocol.Construct(Protocol.VisualDebugClass, SelectionArgs(st.config, fields, path), fr);
      if "element_selected" in st.handlers then Ok(Invoke(st.handlers["element_selected"], m))
      else Ok(NoEffect)
    case _ => Err(NoAttribute(eventData, "get"))
  }

  /** The keyword arguments of the modification's `UIModificationMessage`;
      the id is `stagewise_<int(time.time())>`. */
  function ModificationArgs(config: Obj, modificationData: Obj, now: int): Obj {
    map[
      "source" := JStr("stagewise"),
      "session_id" := GetOr(config, "session_id", JNull),
      "user_id" := GetOr(config, "user_id", JStr("developer")),
      "modification_id" := JStr("stagewise_" + Strings.IntToString(now)),
      "target_element" := GetOr(modificationData, "element_id", JStr("")),
      "modification_type" := GetOr(modificationData, "type", JStr("style")),
      "parameters" := GetOr(modificationData, "parameters", JObj(map[]))]
  }

  /** The modification message validates exactly when the configured ids
      are strings or absent, and then carries the requested change. */
  lemma ModificationMessage(config: Obj, modificationData: Obj, now: int, fr: Protocol.Fresh)
    ensures var r := Protocol.Construct(Protocol.UiModificationClass, ModificationArgs(config, modificationData, now), fr);
      && (r.Ok? <==> ConfigIdsValid(config))
      && (r.Ok? ==>
            && r.value.messageType == Protocol.UiModification
            && r.value.source == "stagewise"
            && "target_element" in r.value.payload
            && r.value.payload["target_element"] == GetOr(modificationData, "element_id", JStr(""))
            && "modification_type" in r.value.payload
            && r.value.payload["modification_type"] == GetOr(modificationData, "type", JStr("style"))
            && "modification_id" in r.value.payload
            && r.value.payload["modification_id"] == JStr("stagewise_" + Strings.IntToString(now)))
  {
    var d := ModificationArgs(config, modificationData, now);
    ModificationArgsShape(config, modificationData, now);
    ModificationFromArgs(d, config, modificationData, now, fr);
  }

  lemma ModificationArgsShape(config: Obj, modificationData: Obj, now: int)
    ensures var d := ModificationArgs(config, modificationData, now);
      && IdArgs(d, config)
      && "target_element" in d && d["target_element"] == GetOr(modificationData, "element_id", JStr(""))
      && "modification_type" in d && d["modification_type"] == GetOr(modificationData, "type", JStr("style"))
      && "modification_id" in d && d["modification_id"] == JStr("stagewise_" + Strings.IntToString(now))
  {
    ModificationArgsOmitFields(config, modificationData, now);
  }

  lemma ModificationArgsOmitFields(config: Obj, modificationData: Obj, now: int)
    ensures Protocol.OmitsFields(ModificationArgs(config, modificationData, now))
  {
  }

  lemma ModificationFromArgs(d: Obj, config: Obj, modificationData: Obj, now: int, fr: Protocol.Fresh)
    requires IdArgs(d, config)
    requires "target_element" in d && d["target_element"] == GetOr(modificationData, "element_id", JStr(""))
    requires "modification_type" in d && d["modification_type"] == GetOr(modificationData, "type", JStr("style"))
    requires "modification_id" in d && d["modification_id"] == JStr("stagewise_" + Strings.IntToString(now))
    ensures var r := Protocol.Construct(Protocol.UiModificationClass, d, fr);
      && (r.Ok? <==> ConfigIdsValid(config))
      && (r.Ok? ==>
            && r.value.messageType == Protocol.UiModification
            && r.value.source == "stagewise"
            && "target_element" in r.value.payload
            && r.value.payload["target_element"] == GetOr(modificationData, "element_id", JStr(""))
            && "modification_type" in r.value.payload
            && r.value.payload["modification_type"] == GetOr(modificationData, "type", JStr("style"))
            && "modification_id" in r.value.payload
            && r.value.payload["modification_id"] == JStr("stagewise_" + Strings.IntToString(now)))
  {
    var c := Protocol.UiModificationClass;
    ValidateIds(c, d, fr);
    assert "target_element" in Protocol.ListedKeys(c) && "modification_type" in Protocol.ListedKeys(c);
    assert "modification_id" in Protocol.ListedKeys(c);
  }

  /** `_handle_element_modification`. */
  function HandleModification(st: Integration, eventData: Value, fr: Protocol.Fresh, now: int)
    : (r: Result<Effect, PyError>)
    ensures !eventData.JObj? ==> r.Err? && r.error.kind == AttributeError
    ensures eventData.JObj? ==> (r.Ok? <==> ConfigIdsValid(st.config))
    ensures r.Ok? ==> (r.value == NoEffect <==> "element_modified" !in st.handlers)
    ensures r.Ok? && r.value != NoEffect ==>
      && r.value.Invoke?
      && "element_modified" in st.handlers && r.value.handler == st.handlers["element_modified"]
      && r.value.message.messageType == Protocol.UiModification
      && "target_element" in r.value.message.payload
      && r.value.message.payload["target_element"] == GetOr(eventData.fields, "element_id", JStr(""))
      && "modification_id" in r.value.message.payload
      && r.value.message.payload["modification_id"] == JStr("stagewise_" + Strings.IntToString(now))
  {
    match eventData
    case JObj(fields) =>
      ModificationMessage(st.config, fields, now, fr);
      var m :- Protocol.Construct(Protocol.UiModificationClass, ModificationArgs(st.config, fields, now), fr);
      if "element_modified" in st.handlers then Ok(Invoke(st.handlers["element_modified"], m))
      else Ok(NoEffect)
    case _ => Err(NoAttribute(eventData, "get"))
  }

  /** `_handle_inspection_request`: a falsy `element_id` ends the request;
      otherwise the result goes out only when a websocket client exists. */
  function HandleInspection(st: Integration, eventData: Value): (r: Result<Effect, PyError>)
    ensures r.Err? <==> !eventData.JObj?
    ensures r.Ok? ==> var id := GetOr(eventData.fields, "element_id", JNull);
      r.value == (if Truthy(id) && st.hasClient then SendInspection(id) else NoEffect)
  {
    var id :- DictGet(eventData, "element_id", JNull);
    if !Truthy(id) then Ok(NoEffect)
    else if st.hasClient then Ok(SendInspection(id))
    else Ok(NoEffect)
  }

  /** `_handle_websocket_message`. `frame` is the outcome of `json.loads`;
      a decode error is caught and ignored, every other exception escapes. */
  function HandleWebsocketMessage(st: Integration, frame: Result<Value, PyError>, fr: Protocol.Fresh, now: int)
    : (r: Result<Effect, PyError>)
    ensures frame.Err? ==> r == Ok(NoEffect)
    ensures frame.Ok? && !frame.value.JObj? ==> r.Err? && r.error.kind == AttributeError
    ensures frame.Ok? && frame.value.JObj? ==>
      var t := GetOr(frame.value.fields, "type", JNull);
      var data := GetOr(frame.value.fields, "data", JObj(map[]));
      && (t == JStr("element_selected") ==> r == HandleSelection(st, data, fr))
      && (t == JStr("element_modified") ==> r == HandleModification(st, data, fr, now))
      && (t == JStr("inspection_request") ==> r == HandleInspection(st, data))
  {
    if frame.Err? then Ok(NoEffect)
    else
      match frame.value
      case JObj(fields) =>
        var t := GetOr(fields, "type", JNull);
        var data := GetOr(fields, "data", JObj(map[]));
        if t == JStr("element_selected") then HandleSelection(st, data, fr)
        else if t == JStr("element_modified") then HandleModification(st, data, fr, now)
        else if t == JStr("inspection_request") then HandleInspection(st, data)
        else Ok(NoEffect)
      case _ => Err(NoAttribute(frame.value, "get"))
  }

  predicate KnownEvent(t: Value) {
    t == JStr("element_selected") || t == JStr("element_modified") || t == JStr("inspection_request")
  }

  /** Only the three known event types do anything: a frame of any other type,
      or one that does not decode, has no effect and raises nothing. */
  lemma OnlyKnownEventsAct(st: Integration, frame: Result<Value, PyError>, fr: Protocol.Fresh, now: int)
    ensures var r := HandleWebsocketMessage(st, frame, fr, now);
      r.Ok? && r.value != NoEffect ==> frame.Ok? && frame.value.JObj? && KnownEvent(GetOr(frame.value.fields, "type", JNull))
    ensures frame.Ok? && frame.value.JObj? && !KnownEvent(GetOr(frame.value.fields, "type", JNull)) ==>
      HandleWebsocketMessage(st, frame, fr, now) == Ok(NoEffect)
  {
  }

  /** An inspection request without an element id sends nothing, whether or not a websocket client exists. */
  lemma InspectionWithoutIdSendsNothing(st: Integration, fields: Obj, fr: Protocol.Fresh, now: int)
    requires GetOr(fields, "type", JNull) == JStr("inspection_request")
    requires var data := GetOr(fields, "data", JObj(map[])); data.JObj? && !Truthy(GetOr(data.fields, "element_id", JNull))
    ensures HandleWebsocketMessage(st, Ok(JObj(fields)), fr, now) == Ok(NoEffect)
  {
  }

  /** After registering `h` for selections, every selection frame that goes
      through reaches `h` and no earlier handler. */
  lemma RegisteredSelectionHandlerInvoked(st: Integration, h: HandlerRef, data: Obj, fr: Protocol.Fresh, now: int)
    ensures var st2 := RegisterEventHandler(st, "element_selected", h);
      var r := HandleWebsocketMessage(st2, Ok(JObj(map["type" := JStr("element_selected"), "data" := JObj(data)])), fr, now);
      r.Ok? ==> r.value.Invoke? && r.value.handler == h
  {
    var st2 := RegisterEventHandler(st, "element_selected", h);
    var fields := map["type" := JStr("element_selected"), "data" := JObj(data)];
    assert GetOr(fields, "type", JNull) == JStr("element_selected");
    assert GetOr(fields, "data", JObj(map[])) == JObj(data);
  }

  /** Without a registered handler a selection or modification frame has no effect. */
  lemma NoHandlerNoEffect(st: Integration, frame: Result<Value, PyError>, fr: Protocol.Fresh, now: int)
    requires "element_selected" !in st.handlers && "element_modified" !in st.handlers
    requires frame.Ok? && frame.value.JObj?
    requires GetOr(frame.value.fields, "type", JNull) in [JStr("element_selected"), JStr("element_modified")]
    ensures HandleWebsocketMessage(st, frame, fr, now).Ok? ==> HandleWebsocketMessage(st, frame, fr, now) == Ok(NoEffect)
  {
  }
}
