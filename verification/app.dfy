/** The application layer of `SmartUIFusionApp` (src/main.py): the
    websocket connection registry, per-user session ids, the recording
    helper and the top-level websocket message dispatch with its three
    handlers. The web framework, sockets and logging are not modelled;
    clock readings and fresh ids are parameters. */
module App {
  import opened Wrappers
  import opened Json
  import Strings
  import Protocol
  import Engine = EnhancedEngine
  import Analyzer = UserAnalyzer

  // ---- connection registry ----

  /** An accepted websocket, identified by the object itself. */
  type Socket = nat

  /** `f"conn_{len(self.active_connections)}"`. */
  function ConnectionId(live: map<string, Socket>): string {
    "conn_" + Strings.NatToString(|live|)
  }

  /** Admission: the new socket is stored under an id made from the number
      of live connections, replacing whatever that id held. */
  function Admit(live: map<string, Socket>, ws: Socket): (r: (map<string, Socket>, string))
    ensures r.1 == ConnectionId(live)
    ensures r.1 in r.0 && r.0[r.1] == ws
    ensures r.0.Keys == live.Keys + {r.1}
    ensures forall id :: id in live && id != r.1 ==> r.0[id] == live[id]
  {
    var id := ConnectionId(live);
    (live[id := ws], id)
  }

  /** The `finally` clause: remove the id if it is still there. */
  function Remove(live: map<string, Socket>, id: string): (r: map<string, Socket>)
    ensures id !in r
    ensures r.Keys == live.Keys - {id}
    ensures forall k :: k in r ==> r[k] == live[k]
  {
    if id in live then live - {id} else live
  }

  /** Removing twice is removing once. */
  lemma RemoveIdempotent(live: map<string, Socket>, id: string)
    ensures Remove(Remove(live, id), id) == Remove(live, id)
  {
  }

  /** When the next id is already live, admission overwrites that
      connection: the registry does not grow and the earlier socket is gone. */
  lemma AdmitOverwritesLiveId(live: map<string, Socket>, ws: Socket)
    requires ConnectionId(live) in live && live[ConnectionId(live)] != ws
    ensures var r := Admit(live, ws);
      |r.0| == |live| && r.0[ConnectionId(live)] != live[ConnectionId(live)]
  {
    var r := Admit(live, ws);
    assert r.0.Keys == live.Keys;
    assert |r.0.Keys| == |live.Keys|;
  }

  lemma FirstTwoIds(live: map<string, Socket>)
    ensures |live| == 0 ==> ConnectionId(live) == "conn_0"
    ensures |live| == 1 ==> ConnectionId(live) == "conn_1"
    ensures "conn_0" != "conn_1"
  {
    assert Strings.NatToString(0) == "0";
    assert Strings.NatToString(1) == "1";
    assert "conn_0"[5] != "conn_1"[5];
  }

  /** Two sockets are admitted as conn_0 and conn_1; after conn_0 leaves, a
      third socket is also named conn_1 and replaces the second, still live. */
  lemma ConnectionIdReused(a: Socket, b: Socket, c: Socket)
    ensures var m1 := Admit(map[], a).0;
      var m2 := Admit(m1, b).0;
      var m3 := Remove(m2, Admit(map[], a).1);
      && Admit(map[], a).1 == "conn_0"
      && Admit(m1, b).1 == "conn_1"
      && Admit(m3, c).1 == "conn_1"
      && Admit(m3, c).0 == map["conn_1" := c]
  {
    var e: map<string, Socket> := map[];
    FirstTwoIds(e);
    var m1 := Admit(e, a).0;
    assert m1 == map["conn_0" := a];
    FirstTwoIds(m1);
    var m2 := Admit(m1, b).0;
    assert m2 == map["conn_0" := a, "conn_1" := b];
    var m3 := Remove(m2, "conn_0");
    assert m3 == map["conn_1" := b];
    FirstTwoIds(m3);
  }

  // ---- sessions ----

  /** A `user_sessions` entry. */
  datatype SessionEntry = SessionEntry(sessionId: string, startTime: int, lastActivity: int)

  /** One reading of `datetime.now()`: whole seconds, and the text of
      `.timestamp()` as an f-string prints it. */
  datatype Clock = Clock(now: int, stamp: string)

  /** `_get_or_create_session_id`: the first call for a user makes the id
      `session_<user>_<stamp>`, later calls return it and only touch
      `last_activity`. An unhashable user id makes the lookup raise. */
  function GetOrCreateSessionId(sessions: map<Value, SessionEntry>, user: Value, clock: Clock)
    : (r: Result<(map<Value, SessionEntry>, string), PyError>)
    ensures r.Err? <==> !Hashable(user)
    ensures r.Ok? ==> user in r.value.0 && r.value.0[user].sessionId == r.value.1
                      && r.value.0[user].lastActivity == clock.now
    ensures r.Ok? ==> r.value.0.Keys == sessions.Keys + {user}
                      && forall u :: u in sessions && u != user ==> r.value.0[u] == sessions[u]
    ensures r.Ok? && user in sessions ==> r.value.0[user] == sessions[user].(lastActivity := clock.now)
    ensures r.Ok? && user !in sessions ==>
      r.value.0[user] == SessionEntry("session_" + PyStr(user) + "_" + clock.stamp, clock.now, clock.now)
  {
    if !Hashable(user) then Err(Unhashable(user))
    else if user !in sessions then
      var e := SessionEntry("session_" + PyStr(user) + "_" + clock.stamp, clock.now, clock.now);
      Ok((sessions[user := e], e.sessionId))
    else
      Ok((sessions[user := sessions[user].(lastActivity := clock.now)], sessions[user].sessionId))
  }

  /** A later call returns the id of the first and changes nothing but the
      user's `last_activity`. */
  lemma SessionIdStable(sessions: map<Value, SessionEntry>, user: Value, c1: Clock, c2: Clock)
    requires Hashable(user)
    ensures var (s1, id1) := GetOrCreateSessionId(sessions, user, c1).value;
      var (s2, id2) := GetOrCreateSessionId(s1, user, c2).value;
      && id2 == id1
      && s2 == s1[user := s1[user].(lastActivity := c2.now)]
  {
  }

  // ---- recording ----

  /** The application state this layer updates. */
  datatype App = App(connections: map<string, Socket>, sessions: map<Value, SessionEntry>, analyzer: Analyzer.State)

  /** A duration read from a payload; only numbers are kept. */
  function DurationOf(v: Value): real {
    match AsNumber(v)
    case Ok(x) => x
    case Err(_) => 0.0
  }

  /** `_record_user_interaction`: get or create the user's session, then
      hand the interaction to the analyzer. Any exception is logged and
      swallowed, so the state is left as it was when the session lookup fails. */
  function RecordUserInteraction(app: App, user: Value, t: Analyzer.InteractionType, action: Value,
                                 elementId: Value, context: Obj, success: bool, duration: real,
                                 errorMessage: Option<string>, clock: Clock): (r: App)
    ensures !Hashable(user) ==> r == app
    ensures Hashable(user) ==>
      && r.connections == app.connections
      && user in r.sessions
      && user in r.analyzer.history
      && var h := r.analyzer.history[user];
         && |h| > 0
         && h[|h| - 1].interactionType == t && h[|h| - 1].action == action
         && h[|h| - 1].success == success && h[|h| - 1].elementId == elementId
         && h[|h| - 1].sessionId == JStr(r.sessions[user].sessionId)
  {
    match GetOrCreateSessionId(app.sessions, user, clock)
    case Err(_) => app
    case Ok((sessions, sid)) =>
      var i := Analyzer.Interaction("auto_" + clock.stamp, user, JStr(sid), clock.now, t, elementId,
                                    GetOr(context, "element_type", JNull), action, JObj(context),
                                    success, duration, errorMessage);
      app.(sessions := sessions, analyzer := Analyzer.RecordInteraction(app.analyzer, i).0)
  }

  // ---- responses ----

  function Failure(text: string): (r: Obj)
    ensures "success" in r && r["success"] == JBool(false) && "error" in r && r["error"] == JStr(text)
  {
    map["success" := JBool(false), "error" := JStr(text)]
  }

  function Success(messageType: string, data: Value): (r: Obj)
    ensures "success" in r && r["success"] == JBool(true)
    ensures "message_type" in r && r["message_type"] == JStr(messageType)
  {
    map["success" := JBool(true), "message_type" := JStr(messageType), "data" := data]
  }

  predicate IsFailure(r: Obj) {
    "success" in r && r["success"] == JBool(false) && "error" in r && r["error"].JStr?
  }

  /** How a produced UI modification is turned into the response's `data`. */
  type Render = Protocol.Message -> Result<Value, PyError>

  /** `ui_modification.to_dict()` as written: a pydantic message has no
      `to_dict`, so the attribute lookup raises. */
  function ToDictAsWritten(m: Protocol.Message): (r: Result<Value, PyError>)
    ensures r.Err? && r.error.kind == AttributeError
  {
    Err(PyError(AttributeError, "'UIModificationMessage' object has no attribute 'to_dict'"))
  }

  /** The evident intent: the message's field dictionary. */
  function ToDictCorrected(m: Protocol.Message): (r: Result<Value, PyError>)
    ensures r.Ok? && r.value.JObj? && r.value.fields.Keys == Protocol.FieldNames()
  {
    Ok(JObj(Protocol.Serialize(m)))
  }

  /** One of the decision engine's entry points. */
  type EngineCall = Protocol.Message -> Result<Option<Protocol.Message>, PyError>

  /** What the handlers need besides the message: the decision engine's two
      entry points, the analyzer's real-time analysis, and fresh ids. */
  datatype Deps = Deps(voice: EngineCall, visual: EngineCall, analysis: Result<Value, PyError>,
                       fr: Protocol.Fresh)

  /** The application's own decision engine behind the two entry points. */
  function EngineDeps(cfg: Engine.Config, oracle: Engine.Oracle, analysis: Result<Value, PyError>,
                      fr: Protocol.Fresh, modFr: Protocol.Fresh): (d: Deps)
    ensures forall m :: d.voice(m) == Engine.ProcessVoiceCommand(cfg, m, oracle, modFr)
    ensures forall m :: d.visual(m) == Engine.ProcessVisualDebug(cfg, m, oracle, modFr)
  {
    Deps(m => Engine.ProcessVoiceCommand(cfg, m, oracle, modFr),
         m => Engine.ProcessVisualDebug(cfg, m, oracle, modFr), analysis, fr)
  }

  // ---- voice ----

  /** The `except` branch of `_handle_voice_command`: record a failed voice
      interaction for the raw `user_id`, answer with the error text. */
  function VoiceFailure(app: App, data: Obj, text: string, clock: Clock): (r: (App, Obj))
    ensures r.1 == Failure(text)
  {
    (RecordUserInteraction(app, GetOr(data, "user_id", JStr("anonymous")), Analyzer.Voice,
                           JStr("voice_command"), JStr("voice_interface"), map["error" := JStr(text)],
                           false, 0.0, Some(text), clock),
     Failure(text))
  }

  /** The successful voice interaction recorded before the engine runs. */
  function RecordVoice(app: App, m: Protocol.Message, clock: Clock): App {
    RecordUserInteraction(app, OptStr(m.userId), Analyzer.Voice, JStr("voice_command"), JStr("voice_interface"),
                          map["transcript" := GetOr(m.payload, "transcript", JStr("")),
                              "confidence" := GetOr(m.payload, "confidence", JInt(0))],
                          true, DurationOf(GetOr(m.payload, "duration", JInt(0))), None, clock)
  }

  /** `_handle_voice_command`, with the rendering of the produced message as
      a parameter. */
  function VoiceCommand(app: App, data: Obj, deps: Deps, clock: Clock, render: Render): (r: (App, Obj))
    ensures "success" in r.1 && r.1["success"].JBool?
    ensures r.1["success"] == JBool(false) ==> IsFailure(r.1)
    ensures (forall m :: render(m).Err?) ==> IsFailure(r.1)
    ensures Protocol.Construct(Protocol.VoiceCommandClass, data, deps.fr).Err? ==>
      r == VoiceFailure(app, data, Protocol.Construct(Protocol.VoiceCommandClass, data, deps.fr).error.text, clock)
    ensures var mr := Protocol.Construct(Protocol.VoiceCommandClass, data, deps.fr);
      mr.Ok? ==> var u := deps.voice(mr.value);
        && (u == Ok(None) ==> r == (RecordVoice(app, mr.value, clock), Failure("Unable to process voice command")))
        && (u.Ok? && u.value.Some? && render(u.value.value).Ok? ==>
              r == (RecordVoice(app, mr.value, clock), Success("ui_modification", render(u.value.value).value)))
        && (u.Ok? && u.value.Some? && render(u.value.value).Err? ==>
              r == VoiceFailure(RecordVoice(app, mr.value, clock), data, render(u.value.value).error.text, clock))
        && (u.Err? ==> r == VoiceFailure(RecordVoice(app, mr.value, clock), data, u.error.text, clock))
  {
    match Protocol.Construct(Protocol.VoiceCommandClass, data, deps.fr)
    case Err(e) => VoiceFailure(app, data, e.text, clock)
    case Ok(m) =>
      var app1 := RecordVoice(app, m, clock);
      match deps.voice(m)
      case Err(e) => VoiceFailure(app1, data, e.text, clock)
      case Ok(None) => (app1, Failure("Unable to process voice command"))
      case Ok(Some(u)) =>
        match render(u)
        case Err(e) => VoiceFailure(app1, data, e.text, clock)
        case Ok(v) => (app1, Success("ui_modification", v))
  }

  /** The handler as written never answers with success. */
  lemma VoiceAsWrittenNeverSucceeds(app: App, data: Obj, deps: Deps, clock: Clock)
    ensures IsFailure(VoiceCommand(app, data, deps, clock, ToDictAsWritten).1)
  {
    assert forall m :: ToDictAsWritten(m).Err?;
  }

  /** With the corrected rendering, a produced modification is answered with
      success, message type `ui_modification` and the message's fields. */
  lemma VoiceCorrectedSucceeds(app: App, data: Obj, deps: Deps, clock: Clock)
    ensures var mr := Protocol.Construct(Protocol.VoiceCommandClass, data, deps.fr);
      mr.Ok? ==> var u := deps.voice(mr.value);
        u.Ok? && u.value.Some? ==>
          VoiceCommand(app, data, deps, clock, ToDictCorrected).1
          == Success("ui_modification", JObj(Protocol.Serialize(u.value.value)))
  {
    assert forall m :: ToDictCorrected(m) == Ok(JObj(Protocol.Serialize(m)));
  }

  // ---- visual debug ----

  function VisualFailure(app: App, data: Obj, text: string, clock: Clock): (r: (App, Obj))
    ensures r.1 == Failure(text)
  {
    (RecordUserInteraction(app, GetOr(data, "user_id", JStr("anonymous")), Analyzer.Visual,
                           JStr("visual_debug"), JStr("visual_interface"), map["error" := JStr(text)],
                           false, 0.0, Some(text), clock),
     Failure(text))
  }

  /** The successful visual interaction recorded before the engine runs;
      reading the selected element's id raises when it is not a dict. */
  function RecordVisual(app: App, m: Protocol.Message, clock: Clock): (r: Result<App, PyError>)
    ensures var selected := GetOr(m.payload, "selected_element", JObj(map[]));
      && (r.Ok? <==> selected.JObj?)
      && (r.Err? ==> r.error == NoAttribute(selected, "get"))
  {
    var selected := GetOr(m.payload, "selected_element", JObj(map[]));
    var elementId :- DictGet(selected, "id", JStr("unknown"));
    Ok(RecordUserInteraction(app, OptStr(m.userId), Analyzer.Visual, JStr("visual_debug"), elementId,
                             map["debug_action" := GetOr(m.payload, "debug_action", JStr("")),
                                 "selected_element" := selected],
                             true, 0.0, None, clock))
  }

  /** `_handle_visual_debug`, with the rendering as a parameter. */
  function VisualDebug(app: App, data: Obj, deps: Deps, clock: Clock, render: Render): (r: (App, Obj))
    ensures "success" in r.1 && r.1["success"].JBool?
    ensures r.1["success"] == JBool(false) ==> IsFailure(r.1)
    ensures (forall m :: render(m).Err?) ==> IsFailure(r.1)
    ensures Protocol.Construct(Protocol.VisualDebugClass, data, deps.fr).Err? ==>
      r == VisualFailure(app, data, Protocol.Construct(Protocol.VisualDebugClass, data, deps.fr).error.text, clock)
    ensures var mr := Protocol.Construct(Protocol.VisualDebugClass, data, deps.fr);
      mr.Ok? && RecordVisual(app, mr.value, clock).Err? ==>
        r == VisualFailure(app, data, RecordVisual(app, mr.value, clock).error.text, clock)
    ensures var mr := Protocol.Construct(Protocol.VisualDebugClass, data, deps.fr);
      mr.Ok? && RecordVisual(app, mr.value, clock).Ok? ==>
        var app1 := RecordVisual(app, mr.value, clock).value;
        var u := deps.visual(mr.value);
        && (u == Ok(None) ==> r == (app1, Failure("Unable to process visual debug command")))
        && (u.Ok? && u.value.Some? && render(u.value.value).Ok? ==>
              r == (app1, Success("ui_modification", render(u.value.value).value)))
        && (u.Ok? && u.value.Some? && render(u.value.value).Err? ==>
              r == VisualFailure(app1, data, render(u.value.value).error.text, clock))
        && (u.Err? ==> r == VisualFailure(app1, data, u.error.text, clock))
  {
    match Protocol.Construct(Protocol.VisualDebugClass, data, deps.fr)
    case Err(e) => VisualFailure(app, data, e.text, clock)
    case Ok(m) =>
      match RecordVisual(app, m, clock)
      case Err(e) => VisualFailure(app, data, e.text, clock)
      case Ok(app1) =>
        match deps.visual(m)
        case Err(e) => VisualFailure(app1, data, e.text, clock)
        case Ok(None) => (app1, Failure("Unable to process visual debug command"))
        case Ok(Some(u)) =>
          match render(u)
          case Err(e) => VisualFailure(app1, data, e.text, clock)
          case Ok(v) => (app1, Success("ui_modification", v))
  }

  lemma VisualAsWrittenNeverSucceeds(app: App, data: Obj, deps: Deps, clock: Clock)
    ensures IsFailure(VisualDebug(app, data, deps, clock, ToDictAsWritten).1)
  {
    assert forall m :: ToDictAsWritten(m).Err?;
  }

  lemma VisualCorrectedSucceeds(app: App, data: Obj, deps: Deps, clock: Clock)
    ensures var mr := Protocol.Construct(Protocol.VisualDebugClass, data, deps.fr);
      mr.Ok? && RecordVisual(app, mr.value, clock).Ok? ==>
        var u := deps.visual(mr.value);
        u.Ok? && u.value.Some? ==>
          VisualDebug(app, data, deps, clock, ToDictCorrected).1
          == Success("ui_modification", JObj(Protocol.Serialize(u.value.value)))
  {
    assert forall m :: ToDictCorrected(m) == Ok(JObj(Protocol.Serialize(m)));
  }

  // ---- user interaction ----

  /** The `UserInteraction` built from a user-interaction message. */
  function InteractionFrom(m: Protocol.Message, t: Analyzer.InteractionType, clock: Clock): (r: Analyzer.Interaction)
    ensures r.userId == OptStr(m.userId) && Hashable(r.userId) && Hashable(r.sessionId)
  {
    Analyzer.Interaction("ui_" + clock.stamp, OptStr(m.userId), OptStr(m.sessionId), clock.now, t,
                         GetOr(m.payload, "element_id", JNull), GetOr(m.payload, "element_type", JNull),
                         GetOr(m.payload, "action", JStr("unknown")), GetOr(m.payload, "context", JObj(map[])),
                         Truthy(GetOr(m.payload, "success", JBool(true))),
                         DurationOf(GetOr(m.payload, "duration", JInt(0))), None)
  }

  /** The analyzer after `analyze_user_behavior` for `user`: it creates the
      user's profile when there is none. (A cached analysis returns before
      that step, but is only cached once the profile exists.) */
  function WithProfile(st: Analyzer.State, user: Value, now: int): (r: Analyzer.State)
    ensures Hashable(user) ==> user in r.profiles
    ensures r.history == st.history && r.sessions == st.sessions
    ensures forall u :: u in st.profiles ==> u in r.profiles && r.profiles[u] == st.profiles[u]
    ensures r.profiles.Keys <= st.profiles.Keys + {user}
  {
    match Analyzer.GetOrCreateProfile(st, user, now)
    case Ok((st1, _)) => st1
    case Err(_) => st
  }

  /** The analyzer after an interaction is recorded and analysed. */
  function AfterInteraction(st: Analyzer.State, i: Analyzer.Interaction, now: int): Analyzer.State {
    WithProfile(Analyzer.RecordInteraction(st, i).0, i.userId, now)
  }

  /** The part of `_handle_user_interaction` after the interaction is
      built: record it, then answer with the analysis. */
  function RecordAndAnalyze(app: App, i: Analyzer.Interaction, analysis: Result<Value, PyError>, now: int)
    : (r: (App, Obj))
    ensures "success" in r.1 && r.1["success"].JBool?
    ensures r.1["success"] == JBool(false) ==> IsFailure(r.1)
    ensures !Hashable(i.userId) || !Hashable(i.sessionId) ==>
      r == (app.(analyzer := Analyzer.RecordInteraction(app.analyzer, i).0), Failure("Failed to record interaction"))
    ensures Hashable(i.userId) && Hashable(i.sessionId) ==>
      && r.0 == app.(analyzer := AfterInteraction(app.analyzer, i, now))
      && (analysis.Err? ==> r.1 == Failure(analysis.error.text))
      && (analysis.Ok? ==> r.1 == Success("interaction_recorded",
                                          JObj(map["recorded" := JBool(true), "real_time_analysis" := analysis.value])))
  {
    var (st, ok) := Analyzer.RecordInteraction(app.analyzer, i);
    if !ok then (app.(analyzer := st), Failure("Failed to record interaction"))
    else
      var app1 := app.(analyzer := WithProfile(st, i.userId, now));
      match analysis
      case Err(e) => (app1, Failure(e.text))
      case Ok(a) => (app1, Success("interaction_recorded", JObj(map["recorded" := JBool(true), "real_time_analysis" := a])))
  }

  /** The constructor overwrites the payload's interaction type with the
      top-level argument, whose default is "". */
  lemma UserInteractionTypeArgument(data: Obj, fr: Protocol.Fresh)
    requires Protocol.Construct(Protocol.UserInteractionClass, data, fr).Ok?
    ensures GetOr(Protocol.Construct(Protocol.UserInteractionClass, data, fr).value.payload, "interaction_type", JStr("mouse"))
            == GetOr(data, "interaction_type", JStr(""))
  {
    assert "interaction_type" in Protocol.ListedKeys(Protocol.UserInteractionClass);
  }

  /** The message and interaction type `_handle_user_interaction` reads. */
  function UserInteractionInput(data: Obj, fr: Protocol.Fresh)
    : (r: Result<(Protocol.Message, Analyzer.InteractionType), PyError>)
    ensures var mr := Protocol.Construct(Protocol.UserInteractionClass, data, fr);
      var tr := Analyzer.ParseInteractionType(GetOr(data, "interaction_type", JStr("")));
      && (mr.Err? ==> r == Err(mr.error))
      && (mr.Ok? && tr.Err? ==> r == Err(tr.error))
      && (mr.Ok? && tr.Ok? ==> r == Ok((mr.value, tr.value)))
  {
    var m :- Protocol.Construct(Protocol.UserInteractionClass, data, fr);
    UserInteractionTypeArgument(data, fr);
    var t :- Analyzer.ParseInteractionType(GetOr(m.payload, "interaction_type", JStr("mouse")));
    Ok((m, t))
  }

  /** `_handle_user_interaction`. The interaction type is read from the
      payload after the constructor has overwritten it with the top-level
      `interaction_type` argument (default ""). A well-formed message is
      always recorded, and its user then has a profile. */
  function UserInteraction(app: App, data: Obj, deps: Deps, clock: Clock): (r: (App, Obj))
    ensures "success" in r.1 && r.1["success"].JBool?
    ensures r.1["success"] == JBool(false) ==> IsFailure(r.1)
    ensures UserInteractionInput(data, deps.fr).Err? ==>
      r == (app, Failure(UserInteractionInput(data, deps.fr).error.text))
    ensures UserInteractionInput(data, deps.fr).Ok? ==>
      var (m, t) := UserInteractionInput(data, deps.fr).value;
      && r.0 == app.(analyzer := AfterInteraction(app.analyzer, InteractionFrom(m, t, clock), clock.now))
      && OptStr(m.userId) in r.0.analyzer.profiles
      && (deps.analysis.Err? ==> r.1 == Failure(deps.analysis.error.text))
      && (deps.analysis.Ok? ==>
            r.1 == Success("interaction_recorded",
                           JObj(map["recorded" := JBool(true), "real_time_analysis" := deps.analysis.value])))
  {
    match UserInteractionInput(data, deps.fr)
    case Err(e) => (app, Failure(e.text))
    case Ok((m, t)) => RecordAndAnalyze(app, InteractionFrom(m, t, clock), deps.analysis, clock.now)
  }

  /** Without a top-level `interaction_type` the handler always fails and
      records nothing, whatever the incoming payload says the type is. */
  lemma UserInteractionNeedsTopLevelType(app: App, data: Obj, deps: Deps, clock: Clock)
    requires "interaction_type" !in data
    ensures UserInteraction(app, data, deps, clock).0 == app
    ensures IsFailure(UserInteraction(app, data, deps, clock).1)
    ensures Protocol.Construct(Protocol.UserInteractionClass, data, deps.fr).Ok? ==>
      UserInteraction(app, data, deps, clock).1 == Failure("'' is not a valid InteractionType")
  {
    Analyzer.EmptyInteractionTypeText();
  }

  // ---- dispatch ----

  /** The keyboard interaction every websocket message is recorded as. */
  function RecordWebsocket(app: App, fields: Obj, connectionId: string, clock: Clock): (r: App)
    ensures var user := GetOr(fields, "user_id", JStr("anonymous"));
      Hashable(user) ==>
        && user in r.analyzer.history
        && var h := r.analyzer.history[user];
           && |h| > 0 && h[|h| - 1].interactionType == Analyzer.Keyboard && h[|h| - 1].success
           && h[|h| - 1].action == JStr("websocket_" + PyStr(GetOr(fields, "message_type", JNull)))
  {
    var t := GetOr(fields, "message_type", JNull);
    RecordUserInteraction(app, GetOr(fields, "user_id", JStr("anonymous")), Analyzer.Keyboard,
                          JStr("websocket_" + PyStr(t)), JStr("websocket_interface"),
                          map["connection_id" := JStr(connectionId), "message_type" := t],
                          true, 0.0, None, clock)
  }

  /** `_process_websocket_message`: record the message, then switch on its
      type. Nothing escapes: every path ends in a response dictionary. */
  function ProcessWebsocketMessage(app: App, data: Value, connectionId: string, deps: Deps, clock: Clock)
    : (r: (App, Obj))
    ensures "success" in r.1 && r.1["success"].JBool?
    ensures r.1["success"] == JBool(false) ==> IsFailure(r.1)
    ensures !data.JObj? ==> r == (app, Failure("'" + TypeNameOf(data) + "' object has no attribute 'get'"))
    ensures data.JObj? ==>
      var t := GetOr(data.fields, "message_type", JNull);
      var app1 := RecordWebsocket(app, data.fields, connectionId, clock);
      && (t == JStr("voice_command") ==> r == VoiceCommand(app1, data.fields, deps, clock, ToDictCorrected))
      && (t == JStr("visual_debug") ==> r == VisualDebug(app1, data.fields, deps, clock, ToDictCorrected))
      && (t == JStr("user_interaction") ==> r == UserInteraction(app1, data.fields, deps, clock))
      && (t != JStr("voice_command") && t != JStr("visual_debug") && t != JStr("user_interaction") ==>
            r == (app1, Failure("Unknown message type: " + PyStr(t))))
  {
    match data
    case JObj(fields) =>
      var t := GetOr(fields, "message_type", JNull);
      var app1 := RecordWebsocket(app, fields, connectionId, clock);
      if t == JStr("voice_command") then VoiceCommand(app1, fields, deps, clock, ToDictCorrected)
      else if t == JStr("visual_debug") then VisualDebug(app1, fields, deps, clock, ToDictCorrected)
      else if t == JStr("user_interaction") then UserInteraction(app1, fields, deps, clock)
      else (app1, Failure("Unknown message type: " + PyStr(t)))
    case _ => (app, Failure("'" + TypeNameOf(data) + "' object has no attribute 'get'"))
  }

  /** A message of unknown type is still recorded, as a successful keyboard
      interaction of its user (`anonymous` when none is given), and nothing
      else changes. */
  lemma UnknownTypeOnlyRecorded(app: App, fields: Obj, connectionId: string, deps: Deps, clock: Clock)
    requires !("message_type" in fields && fields["message_type"] in
               [JStr("voice_command"), JStr("visual_debug"), JStr("user_interaction")])
    ensures var r := ProcessWebsocketMessage(app, JObj(fields), connectionId, deps, clock);
      var user := GetOr(fields, "user_id", JStr("anonymous"));
      && r.1 == Failure("Unknown message type: " + PyStr(GetOr(fields, "message_type", JNull)))
      && r.0.connections == app.connections
      && (Hashable(user) ==>
            && user in r.0.analyzer.history
            && var h := r.0.analyzer.history[user];
               |h| > 0 && h[|h| - 1].interactionType == Analyzer.Keyboard && h[|h| - 1].success)
      && (!Hashable(user) ==> r.0 == app)
  {
  }
}
