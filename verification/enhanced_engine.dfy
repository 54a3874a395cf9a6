/** The enhanced decision engine: behaviour classifiers, the rule, hybrid,
    SmartUI and heuristic strategies, strategy dispatch and the guards of
    `process_voice_command` / `process_visual_debug`
    (src/core/enhanced_decision_engine.py). */
module EnhancedEngine {
  import opened Wrappers
  import opened Json
  import Strings
  import Seqs
  import Protocol

  datatype Strategy = RuleBased | MlBased | Hybrid | Heuristic | SmartUiEnhanced

  datatype Framework = StagewiseFramework | LiveKitFramework | SmartUiFramework | BalancedFramework

  /** A `DecisionResult`; the id and timestamp stamped by `make_decision` are left out. */
  datatype Decision = Decision(
    strategy: Strategy,
    confidence: real,
    framework: Framework,
    actions: seq<Obj>,
    reasoning: string,
    metadata: Obj)

  /** The parts of a `DecisionContext` the strategies read; `None` stands for
      a context field left at its default `None`. */
  datatype Context = Context(userId: Option<string>, sessionId: Option<string>,
                             deviceInfo: Value, userHistory: seq<Obj>,
                             voiceContext: Option<Obj>, visualContext: Option<Obj>)

  /** What the nondeterministic parts of a decision produce: the value of
      `np.random.random()` the ML strategy draws and the wall-clock hour. */
  datatype Oracle = Oracle(draw: real, hour: int)

  /** `np.random.random()` lies in [0, 1). */
  predicate ValidDraw(o: Oracle) {
    0.0 <= o.draw < 1.0
  }

  datatype Config = Config(strategy: Strategy, threshold: real)

  const DefaultThreshold: real := 0.7

  function ActionType(a: Obj): Value {
    GetOr(a, "type", JNull)
  }

  // ---- UserBehaviorAnalyzer ----

  predicate IsType(h: Obj, t: string) {
    GetOr(h, "type", JNull) == JStr(t)
  }

  function VoiceCount(history: seq<Obj>): nat {
    Seqs.Count(history, h => IsType(h, "voice"))
  }

  function VisualCount(history: seq<Obj>): nat {
    Seqs.Count(history, h => IsType(h, "visual"))
  }

  /** `_analyze_interaction_patterns`' preferred input method: a share above
      0.7 decides it; empty history and no dominant share give "mixed". */
  function PreferredInput(history: seq<Obj>): (r: string)
    ensures r == "voice" <==> |history| > 0 && 10 * VoiceCount(history) > 7 * |history|
    ensures r == "visual" <==> |history| > 0 && 10 * VoiceCount(history) <= 7 * |history|
                               && 10 * VisualCount(history) > 7 * |history|
    ensures r == "mixed" || r == "voice" || r == "visual"
  {
    if |history| == 0 then "mixed"
    else
      var n := |history| as real;
      var voiceRatio := VoiceCount(history) as real / n;
      var visualRatio := VisualCount(history) as real / n;
      Seqs.RatioAbove(VoiceCount(history), |history|, 7, 10);
      Seqs.RatioAbove(VisualCount(history), |history|, 7, 10);
      if voiceRatio > 0.7 then "voice"
      else if visualRatio > 0.7 then "visual"
      else "mixed"
  }

  /** The voice and visual shares cannot both exceed 0.7. */
  lemma AtMostOneDominantShare(history: seq<Obj>)
    ensures !(10 * VoiceCount(history) > 7 * |history| && 10 * VisualCount(history) > 7 * |history|)
  {
    Seqs.CountDisjoint(history, h => IsType(h, "voice"), h => IsType(h, "visual"));
  }

  datatype DevicePrefs = DevicePrefs(screenSize: string, performancePriority: string)

  /** `_analyze_device_preferences`; a missing width counts as 1024. */
  function DevicePreferences(deviceInfo: Value): (r: Result<DevicePrefs, PyError>)
    ensures r.Ok? <==> deviceInfo.JObj? && AsNumber(GetOr(deviceInfo.fields, "screen_width", JInt(1024))).Ok?
    ensures r.Ok? ==> var w := AsNumber(GetOr(deviceInfo.fields, "screen_width", JInt(1024))).value;
      && (r.value.screenSize == "small" <==> w < 768.0)
      && (r.value.screenSize == "large" <==> w > 1920.0)
      && (r.value.screenSize == "medium" <==> 768.0 <= w <= 1920.0)
      && (r.value.screenSize == "small" ==> r.value.performancePriority == "performance")
      && (r.value.screenSize == "large" ==> r.value.performancePriority == "features")
      && (r.value.screenSize == "medium" ==> r.value.performancePriority == "balanced")
    ensures deviceInfo.JObj? && "screen_width" !in deviceInfo.fields ==> r == Ok(DevicePrefs("medium", "balanced"))
  {
    var width :- DictGet(deviceInfo, "screen_width", JInt(1024));
    var w :- AsNumber(width);
    if w < 768.0 then Ok(DevicePrefs("small", "performance"))
    else if w > 1920.0 then Ok(DevicePrefs("large", "features"))
    else Ok(DevicePrefs("medium", "balanced"))
  }

  /** Small, medium and large in increasing order. */
  function SizeRank(size: string): int {
    if size == "small" then 0 else if size == "medium" then 1 else 2
  }

  /** A wider screen never gets a smaller size class. */
  lemma DevicePreferencesMonotone(d1: Value, d2: Value)
    requires DevicePreferences(d1).Ok? && DevicePreferences(d2).Ok?
    requires AsNumber(GetOr(d1.fields, "screen_width", JInt(1024))).value
             <= AsNumber(GetOr(d2.fields, "screen_width", JInt(1024))).value
    ensures SizeRank(DevicePreferences(d1).value.screenSize) <= SizeRank(DevicePreferences(d2).value.screenSize)
  {
  }

  function CompletedCount(history: seq<Obj>): nat {
    Seqs.Count(history, h => Truthy(GetOr(h, "completed", JBool(false))))
  }

  function TaskCount(history: seq<Obj>): nat {
    Seqs.Count(history, h => IsType(h, "task"))
  }

  /** `_analyze_efficiency_metrics`' task completion rate. */
  function CompletionRate(history: seq<Obj>): (r: real)
    ensures TaskCount(history) == 0 ==> r == 0.85
    ensures TaskCount(history) > 0 ==> r * (TaskCount(history) as real) == CompletedCount(history) as real
    ensures r >= 0.0
  {
    if |history| > 0 && TaskCount(history) > 0 then
      CompletedCount(history) as real / TaskCount(history) as real
    else 0.85
  }

  /** When only task entries are marked completed, the rate is a proportion. */
  lemma CompletionRateAtMostOne(history: seq<Obj>)
    requires forall h :: h in history && Truthy(GetOr(h, "completed", JBool(false))) ==> IsType(h, "task")
    ensures CompletionRate(history) <= 1.0
  {
    Seqs.CountMonotone(history, h => Truthy(GetOr(h, "completed", JBool(false))), h => IsType(h, "task"));
  }

  /** "completed" is counted over entries of every type, so the rate can exceed 1. */
  lemma CompletionRateCanExceedOne()
    ensures CompletionRate([map["type" := JStr("task"), "completed" := JBool(true)],
                            map["type" := JStr("voice"), "completed" := JBool(true)]]) == 2.0
  {
    var h := [map["type" := JStr("task"), "completed" := JBool(true)],
              map["type" := JStr("voice"), "completed" := JBool(true)]];
    assert h[1..][1..] == [];
    assert TaskCount(h) == 1;
    assert CompletedCount(h) == 2;
  }

  /** The profile `analyze_user_behavior` leaves in `context.smartui_profile`. */
  datatype BehaviorProfile = BehaviorProfile(preferredInput: string, screenSize: string,
                                             performancePriority: string, completionRate: real)

  function AnalyzeUserBehavior(ctx: Context): (r: Result<BehaviorProfile, PyError>)
    ensures r.Ok? <==> DevicePreferences(ctx.deviceInfo).Ok?
    ensures r.Ok? ==> r.value.preferredInput == PreferredInput(ctx.userHistory)
                      && r.value.completionRate == CompletionRate(ctx.userHistory)
                      && r.value.screenSize == DevicePreferences(ctx.deviceInfo).value.screenSize
  {
    var device :- DevicePreferences(ctx.deviceInfo);
    Ok(BehaviorProfile(PreferredInput(ctx.userHistory), device.screenSize,
                       device.performancePriority, CompletionRate(ctx.userHistory)))
  }

  // ---- rule-based strategy ----

  const ModifyKeywords: seq<string> := ["\U{4FEE}\U{6539}", "\U{6539}\U{8B8A}", "change", "modify"]
  const ColorKeywords: seq<string> := ["\U{984F}\U{8272}", "color"]
  const SelectKeywords: seq<string> := ["\U{9078}\U{64C7}", "\U{9EDE}\U{64CA}", "select", "click"]

  const RuleDefaultReason: string := "\U{57FA}\U{65BC}\U{9810}\U{5B9A}\U{7FA9}\U{898F}\U{5247}\U{7684}\U{6C7A}\U{7B56}"

  function RuleResult(actions: seq<Obj>, confidence: real, fw: Framework, reasoning: string): Decision {
    Decision(RuleBased, confidence, fw, actions, reasoning, map["rule_matches" := JInt(|actions|)])
  }

  function ModifyStyleAction(target: Value, color: Value): Obj {
    map["type" := JStr("modify_style"), "target_element" := target, "modification_type" := JStr("style"),
        "modification_data" := JObj(map["color" := color])]
  }

  function SelectAction(target: Value): Obj {
    map["type" := JStr("select_element"), "target_element" := target,
        "modification_type" := JStr("interaction"),
        "modification_data" := JObj(map["action" := JStr("click")])]
  }

  function InspectorAction(target: Value): Obj {
    map["type" := JStr("show_inspector"), "target_element" := target, "modification_type" := JStr("debug"),
        "modification_data" := JObj(map["show_properties" := JBool(true), "highlight" := JBool(true)])]
  }

  function EditModeAction(target: Value): Obj {
    map["type" := JStr("enable_edit_mode"), "target_element" := target, "modification_type" := JStr("debug"),
        "modification_data" := JObj(map["edit_mode" := JBool(true)])]
  }

  /** A voice rule that reads the intent matches: modify with a colour, or
      select without a modify keyword. */
  predicate VoiceRuleFires(command: string) {
    var t := Strings.Lower(command);
    (Strings.ContainsAny(t, ModifyKeywords) && Strings.ContainsAny(t, ColorKeywords))
    || (!Strings.ContainsAny(t, ModifyKeywords) && Strings.ContainsAny(t, SelectKeywords))
  }

  /** A visual rule that reads the selected element matches. */
  predicate VisualRuleFires(debugAction: Value) {
    debugAction == JStr("inspect") || debugAction == JStr("modify")
  }

  function VoiceRule(command: string, intent: Value): (r: Result<Decision, PyError>)
    ensures r.Err? <==> VoiceRuleFires(command) && !intent.JObj?
    ensures r.Err? ==> r.error == NoAttribute(intent, "get")
  {
    var transcript := Strings.Lower(command);
    if Strings.ContainsAny(transcript, ModifyKeywords) then
      if Strings.ContainsAny(transcript, ColorKeywords) then
        var target :- DictGet(intent, "target", JStr("button"));
        // the second `intent.get` cannot fail once the first has returned
        var color := GetOr(intent.fields, "value", JStr("blue"));
        Ok(RuleResult([ModifyStyleAction(target, color)], 0.8, LiveKitFramework,
                      "\U{8A9E}\U{97F3}\U{6307}\U{4EE4}\U{5339}\U{914D}\U{984F}\U{8272}\U{4FEE}\U{6539}\U{898F}\U{5247}"))
      else
        Ok(RuleResult([], 0.6, BalancedFramework, RuleDefaultReason))
    else if Strings.ContainsAny(transcript, SelectKeywords) then
      var target :- DictGet(intent, "target", JStr("button"));
      Ok(RuleResult([SelectAction(target)], 0.75, LiveKitFramework,
                    "\U{8A9E}\U{97F3}\U{6307}\U{4EE4}\U{5339}\U{914D}\U{9078}\U{64C7}\U{64CD}\U{4F5C}\U{898F}\U{5247}"))
    else
      Ok(RuleResult([], 0.6, BalancedFramework, RuleDefaultReason))
  }

  function VisualRule(debugAction: Value, selected: Value): (r: Result<Decision, PyError>)
    ensures r.Err? <==> VisualRuleFires(debugAction) && !selected.JObj?
    ensures r.Err? ==> r.error == NoAttribute(selected, "get")
  {
    if debugAction == JStr("inspect") then
      var id :- DictGet(selected, "id", JStr(""));
      Ok(RuleResult([InspectorAction(id)], 0.9, StagewiseFramework,
                    "\U{53EF}\U{8996}\U{5316}\U{8ABF}\U{8A66}\U{6AA2}\U{67E5}\U{5143}\U{7D20}\U{898F}\U{5247}"))
    else if debugAction == JStr("modify") then
      var id :- DictGet(selected, "id", JStr(""));
      Ok(RuleResult([EditModeAction(id)], 0.85, StagewiseFramework,
                    "\U{53EF}\U{8996}\U{5316}\U{8ABF}\U{8A66}\U{4FEE}\U{6539}\U{5143}\U{7D20}\U{898F}\U{5247}"))
    else
      Ok(RuleResult([], 0.6, BalancedFramework, RuleDefaultReason))
  }

  /** `_rule_based_decision`. */
  function RuleBasedDecision(input: Obj): (r: Result<Decision, PyError>)
    ensures r.Ok? ==> && r.value.strategy == RuleBased
                      && r.value.metadata == map["rule_matches" := JInt(|r.value.actions|)]
                      && |r.value.actions| <= 1
                      && (|r.value.actions| == 0 <==> r.value.confidence == 0.6)
                      && (|r.value.actions| == 0 ==> r.value.framework == BalancedFramework)
                      && (|r.value.actions| == 1 ==> r.value.confidence >= 0.75)
    ensures var command := GetOr(input, "command", JStr(""));
      var intent := GetOr(input, "intent", JObj(map[]));
      GetOr(input, "input_type", JStr("unknown")) == JStr("voice") ==>
        && (r.Err? <==> !command.JStr? || (VoiceRuleFires(command.s) && !intent.JObj?))
        && (!command.JStr? ==> r == Err(NoAttribute(command, "lower")))
        && (command.JStr? && r.Err? ==> r.error == NoAttribute(intent, "get"))
    ensures var selected := GetOr(input, "selected_element", JObj(map[]));
      GetOr(input, "input_type", JStr("unknown")) == JStr("visual_debug") ==>
        && (r.Err? <==> VisualRuleFires(GetOr(input, "debug_action", JStr(""))) && !selected.JObj?)
        && (r.Err? ==> r.error == NoAttribute(selected, "get"))
    ensures GetOr(input, "input_type", JStr("unknown")) !in {JStr("voice"), JStr("visual_debug")} ==> r.Ok?
  {
    var inputType := GetOr(input, "input_type", JStr("unknown"));
    if inputType == JStr("voice") then
      var command := GetOr(input, "command", JStr(""));
      if command.JStr? then VoiceRule(command.s, GetOr(input, "intent", JObj(map[])))
      else Err(NoAttribute(command, "lower"))
    else if inputType == JStr("visual_debug") then
      VisualRule(GetOr(input, "debug_action", JStr("")), GetOr(input, "selected_element", JObj(map[])))
    else
      Ok(RuleResult([], 0.6, BalancedFramework, RuleDefaultReason))
  }

  function VoiceInput(command: string, intent: Value): Obj {
    map["input_type" := JStr("voice"), "command" := JStr(command), "intent" := intent]
  }

  /** The voice rules: a modify keyword with a colour keyword styles the target;
      a modify keyword alone matches nothing and the select rule is never
      tried; a select keyword alone selects the target. */
  lemma VoiceRules(command: string, intent: Value)
    requires intent.JObj?
    ensures var t := Strings.Lower(command);
      var r := RuleBasedDecision(VoiceInput(command, intent));
      && r.Ok?
      && (Strings.ContainsAny(t, ModifyKeywords) && Strings.ContainsAny(t, ColorKeywords) ==>
            && r.value.actions == [ModifyStyleAction(GetOr(intent.fields, "target", JStr("button")),
                                                     GetOr(intent.fields, "value", JStr("blue")))]
            && r.value.confidence == 0.8 && r.value.framework == LiveKitFramework)
      && (Strings.ContainsAny(t, ModifyKeywords) && !Strings.ContainsAny(t, ColorKeywords) ==>
            r.value.actions == [] && r.value.confidence == 0.6)
      && (!Strings.ContainsAny(t, ModifyKeywords) && Strings.ContainsAny(t, SelectKeywords) ==>
            && r.value.actions == [SelectAction(GetOr(intent.fields, "target", JStr("button")))]
            && r.value.confidence == 0.75 && r.value.framework == LiveKitFramework)
      && (!Strings.ContainsAny(t, ModifyKeywords) && !Strings.ContainsAny(t, SelectKeywords) ==>
            r.value.actions == [] && r.value.confidence == 0.6)
  {
  }

  function VisualInput(debugAction: Value, selected: Value): Obj {
    map["input_type" := JStr("visual_debug"), "debug_action" := debugAction, "selected_element" := selected]
  }

  /** The visual rules: "inspect" and "modify" act on the selected element's
      id for Stagewise; anything else matches nothing. */
  lemma VisualRules(debugAction: Value, selected: Value)
    requires selected.JObj?
    ensures var r := RuleBasedDecision(VisualInput(debugAction, selected));
      var id := GetOr(selected.fields, "id", JStr(""));
      && r.Ok?
      && (debugAction == JStr("inspect") ==>
            r.value.actions == [InspectorAction(id)] && r.value.confidence == 0.9
            && r.value.framework == StagewiseFramework)
      && (debugAction == JStr("modify") ==>
            r.value.actions == [EditModeAction(id)] && r.value.confidence == 0.85
            && r.value.framework == StagewiseFramework)
      && (debugAction != JStr("inspect") && debugAction != JStr("modify") ==>
            r.value.actions == [] && r.value.confidence == 0.6 && r.value.framework == BalancedFramework)
  {
  }

  // ---- ML strategy ----

  /** The "confidence" `_extract_features` reads, when the context has a truthy
      voice context; otherwise the feature is absent and reads as 0. */
  function VoiceConfidenceFeature(ctx: Context): Value {
    if ctx.voiceContext.Some? && |ctx.voiceContext.value| > 0
    then GetOr(ctx.voiceContext.value, "confidence", JInt(0)) else JInt(0)
  }

  function VoiceTranscriptFeature(ctx: Context): Option<Value> {
    if ctx.voiceContext.Some? && |ctx.voiceContext.value| > 0
    then Some(GetOr(ctx.voiceContext.value, "transcript", JStr(""))) else None
  }

  function SelectedElementFeature(ctx: Context): Option<Value> {
    if ctx.visualContext.Some? && |ctx.visualContext.value| > 0
    then Some(GetOr(ctx.visualContext.value, "selected_element", JObj(map[]))) else None
  }

  /** `len(x)` of an optional feature source; `None` when the feature is absent. */
  function FeatureLength(x: Option<Value>): Result<Option<nat>, PyError> {
    match x
    case None => Ok(None)
    case Some(v) =>
      if Sized(v) then Ok(Some(Len(v)))
      else Err(PyError(TypeError, "object of type '" + TypeNameOf(v) + "' has no len()"))
  }

  /** The profile dictionary `analyze_user_behavior` returns, as the
      adaptive action carries it. */
  function ProfileJson(p: BehaviorProfile): Value {
    JObj(map[
      "preferences" := JObj(map[]),
      "interaction_patterns" := JObj(map["preferred_input_method" := JStr(p.preferredInput),
                                         "interaction_frequency" := JInt(0), "session_duration" := JInt(0),
                                         "error_rate" := JInt(0), "feature_usage" := JObj(map[])]),
      "device_preferences" := JObj(map["screen_size_preference" := JStr(p.screenSize),
                                       "input_method_preference" := JStr("mixed"),
                                       "performance_priority" := JStr(p.performancePriority),
                                       "accessibility_features" := JArr([])]),
      "accessibility_needs" := JObj(map[]),
      "efficiency_metrics" := JObj(map["task_completion_rate" := JReal(p.completionRate),
                                       "average_task_time" := JInt(120), "error_recovery_time" := JInt(30),
                                       "feature_discovery_rate" := JReal(0.6)])])
  }

  function VoiceResponseAction(): Obj {
    map["type" := JStr("voice_response"), "target_element" := JStr("voice_interface"),
        "modification_type" := JStr("interaction"),
        "modification_data" := JObj(map["response" := JStr("voice_command_processed")])]
  }

  function SimplifyInterfaceAction(): Obj {
    map["type" := JStr("simplify_interface"), "target_element" := JStr("main_container"),
        "modification_type" := JStr("layout"),
        "modification_data" := JObj(map["complexity_reduction" := JBool(true)])]
  }

  function AdaptiveUiAction(p: BehaviorProfile): Obj {
    map["type" := JStr("adaptive_ui"), "target_element" := JStr("adaptive_container"),
        "modification_type" := JStr("smart_adaptation"),
        "modification_data" := JObj(map["user_profile" := ProfileJson(p)])]
  }

  /** The feature dictionary `_extract_features` builds. */
  function Features(ctx: Context, p: BehaviorProfile, transcriptLen: Option<nat>, selectedLen: Option<nat>,
                    width: real, mobile: bool): Obj {
    (if transcriptLen.Some? then map["voice_confidence" := VoiceConfidenceFeature(ctx),
                                     "voice_length" := JReal(transcriptLen.value as real / 100.0)]
     else map[])
    + (if selectedLen.Some? then map["visual_complexity" := JReal(selectedLen.value as real / 10.0)] else map[])
    + map["user_efficiency" := JReal(p.completionRate),
          "user_experience" := JReal(|ctx.userHistory| as real / 100.0),
          "screen_size" := JReal(if width / 1920.0 < 1.0 then width / 1920.0 else 1.0),
          "is_mobile" := JReal(if mobile then 1.0 else 0.0)]
  }

  /** The text of the TypeError `x > 0.8` raises for an `x` of type `t`. */
  function AboveFloatText(t: string): string {
    "'>' not supported between instances of '" + t + "' and 'float'"
  }

  lemma AboveFloatTextOfNone()
    ensures AboveFloatText("NoneType") == "'>' not supported between instances of 'NoneType' and 'float'"
  {
  }

  /** `features.get('voice_confidence', 0) > 0.8`; a value that is not a
      number raises the comparison's TypeError. */
  function VoiceConfidenceAbove(v: Value): (r: Result<bool, PyError>)
    ensures r.Ok? <==> v.JInt? || v.JReal? || v.JBool?
    ensures r.Ok? ==> (r.value <==> AsNumber(v).value > 0.8)
    ensures r.Err? ==> r.error == PyError(TypeError, AboveFloatText(TypeNameOf(v)))
  {
    match AsNumber(v)
    case Ok(x) => Ok(x > 0.8)
    case Err(_) => Err(PyError(TypeError, AboveFloatText(TypeNameOf(v))))
  }

  /** What `_ml_based_decision` reads from the extracted features. */
  datatype MlFeatures = MlFeatures(transcriptLen: Option<nat>, selectedLen: Option<nat>, width: real,
                                   mobile: bool, voice: bool)

  /** `_extract_features` followed by the voice-confidence comparison: `len()`
      of the transcript and of the selected element, the width division and
      the `> 0.8` comparison raise on values of the wrong type. */
  function ExtractFeatures(ctx: Context): (r: Result<MlFeatures, PyError>)
    ensures r.Ok? <==> && FeatureLength(VoiceTranscriptFeature(ctx)).Ok?
                       && FeatureLength(SelectedElementFeature(ctx)).Ok?
                       && ctx.deviceInfo.JObj?
                       && AsNumber(GetOr(ctx.deviceInfo.fields, "screen_width", JInt(1024))).Ok?
                       && VoiceConfidenceAbove(VoiceConfidenceFeature(ctx)).Ok?
    ensures r.Ok? ==> && r.value.voice == VoiceConfidenceAbove(VoiceConfidenceFeature(ctx)).value
                      && r.value.selectedLen == FeatureLength(SelectedElementFeature(ctx)).value
    ensures && FeatureLength(VoiceTranscriptFeature(ctx)).Ok?
            && FeatureLength(SelectedElementFeature(ctx)).Ok?
            && ctx.deviceInfo.JObj?
            && AsNumber(GetOr(ctx.deviceInfo.fields, "screen_width", JInt(1024))).Ok?
            && VoiceConfidenceAbove(VoiceConfidenceFeature(ctx)).Err? ==>
              r == Err(VoiceConfidenceAbove(VoiceConfidenceFeature(ctx)).error)
  {
    var transcriptLen :- FeatureLength(VoiceTranscriptFeature(ctx));
    var selectedLen :- FeatureLength(SelectedElementFeature(ctx));
    var widthValue :- DictGet(ctx.deviceInfo, "screen_width", JInt(1024));
    var width :- match AsNumber(widthValue)
      case Ok(w) => Ok(w)
      case Err(_) => Err(PyError(TypeError, "unsupported operand type(s) for /: '" + TypeNameOf(widthValue)
                                            + "' and 'float'"));
    var mobile := Truthy(GetOr(ctx.deviceInfo.fields, "is_mobile", JBool(false)));
    var voice :- VoiceConfidenceAbove(VoiceConfidenceFeature(ctx));
    Ok(MlFeatures(transcriptLen, selectedLen, width, mobile, voice))
  }

  /** `_ml_based_decision` with `np.random.random()` = `draw`: a voice
      confidence above 0.8 asks for a voice response, a selected element
      with more than seven keys for a simpler interface, and anything else
      for the adaptive UI carrying the profile. */
  function MlDecision(ctx: Context, p: BehaviorProfile, draw: real): (r: Result<Decision, PyError>)
    ensures r.Ok? <==> ExtractFeatures(ctx).Ok?
    ensures r.Err? ==> r.error == ExtractFeatures(ctx).error
    ensures r.Ok? ==> && r.value.strategy == MlBased
                      && r.value.confidence == 0.7 + draw * 0.2
                      && |r.value.actions| == 1
    ensures r.Ok? ==>
      var f := ExtractFeatures(ctx).value;
      var simplify := f.selectedLen.Some? && f.selectedLen.value > 7;
      && (f.voice ==> r.value.actions == [VoiceResponseAction()] && r.value.framework == LiveKitFramework)
      && (!f.voice && simplify ==>
            r.value.actions == [SimplifyInterfaceAction()] && r.value.framework == StagewiseFramework)
      && (!f.voice && !simplify ==>
            r.value.actions == [AdaptiveUiAction(p)] && r.value.framework == SmartUiFramework)
  {
    var f :- ExtractFeatures(ctx);
    var simplify := f.selectedLen.Some? && f.selectedLen.value > 7;
    var action := if f.voice then VoiceResponseAction()
                  else if simplify then SimplifyInterfaceAction()
                  else AdaptiveUiAction(p);
    var fw := if f.voice then LiveKitFramework else if simplify then StagewiseFramework else SmartUiFramework;
    Ok(Decision(MlBased, 0.7 + draw * 0.2, fw, [action],
                "\U{57FA}\U{65BC}\U{6A5F}\U{5668}\U{5B78}\U{7FD2}\U{6A21}\U{578B}\U{7684}\U{9810}\U{6E2C}\U{6C7A}\U{7B56}",
                map["features" := JObj(Features(ctx, p, f.transcriptLen, f.selectedLen, f.width, f.mobile)),
                    "model_version" := JStr("1.0")]))
  }

  /** The drawn confidence lies in [0.7, 0.9). */
  lemma MlConfidenceRange(ctx: Context, p: BehaviorProfile, o: Oracle)
    requires ValidDraw(o)
    ensures var r := MlDecision(ctx, p, o.draw);
      r.Ok? ==> 0.7 <= r.value.confidence < 0.9
  {
  }

  // ---- hybrid strategy ----

  /** `primary + [a for a in secondary if a not in primary]`. */
  function MergeActions(primary: seq<Obj>, secondary: seq<Obj>): (r: seq<Obj>)
    ensures |r| >= |primary|
    ensures r[..|primary|] == primary
    ensures forall a :: a in r <==> a in primary || a in secondary
    ensures forall i :: |primary| <= i < |r| ==> r[i] !in primary
  {
    var rest := Seqs.Filter(secondary, a => a !in primary);
    var r := primary + rest;
    forall i | |primary| <= i < |r| ensures r[i] !in primary {
      assert r[i] == rest[i - |primary|];
      assert r[i] in rest;
    }
    r
  }

  function HybridReason(primary: Decision, secondary: Decision): string {
    "\U{6DF7}\U{5408}\U{6C7A}\U{7B56}\U{FF1A}" + primary.reasoning + " + " + secondary.reasoning
  }

  /** `_hybrid_decision` given the rule and ML results. */
  function HybridDecision(rule: Decision, ml: Decision): (r: Decision)
    ensures r.strategy == Hybrid
    ensures r.confidence == 0.6 * rule.confidence + 0.4 * ml.confidence
    ensures rule.confidence > ml.confidence ==>
      r.framework == rule.framework && r.actions == MergeActions(rule.actions, ml.actions)
    ensures rule.confidence <= ml.confidence ==>
      r.framework == ml.framework && r.actions == MergeActions(ml.actions, rule.actions)
    ensures |ml.actions| > 0 ==> |r.actions| > 0
  {
    var combined := rule.confidence * 0.6 + ml.confidence * 0.4;
    var primary := if rule.confidence > ml.confidence then rule else ml;
    var secondary := if rule.confidence > ml.confidence then ml else rule;
    Decision(Hybrid, combined, primary.framework, MergeActions(primary.actions, secondary.actions),
             HybridReason(primary, secondary),
             map["rule_confidence" := JReal(rule.confidence), "ml_confidence" := JReal(ml.confidence),
                 "combination_weight" := JReal(0.6)])
  }

  /** The combined confidence lies between the two inputs, and the combined
      actions are exactly the actions of both. */
  lemma HybridBetween(rule: Decision, ml: Decision)
    ensures var r := HybridDecision(rule, ml);
      && (rule.confidence <= r.confidence <= ml.confidence || ml.confidence <= r.confidence <= rule.confidence)
      && (forall a :: a in r.actions <==> a in rule.actions || a in ml.actions)
  {
  }

  // ---- SmartUI strategy ----

  function BalancedAction(): Obj {
    map["type" := JStr("balanced_ui"), "target_element" := JStr("main_interface"),
        "modification_type" := JStr("enhancement"),
        "modification_data" := JObj(map["multimodal" := JBool(true), "adaptive_switching" := JBool(true),
                                        "context_awareness" := JBool(true)])]
  }

  function VoiceUiAction(): Obj {
    map["type" := JStr("enhance_voice_ui"), "target_element" := JStr("voice_interface"),
        "modification_type" := JStr("enhancement"),
        "modification_data" := JObj(map["voice_priority" := JBool(true), "visual_hints" := JBool(true),
                                        "speech_feedback" := JBool(true)])]
  }

  function VisualUiAction(): Obj {
    map["type" := JStr("enhance_visual_ui"), "target_element" := JStr("visual_interface"),
        "modification_type" := JStr("enhancement"),
        "modification_data" := JObj(map["visual_priority" := JBool(true), "debug_tools" := JBool(true),
                                        "element_highlighting" := JBool(true)])]
  }

  function SimplifyWorkflowAction(): Obj {
    map["type" := JStr("simplify_workflow"), "target_element" := JStr("workflow_container"),
        "modification_type" := JStr("optimization"),
        "modification_data" := JObj(map["reduce_steps" := JBool(true), "add_guidance" := JBool(true),
                                        "error_prevention" := JBool(true)])]
  }

  function MobileOptimizationAction(): Obj {
    map["type" := JStr("mobile_optimization"), "target_element" := JStr("responsive_container"),
        "modification_type" := JStr("responsive"),
        "modification_data" := JObj(map["mobile_first" := JBool(true), "touch_friendly" := JBool(true),
                                        "compact_layout" := JBool(true)])]
  }

  /** The five SmartUI actions are told apart by their "type". */
  lemma SmartUiActionTypes()
    ensures ActionType(BalancedAction()) == JStr("balanced_ui")
    ensures ActionType(VoiceUiAction()) == JStr("enhance_voice_ui")
    ensures ActionType(VisualUiAction()) == JStr("enhance_visual_ui")
    ensures ActionType(SimplifyWorkflowAction()) == JStr("simplify_workflow")
    ensures ActionType(MobileOptimizationAction()) == JStr("mobile_optimization")
  {
  }

  /** A first action followed by two optional ones of other types: each
      optional action is present exactly when its condition holds. */
  lemma OptionalActions(first: Obj, a: Obj, b: Obj, ca: bool, cb: bool)
    requires ActionType(first) != ActionType(a) && ActionType(first) != ActionType(b)
    requires ActionType(a) != ActionType(b)
    ensures var actions := [first] + (if ca then [a] else []) + (if cb then [b] else []);
      && |actions| >= 1 && actions[0] == first
      && (a in actions <==> ca)
      && (b in actions <==> cb)
  {
  }

  /** `_smartui_enhanced_decision`; a missing profile reads as all defaults. */
  function SmartUiDecision(profile: Option<BehaviorProfile>): (r: Decision)
    ensures |r.actions| >= 1
    ensures var pi := if profile.Some? then profile.value.preferredInput else "mixed";
      && (pi == "voice" ==> ActionType(r.actions[0]) == JStr("enhance_voice_ui") && r.confidence == 0.9)
      && (pi == "visual" ==> ActionType(r.actions[0]) == JStr("enhance_visual_ui") && r.confidence == 0.85)
      && (pi != "voice" && pi != "visual" ==> ActionType(r.actions[0]) == JStr("balanced_ui") && r.confidence == 0.8)
    ensures var rate := if profile.Some? then profile.value.completionRate else 0.85;
      SimplifyWorkflowAction() in r.actions <==> rate < 0.7
    ensures var size := if profile.Some? then profile.value.screenSize else "medium";
      MobileOptimizationAction() in r.actions <==> size == "small"
    ensures r.metadata == SmartUiMetadata(profile)
  {
    var pi := if profile.Some? then profile.value.preferredInput else "mixed";
    var rate := if profile.Some? then profile.value.completionRate else 0.85;
    var size := if profile.Some? then profile.value.screenSize else "medium";
    var first := if pi == "voice" then VoiceUiAction()
                 else if pi == "visual" then VisualUiAction()
                 else BalancedAction();
    var confidence := if pi == "voice" then 0.9 else if pi == "visual" then 0.85 else 0.8;
    var fw := if pi == "voice" then LiveKitFramework
              else if pi == "visual" then StagewiseFramework
              else SmartUiFramework;
    var actions := [first]
                   + (if rate < 0.7 then [SimplifyWorkflowAction()] else [])
                   + (if size == "small" then [MobileOptimizationAction()] else []);
    SmartUiActionTypes();
    OptionalActions(first, SimplifyWorkflowAction(), MobileOptimizationAction(), rate < 0.7, size == "small");
    Decision(SmartUiEnhanced, confidence, fw, actions,
             "\U{57FA}\U{65BC}SmartUI\U{7528}\U{6236}\U{6A94}\U{6848}\U{7684}\U{500B}\U{6027}\U{5316}\U{6C7A}\U{7B56}",
             SmartUiMetadata(profile))
  }

  /** The profile the decision was personalised with (`smartui_profile or {}`). */
  function SmartUiMetadata(profile: Option<BehaviorProfile>): (m: map<string, Value>)
    ensures "user_profile" in m && "personalization_level" in m
    ensures profile.None? ==> m["user_profile"] == JObj(map[])
    ensures profile.Some? ==> m["user_profile"] == ProfileJson(profile.value)
  {
    map["user_profile" := (if profile.Some? then ProfileJson(profile.value) else JObj(map[])),
        "personalization_level" := JStr("high")]
  }

  // ---- heuristic strategy ----

  function WorkModeAction(): Obj {
    map["type" := JStr("work_mode_ui"), "target_element" := JStr("main_container"),
        "modification_type" := JStr("theme"),
        "modification_data" := JObj(map["theme" := JStr("professional"), "distractions" := JStr("minimal")])]
  }

  function MobileUiAction(): Obj {
    map["type" := JStr("mobile_ui"), "target_element" := JStr("responsive_container"),
        "modification_type" := JStr("responsive"),
        "modification_data" := JObj(map["mobile_optimized" := JBool(true)])]
  }

  /** `_heuristic_decision` at wall-clock hour `hour`. */
  function HeuristicDecision(hour: int, deviceInfo: Value): (r: Result<Decision, PyError>)
    ensures r.Ok? <==> deviceInfo.JObj?
    ensures r.Ok? ==> var mobile := Truthy(GetOr(deviceInfo.fields, "is_mobile", JBool(false)));
      && (WorkModeAction() in r.value.actions <==> 9 <= hour <= 17)
      && (MobileUiAction() in r.value.actions <==> mobile)
      && (r.value.confidence == if mobile then 0.8 else if 9 <= hour <= 17 then 0.7 else 0.5)
      && r.value.metadata == map["heuristics_applied" := JInt(|r.value.actions|)]
    ensures r.Ok? && r.value.confidence >= 0.7 ==> |r.value.actions| > 0
  {
    var isMobile :- DictGet(deviceInfo, "is_mobile", JBool(false));
    var work := 9 <= hour <= 17;
    var actions := (if work then [WorkModeAction()] else [])
                   + (if Truthy(isMobile) then [MobileUiAction()] else []);
    var confidence := if Truthy(isMobile) then 0.8 else if work then 0.7 else 0.5;
    assert WorkModeAction()["type"] != MobileUiAction()["type"];
    Ok(Decision(Heuristic, confidence, BalancedFramework, actions,
                "\U{57FA}\U{65BC}\U{555F}\U{767C}\U{5F0F}\U{898F}\U{5247}\U{7684}\U{6C7A}\U{7B56}",
                map["heuristics_applied" := JInt(|actions|)]))
  }

  // ---- make_decision ----

  /** `_hybrid_decision`: the rule strategy runs first, so its exception wins. */
  function RuleThenMl(rule: Result<Decision, PyError>, ml: Result<Decision, PyError>): (r: Result<Decision, PyError>)
    ensures rule.Err? ==> r == Err(rule.error)
    ensures rule.Ok? && ml.Err? ==> r == Err(ml.error)
    ensures rule.Ok? && ml.Ok? ==> r == Ok(HybridDecision(rule.value, ml.value))
  {
    var rd :- rule;
    var md :- ml;
    Ok(HybridDecision(rd, md))
  }

  /** `make_decision`: analyse the user, then dispatch on the strategy; the
      last branch is the heuristic one. The hybrid strategy runs the rule
      strategy before the ML one. */
  function MakeDecision(strategy: Strategy, ctx: Context, input: Obj, oracle: Oracle)
    : (r: Result<Decision, PyError>)
    ensures AnalyzeUserBehavior(ctx).Err? ==> r == Err(AnalyzeUserBehavior(ctx).error)
    ensures AnalyzeUserBehavior(ctx).Ok? ==> var p := AnalyzeUserBehavior(ctx).value;
      && (strategy == RuleBased ==> r == RuleBasedDecision(input))
      && (strategy == MlBased ==> r == MlDecision(ctx, p, oracle.draw))
      && (strategy == Hybrid ==> r == RuleThenMl(RuleBasedDecision(input), MlDecision(ctx, p, oracle.draw)))
      && (strategy == SmartUiEnhanced ==> r == Ok(SmartUiDecision(Some(p))))
      && (strategy == Heuristic ==> r == HeuristicDecision(oracle.hour, ctx.deviceInfo))
  {
    var profile :- AnalyzeUserBehavior(ctx);
    match strategy
    case RuleBased => RuleBasedDecision(input)
    case MlBased => MlDecision(ctx, profile, oracle.draw)
    case Hybrid => RuleThenMl(RuleBasedDecision(input), MlDecision(ctx, profile, oracle.draw))
    case SmartUiEnhanced => Ok(SmartUiDecision(Some(profile)))
    case Heuristic => HeuristicDecision(oracle.hour, ctx.deviceInfo)
  }

  /** Every strategy's result with confidence at least 0.7 has an action, so
      indexing `actions[0]` under the default threshold cannot fail. */
  lemma ConfidentDecisionHasAction(strategy: Strategy, ctx: Context, input: Obj, oracle: Oracle)
    ensures var r := MakeDecision(strategy, ctx, input, oracle);
      r.Ok? && r.value.confidence >= 0.7 ==> |r.value.actions| > 0
  {
  }

  // ---- process_voice_command / process_visual_debug ----

  /** The `UIModificationMessage` built from the first action of a decision. */
  function UiModificationData(msg: Protocol.Message, action: Obj, defaultType: string, reasoning: string): Obj {
    map["source" := JStr("decision_engine"),
        "session_id" := OptStr(msg.sessionId),
        "user_id" := OptStr(msg.userId),
        "target_element" := GetOr(action, "target_element", JStr("")),
        "modification_type" := GetOr(action, "modification_type", JStr(defaultType)),
        "modification_data" := GetOr(action, "modification_data", JObj(map[])),
        "reason" := JStr(reasoning)]
  }

  /** The message `UIModificationMessage(...)` builds from those arguments:
      validation only sees `source`, `session_id` and `user_id`. */
  lemma UiModificationConstructs(msg: Protocol.Message, action: Obj, defaultType: string, reasoning: string,
                                 fr: Protocol.Fresh)
    ensures var d := UiModificationData(msg, action, defaultType, reasoning);
      var r := Protocol.Construct(Protocol.UiModificationClass, d, fr);
      && r.Ok?
      && r.value.messageType == Protocol.UiModification
      && r.value.source == "decision_engine"
      && r.value.sessionId == msg.sessionId && r.value.userId == msg.userId
      && "target_element" in r.value.payload
      && r.value.payload["target_element"] == GetOr(action, "target_element", JStr(""))
  {
    var d := UiModificationData(msg, action, defaultType, reasoning);
    UiModificationOmitsFields(msg, action, defaultType, reasoning);
    UiModificationShape(msg, action, defaultType, reasoning);
    ConstructModification(d, msg, GetOr(action, "target_element", JStr("")), fr);
  }

  lemma UiModificationOmitsFields(msg: Protocol.Message, action: Obj, defaultType: string, reasoning: string)
    ensures Protocol.OmitsFields(UiModificationData(msg, action, defaultType, reasoning))
  {
  }

  lemma UiModificationShape(msg: Protocol.Message, action: Obj, defaultType: string, reasoning: string)
    ensures var d := UiModificationData(msg, action, defaultType, reasoning);
      && "source" in d && d["source"] == JStr("decision_engine")
      && "session_id" in d && d["session_id"] == OptStr(msg.sessionId)
      && "user_id" in d && d["user_id"] == OptStr(msg.userId)
      && "target_element" in d && d["target_element"] == GetOr(action, "target_element", JStr(""))
  {
  }

  /** Arguments naming only the source, the message's ids and a target
      validate, and the target lands in the payload. */
  lemma ConstructModification(d: Obj, msg: Protocol.Message, target: Value, fr: Protocol.Fresh)
    requires Protocol.OmitsFields(d)
    requires "source" in d && d["source"] == JStr("decision_engine")
    requires "session_id" in d && d["session_id"] == OptStr(msg.sessionId)
    requires "user_id" in d && d["user_id"] == OptStr(msg.userId)
    requires "target_element" in d && d["target_element"] == target
    ensures var r := Protocol.Construct(Protocol.UiModificationClass, d, fr);
      && r.Ok?
      && r.value.messageType == Protocol.UiModification
      && r.value.source == "decision_engine"
      && r.value.sessionId == msg.sessionId && r.value.userId == msg.userId
      && "target_element" in r.value.payload && r.value.payload["target_element"] == target
  {
    var c := Protocol.UiModificationClass;
    var v := Protocol.Message(fr.messageId, Protocol.UiModification, fr.now, "decision_engine", None,
                              Protocol.Normal, "1.0", msg.sessionId, msg.userId, map[], map[]);
    assert Protocol.OptStrField(d, "session_id") == Ok(msg.sessionId);
    assert Protocol.OptStrField(d, "user_id") == Ok(msg.userId);
    assert Protocol.Validate(c, d, fr) == Ok(v);
    assert "target_element" in Protocol.ListedKeys(c);
  }

  /** The threshold guard shared by both entry points: below the threshold
      nothing is produced; at or above it `actions[0]` is read. */
  function GuardedModification(cfg: Config, msg: Protocol.Message, d: Decision, defaultType: string,
                               fr: Protocol.Fresh): (r: Result<Option<Protocol.Message>, PyError>)
    ensures d.confidence < cfg.threshold ==> r == Ok(None)
    ensures d.confidence >= cfg.threshold && |d.actions| == 0 ==> r.Err? && r.error.kind == IndexError
    ensures d.confidence >= cfg.threshold && |d.actions| > 0 ==>
      && r.Ok? && r.value.Some?
      && r.value.value.messageType == Protocol.UiModification
      && r.value.value.source == "decision_engine"
      && r.value.value.sessionId == msg.sessionId && r.value.value.userId == msg.userId
      && "target_element" in r.value.value.payload
      && r.value.value.payload["target_element"] == GetOr(d.actions[0], "target_element", JStr(""))
  {
    if d.confidence >= cfg.threshold then
      if |d.actions| == 0 then Err(PyError(IndexError, "list index out of range"))
      else
        UiModificationConstructs(msg, d.actions[0], defaultType, d.reasoning, fr);
        Ok(Some(Protocol.Construct(Protocol.UiModificationClass,
                                   UiModificationData(msg, d.actions[0], defaultType, d.reasoning), fr).value))
    else Ok(None)
  }

  function VoiceContext(msg: Protocol.Message): Context {
    Context(msg.userId, msg.sessionId, GetOr(msg.payload, "device_info", JObj(map[])), [],
            Some(map["transcript" := GetOr(msg.payload, "transcript", JStr("")),
                     "intent" := GetOr(msg.payload, "intent", JObj(map[])),
                     "confidence" := GetOr(msg.payload, "confidence", JInt(0))]),
            None)
  }

  function VoiceDecisionInput(msg: Protocol.Message): Obj {
    map["input_type" := JStr("voice"),
        "command" := GetOr(msg.payload, "transcript", JStr("")),
        "intent" := GetOr(msg.payload, "intent", JObj(map[])),
        "confidence" := GetOr(msg.payload, "confidence", JInt(0))]
  }

  /** `process_voice_command`: below the threshold nothing; at or above it a
      UI modification from the first action, or IndexError when there is none.
      Under a threshold of at least 0.7 every failure comes from the decision
      itself, never from `actions[0]`. */
  function ProcessVoiceCommand(cfg: Config, msg: Protocol.Message, oracle: Oracle, fr: Protocol.Fresh)
    : (r: Result<Option<Protocol.Message>, PyError>)
    ensures var dr := MakeDecision(cfg.strategy, VoiceContext(msg), VoiceDecisionInput(msg), oracle);
      && (dr.Err? ==> r == Err(dr.error))
      && (dr.Ok? && dr.value.confidence < cfg.threshold ==> r == Ok(None))
      && (dr.Ok? && dr.value.confidence >= cfg.threshold && |dr.value.actions| == 0 ==>
            r.Err? && r.error.kind == IndexError)
      && (dr.Ok? && dr.value.confidence >= cfg.threshold && |dr.value.actions| > 0 ==>
            && r.Ok? && r.value.Some?
            && r.value.value.messageType == Protocol.UiModification
            && r.value.value.source == "decision_engine"
            && r.value.value.sessionId == msg.sessionId && r.value.value.userId == msg.userId)
      && (cfg.threshold >= 0.7 && r.Err? ==> dr.Err?)
  {
    var dr := MakeDecision(cfg.strategy, VoiceContext(msg), VoiceDecisionInput(msg), oracle);
    ConfidentDecisionHasAction(cfg.strategy, VoiceContext(msg), VoiceDecisionInput(msg), oracle);
    if dr.Err? then Err(dr.error)
    else GuardedModification(cfg, msg, dr.value, "style", fr)
  }

  /** Under the ML and hybrid strategies a voice confidence that is not a
      number reaches the `> 0.8` comparison of the ML strategy and raises
      TypeError, once the behaviour analysis and the rules have passed. */
  lemma NonNumericVoiceConfidenceRaises(cfg: Config, msg: Protocol.Message, oracle: Oracle, fr: Protocol.Fresh)
    requires cfg.strategy == MlBased || (cfg.strategy == Hybrid && RuleBasedDecision(VoiceDecisionInput(msg)).Ok?)
    requires AnalyzeUserBehavior(VoiceContext(msg)).Ok?
    requires Sized(GetOr(msg.payload, "transcript", JStr("")))
    requires var c := GetOr(msg.payload, "confidence", JInt(0)); !(c.JInt? || c.JReal? || c.JBool?)
    ensures ProcessVoiceCommand(cfg, msg, oracle, fr) ==
      Err(PyError(TypeError, AboveFloatText(TypeNameOf(GetOr(msg.payload, "confidence", JInt(0))))))
  {
    var ctx := VoiceContext(msg);
    VoiceContextFeatures(msg);
    MlRaisesOnConfidence(cfg.strategy, ctx, VoiceDecisionInput(msg), oracle);
  }

  lemma VoiceContextFeatures(msg: Protocol.Message)
    ensures var ctx := VoiceContext(msg);
      && VoiceConfidenceFeature(ctx) == GetOr(msg.payload, "confidence", JInt(0))
      && VoiceTranscriptFeature(ctx) == Some(GetOr(msg.payload, "transcript", JStr("")))
      && SelectedElementFeature(ctx) == None
  {
  }

  /** Once the analysis passes and the features can be extracted up to the
      comparison, a voice confidence that is not a number makes the ML and
      hybrid strategies raise the comparison's TypeError. */
  lemma MlRaisesOnConfidence(strategy: Strategy, ctx: Context, input: Obj, oracle: Oracle)
    requires strategy == MlBased || (strategy == Hybrid && RuleBasedDecision(input).Ok?)
    requires AnalyzeUserBehavior(ctx).Ok?
    requires FeatureLength(VoiceTranscriptFeature(ctx)).Ok? && FeatureLength(SelectedElementFeature(ctx)).Ok?
    requires VoiceConfidenceAbove(VoiceConfidenceFeature(ctx)).Err?
    ensures MakeDecision(strategy, ctx, input, oracle) == Err(VoiceConfidenceAbove(VoiceConfidenceFeature(ctx)).error)
  {
  }

  /** The payload of a "change color" voice command sent with `"confidence": null`. */
  function NullConfidencePayload(): Obj {
    map["transcript" := JStr("change color"), "intent" := JObj(map[]), "confidence" := JNull,
        "language" := JStr("zh-TW"), "audio_duration" := JReal(0.0)]
  }

  lemma NullConfidencePayloadFields(pl: Obj)
    requires pl == NullConfidencePayload()
    ensures GetOr(pl, "transcript", JStr("")) == JStr("change color")
    ensures GetOr(pl, "intent", JObj(map[])) == JObj(map[])
    ensures GetOr(pl, "confidence", JInt(0)) == JNull
    ensures GetOr(pl, "device_info", JObj(map[])) == JObj(map[])
  {
  }

  /** A voice input with a string command and a dict intent passes the rules. */
  lemma VoiceRulesPass(input: Obj)
    requires GetOr(input, "input_type", JStr("unknown")) == JStr("voice")
    requires GetOr(input, "command", JStr("")).JStr?
    requires GetOr(input, "intent", JObj(map[])).JObj?
    ensures RuleBasedDecision(input).Ok?
  {
  }

  /** A voice command whose confidence is `null`, under the default hybrid
      strategy and threshold: "change color" passes the rules, and the ML
      strategy then raises. */
  lemma NullVoiceConfidenceRaises(msg: Protocol.Message, oracle: Oracle, fr: Protocol.Fresh)
    requires msg.payload == NullConfidencePayload()
    ensures ProcessVoiceCommand(Config(Hybrid, DefaultThreshold), msg, oracle, fr) ==
      Err(PyError(TypeError, "'>' not supported between instances of 'NoneType' and 'float'"))
  {
    NullConfidencePayloadFields(msg.payload);
    VoiceInputFields(msg);
    AnalysisWithoutDeviceInfo(msg);
    NonNumericVoiceConfidenceRaises(Config(Hybrid, DefaultThreshold), msg, oracle, fr);
    AboveFloatTextOfNone();
  }

  lemma VoiceInputFields(msg: Protocol.Message)
    requires GetOr(msg.payload, "transcript", JStr("")).JStr?
    requires GetOr(msg.payload, "intent", JObj(map[])).JObj?
    ensures RuleBasedDecision(VoiceDecisionInput(msg)).Ok?
  {
    VoiceRulesPass(VoiceDecisionInput(msg));
  }

  /** Without device information the behaviour analysis of a voice command passes. */
  lemma AnalysisWithoutDeviceInfo(msg: Protocol.Message)
    requires GetOr(msg.payload, "device_info", JObj(map[])) == JObj(map[])
    ensures AnalyzeUserBehavior(VoiceContext(msg)).Ok?
  {
    assert DevicePreferences(JObj(map[])).Ok?;
  }

  function VisualContext(msg: Protocol.Message): Context {
    Context(msg.userId, msg.sessionId, GetOr(msg.payload, "device_info", JObj(map[])), [],
            None,
            Some(map["selected_element" := GetOr(msg.payload, "selected_element", JObj(map[])),
                     "debug_action" := GetOr(msg.payload, "debug_action", JStr("")),
                     "page_context" := GetOr(msg.payload, "page_context", JObj(map[]))]))
  }

  function VisualDecisionInput(msg: Protocol.Message): Obj {
    map["input_type" := JStr("visual_debug"),
        "selected_element" := GetOr(msg.payload, "selected_element", JObj(map[])),
        "debug_action" := GetOr(msg.payload, "debug_action", JStr("")),
        "page_context" := GetOr(msg.payload, "page_context", JObj(map[]))]
  }

  /** `process_visual_debug`, with the same guard as `process_voice_command`. */
  function ProcessVisualDebug(cfg: Config, msg: Protocol.Message, oracle: Oracle, fr: Protocol.Fresh)
    : (r: Result<Option<Protocol.Message>, PyError>)
    ensures var dr := MakeDecision(cfg.strategy, VisualContext(msg), VisualDecisionInput(msg), oracle);
      && (dr.Err? ==> r == Err(dr.error))
      && (dr.Ok? && dr.value.confidence < cfg.threshold ==> r == Ok(None))
      && (dr.Ok? && dr.value.confidence >= cfg.threshold && |dr.value.actions| == 0 ==>
            r.Err? && r.error.kind == IndexError)
      && (dr.Ok? && dr.value.confidence >= cfg.threshold && |dr.value.actions| > 0 ==>
            && r.Ok? && r.value.Some?
            && r.value.value.messageType == Protocol.UiModification
            && r.value.value.source == "decision_engine"
            && r.value.value.sessionId == msg.sessionId && r.value.value.userId == msg.userId)
      && (cfg.threshold >= 0.7 && r.Err? ==> dr.Err?)
  {
    var dr := MakeDecision(cfg.strategy, VisualContext(msg), VisualDecisionInput(msg), oracle);
    ConfidentDecisionHasAction(cfg.strategy, VisualContext(msg), VisualDecisionInput(msg), oracle);
    if dr.Err? then Err(dr.error)
    else GuardedModification(cfg, msg, dr.value, "debug", fr)
  }

  /** With a threshold lowered to 0.6 the rule strategy's empty decision
      reaches `actions[0]` and raises IndexError. */
  lemma LowThresholdIndexesEmptyActions(oracle: Oracle, fr: Protocol.Fresh)
    ensures var msg := Protocol.Message("m", Protocol.VoiceCommand, 0, "client", None, Protocol.Normal, "1.0",
                                        None, None, map["transcript" := JStr("")], map[]);
      var r := ProcessVoiceCommand(Config(RuleBased, 0.6), msg, oracle, fr);
      r.Err? && r.error.kind == IndexError
  {
    var msg := Protocol.Message("m", Protocol.VoiceCommand, 0, "client", None, Protocol.Normal, "1.0",
                                None, None, map["transcript" := JStr("")], map[]);
    var input := VoiceDecisionInput(msg);
    EmptyTranscriptInput(msg);
    EmptyCommandMatchesNothing(input);
    assert DevicePreferences(JObj(map[])).Ok?;
    assert AnalyzeUserBehavior(VoiceContext(msg)).Ok?;
  }

  lemma EmptyTranscriptInput(msg: Protocol.Message)
    requires msg.payload == map["transcript" := JStr("")]
    ensures var input := VoiceDecisionInput(msg);
      && GetOr(input, "input_type", JStr("unknown")) == JStr("voice")
      && GetOr(input, "command", JStr("")) == JStr("")
      && GetOr(input, "intent", JObj(map[])).JObj?
  {
  }

  /** An empty voice command matches no rule. */
  lemma EmptyCommandMatchesNothing(input: Obj)
    requires GetOr(input, "input_type", JStr("unknown")) == JStr("voice")
    requires GetOr(input, "command", JStr("")) == JStr("")
    ensures var r := RuleBasedDecision(input);
      r.Ok? && r.value.actions == [] && r.value.confidence == 0.6
  {
    assert Strings.Lower("") == "";
    assert !Strings.ContainsAny("", ModifyKeywords);
    assert !Strings.ContainsAny("", SelectKeywords);
  }
}
