# SmartUI Fusion core, modelled in Dafny

This project models the deterministic core of SmartUI Fusion. SmartUI Fusion is a Python platform that joins three parts:

- a visual debugging toolbar (Stagewise);
- a voice front end (LiveKit);
- a decision engine that turns voice commands and element selections into UI modifications.

Every part talks over one message protocol, AG-UI. The model covers the following; each module is named in brackets:

- the AG-UI message classes and the protocol handler (`Protocol`);
- the two decision engines (`EnhancedEngine`, `DecisionEngine`);
- the user analyzer (`UserAnalyzer`);
- the pure helpers of the Stagewise integration (`Stagewise`);
- the application's websocket dispatch (`App`).

Support modules:

- `Wrappers`: `Option` and `Result`.
- `Json`:
  - JSON-shaped values;
  - Python exceptions as error values;
  - `dict.get`, truthiness and `str()`.
- `Strings`: ASCII lowering, substring search, `split()[0]` and decimal text.
- `Seqs`: filtering, counting and first-occurrence de-duplication.
- `Sorting`: a stable descending sort, and its top `n`.

How Python behaviour is modelled:

- Every Python exception the code can raise becomes an `Err(PyError(kind, text))`.
- Every `try/except` becomes a match on that result.
- Mutable registries (handlers, sessions, connections, histories) are map-valued records. Each is updated by a pure transition function.
- Clock readings, `uuid4()` ids, the ML strategy's random draw and framework callbacks are parameters.

Notable facts the proofs establish:

- A round trip through `serialize`/`deserialize` resets every payload key a message subclass lists. For example, a voice command's transcript comes back empty.
- The websocket handlers for voice and visual-debug messages, as written, can never answer with success (see Findings).
- Every websocket message is first recorded as a KEYBOARD interaction of its user. After that, the user-interaction handler records its own interaction only when the message carries a top-level `interaction_type`. The constructor overwrites the payload's own value with that argument.
- With the default threshold 0.7, the decision engine's `actions[0]` access is safe for every strategy.

## Model

| member | source | states |
|---|---|---|
| Protocol.ParseType | src/protocols/ag_ui_protocol.py:14-45 | a parsed string is the value string of the type it parses to |
| Protocol.ParseTypeValue | src/protocols/ag_ui_protocol.py:14-45 | every type's value string parses back to that type |
| Protocol.ParseTypeJson | src/protocols/ag_ui_protocol.py:196 | a message type parses iff it is a string naming a type |
| Protocol.EmptyMessageTypeText | src/protocols/ag_ui_protocol.py:196 | an empty type string raises ValueError "'' is not a valid MessageType", the value shown by `repr` |
| Protocol.ClassFor | src/protocols/ag_ui_protocol.py:196-207 | exactly the five subclass types map to a subclass; every other valid type uses the base message class |
| Protocol.Construct | src/protocols/ag_ui_protocol.py:72-150 | construction succeeds iff pydantic validation does; every listed payload key then holds the top-level argument or its default, whatever the incoming payload held; other payload keys and all fields survive |
| Protocol.DictToMessage | src/protocols/ag_ui_protocol.py:194-208 | a missing or unknown type string raises ValueError; otherwise the class chosen by the type string is constructed |
| Protocol.Serialize | src/protocols/ag_ui_protocol.py:225-227 | the serialized dictionary has exactly the eleven message fields as keys |
| Protocol.ValidateSerialized | src/protocols/ag_ui_protocol.py:56-69 | validating a serialized message gives back the same field values |
| Protocol.DeserializeSerialized | src/protocols/ag_ui_protocol.py:225-232 | a round trip gives the message with its class's payload update re-applied |
| Protocol.RoundTripBase | src/protocols/ag_ui_protocol.py:225-232 | a base-class message survives a round trip unchanged |
| Protocol.RoundTripResetsListedKeys | src/protocols/ag_ui_protocol.py:77-150 | after a round trip every listed payload key holds its default and every other payload key keeps its value |
| Protocol.OverridesOfSerialized | src/protocols/ag_ui_protocol.py:77-85 | the payload update built from a serialized dictionary is the table of defaults |
| Protocol.ListedKeysAreNotFields | src/protocols/ag_ui_protocol.py:56-150 | no listed payload key is also a top-level field name |
| Protocol.RoundTripLosesTranscript | src/protocols/ag_ui_protocol.py:77-85 | a voice command with transcript "hi" comes back with transcript "" and so differs from the original |
| Protocol.RegisterHandler | src/protocols/ag_ui_protocol.py:162-164 | the new handler replaces any earlier one for that type; other types and the middleware are unchanged |
| Protocol.AddMiddleware | src/protocols/ag_ui_protocol.py:166-168 | the middleware goes at the end of the stack; the handlers are unchanged |
| Protocol.RunMiddlewareAppend | src/protocols/ag_ui_protocol.py:178-181 | an appended middleware runs after the existing stack, and only on a message the stack let through |
| Protocol.MiddlewareNoneStops | src/protocols/ag_ui_protocol.py:178-181 | once some middleware returns None, the pipeline result is None whatever follows |
| Protocol.ErrorResponse | src/protocols/ag_ui_protocol.py:210-223 | an ERROR_REPORT from "protocol_handler" back to the original source, with the same session and user, carrying the original id, "HANDLER_ERROR" and the text |
| Protocol.ProcessMessage | src/protocols/ag_ui_protocol.py:170-192 | a conversion error or a middleware exception propagates; a message the middleware drops gives None; for a message the middleware passes on, a missing handler and a handler exception both become an error report for that message, otherwise the handler's reply is returned |
| Protocol.ProcessNeverRaises | src/protocols/ag_ui_protocol.py:170-192 | for a message object and whatever middleware stack passes on a message m', the three outcomes hold for m': no handler gives the "No handler" error report, a handler exception gives an error report with its text, otherwise the handler's reply |
| Protocol.RegisteredHandlerInvoked | src/protocols/ag_ui_protocol.py:162-164 | the handler registered last for a type is the one that receives the message the middleware produced |
| Protocol.DroppedMessageNotHandled | src/protocols/ag_ui_protocol.py:178-181 | a message the middleware drops gets no handler and the result is None |
| Protocol.IsSupported | src/protocols/ag_ui_protocol.py:239-246 | a version is supported iff it is "1.0" |
| Protocol.GetCompatibilityInfo | src/protocols/ag_ui_protocol.py:248-254 | migration is required iff the version is not "1.0", which is exactly when it is unsupported |
| Protocol.RouteMessage | src/protocols/ag_ui_protocol.py:273-284 | no target gives None; a registered load balancer decides before a direct route; otherwise the direct route or None |
| Protocol.RouteAfterRegister | src/protocols/ag_ui_protocol.py:265-284 | after a route is registered for a target without a balancer, messages to it go to that endpoint |
| Protocol.BalancerTakesPrecedence | src/protocols/ag_ui_protocol.py:269-284 | after a balancer is registered for a target, it decides the route even when a direct route exists |
| EnhancedEngine.PreferredInput | src/core/enhanced_decision_engine.py:131-158 | "voice" iff the voice share is above 0.7, "visual" iff not that and the visual share is above 0.7, else "mixed", also for an empty history |
| EnhancedEngine.AtMostOneDominantShare | src/core/enhanced_decision_engine.py:141-156 | the voice and visual shares cannot both exceed 0.7 |
| EnhancedEngine.DevicePreferences | src/core/enhanced_decision_engine.py:160-179 | width below 768 gives small/performance, above 1920 large/features, otherwise medium/balanced; a missing width gives medium |
| EnhancedEngine.DevicePreferencesMonotone | src/core/enhanced_decision_engine.py:164-176 | a wider screen never gets a smaller size class |
| EnhancedEngine.CompletionRate | src/core/enhanced_decision_engine.py:181-198 | completed/tasks when there are task entries, otherwise 0.85; never negative |
| EnhancedEngine.CompletionRateAtMostOne | src/core/enhanced_decision_engine.py:183-196 | when only task entries are marked completed, the rate is at most 1 |
| EnhancedEngine.CompletionRateCanExceedOne | src/core/enhanced_decision_engine.py:183-196 | a history whose completed entries are not tasks gives a rate above 1 |
| EnhancedEngine.AnalyzeUserBehavior | src/core/enhanced_decision_engine.py:101-129 | the profile succeeds iff the device analysis does, and carries the preferred input, screen size and completion rate |
| EnhancedEngine.RuleBasedDecision | src/core/enhanced_decision_engine.py:336-409 | at most one action; rule_matches equals the number of actions; no action iff confidence 0.6; a voice input fails iff its command is not a string ('lower') or a rule that reads the intent matches and the intent is not a dict ('get'); a visual input fails iff the action is inspect or modify and the selected element is not a dict ('get'); any other input type succeeds |
| EnhancedEngine.VoiceRules | src/core/enhanced_decision_engine.py:345-371 | modify+colour gives one modify_style action at 0.8 for LIVEKIT; modify without colour gives nothing at 0.6 and the select rule is never tried; select alone gives select_element at 0.75 |
| EnhancedEngine.VisualRules | src/core/enhanced_decision_engine.py:373-407 | "inspect" gives 0.9 and "modify" 0.85, both for STAGEWISE; anything else gives no action at 0.6 for BALANCED |
| EnhancedEngine.VoiceConfidenceAbove | src/core/enhanced_decision_engine.py:423 | the comparison with 0.8 succeeds iff the confidence is a number, and then says whether it exceeds 0.8; otherwise TypeError "'>' not supported between instances of '<type>' and 'float'" |
| EnhancedEngine.ExtractFeatures | src/core/enhanced_decision_engine.py:634-656 | the features are read iff the transcript and the selected element have a length, the device description is a dict with a numeric width, and the voice confidence compares with 0.8; the comparison's TypeError is the error when only it fails |
| EnhancedEngine.MlDecision | src/core/enhanced_decision_engine.py:411-458 | fails exactly with the feature error; otherwise one action at confidence 0.7 + 0.2·draw: a voice response for LiveKit above 0.8 voice confidence, else simplify_interface for Stagewise when the selected element has more than 7 keys, else adaptive_ui for SmartUI |
| EnhancedEngine.MlConfidenceRange | src/core/enhanced_decision_engine.py:417 | with a draw in [0, 1) the ML confidence is in [0.7, 0.9) |
| EnhancedEngine.RuleThenMl | src/core/enhanced_decision_engine.py:460-496 | the rule strategy runs first and its error wins; then the ML error; otherwise the hybrid of the two |
| EnhancedEngine.MergeActions | src/core/enhanced_decision_engine.py:474-478 | the primary actions first, followed by exactly the secondary actions not among them, in order |
| EnhancedEngine.HybridDecision | src/core/enhanced_decision_engine.py:460-496 | the rule result leads only when strictly more confident than ML (ties go to ML); confidence is 0.6·rule + 0.4·ml |
| EnhancedEngine.HybridBetween | src/core/enhanced_decision_engine.py:480-481 | the hybrid confidence lies between the two input confidences |
| EnhancedEngine.SmartUiDecision | src/core/enhanced_decision_engine.py:498-592 | at least one action, the first chosen by preferred input; simplify_workflow iff completion < 0.7; mobile_optimization iff the screen is small; metadata carries the profile, or an empty dict without one |
| EnhancedEngine.HeuristicDecision | src/core/enhanced_decision_engine.py:594-632 | a non-dict device description raises; the work-mode action appears iff the hour is in 9..17, the mobile action iff is_mobile is truthy; confidence 0.8 on mobile, else 0.7 in work hours, else 0.5 |
| EnhancedEngine.MakeDecision | src/core/enhanced_decision_engine.py:303-334 | an analysis error propagates; otherwise, per strategy, the rule decision, the ML decision for the oracle's draw, the rule-then-ML hybrid, the SmartUI decision for the analysed profile, or the heuristic decision for the oracle's hour and the device description |
| EnhancedEngine.ConfidentDecisionHasAction | src/core/enhanced_decision_engine.py:249-255 | for every strategy and every draw in [0, 1), a decision with confidence at least 0.7 has a non-empty action list |
| EnhancedEngine.UiModificationConstructs | src/core/enhanced_decision_engine.py:249-259 | the modification message always validates, from "decision_engine", with the message's session and user and the action's target |
| EnhancedEngine.GuardedModification | src/core/enhanced_decision_engine.py:249-261 | below the threshold None; at or above it a message from the first action, or IndexError when there is none |
| EnhancedEngine.ProcessVoiceCommand | src/core/enhanced_decision_engine.py:227-263 | decision errors propagate; below threshold None; empty actions at or above it raise IndexError; with a threshold of at least 0.7 every failure comes from the decision itself |
| EnhancedEngine.ProcessVisualDebug | src/core/enhanced_decision_engine.py:265-301 | the same guard for visual-debug input: decision errors propagate, below threshold None, IndexError only when a confident decision has no action, which cannot happen at a threshold of at least 0.7 |
| EnhancedEngine.NonNumericVoiceConfidenceRaises | src/core/enhanced_decision_engine.py:227-247 | under the ML strategy, or the hybrid one once the rule strategy succeeds, a voice command whose confidence is not a number raises the TypeError of the comparison at line 423 on the confidence read at line 640 |
| EnhancedEngine.NullVoiceConfidenceRaises | src/core/enhanced_decision_engine.py:227-247 | under the hybrid strategy a voice command with transcript "change color" and a null confidence raises TypeError "'>' not supported between instances of 'NoneType' and 'float'" |
| EnhancedEngine.LowThresholdIndexesEmptyActions | src/core/enhanced_decision_engine.py:249-255 | with threshold 0.6 an empty voice command makes `actions[0]` raise IndexError |
| DecisionEngine.RuleDecide | src/core/decision_engine.py:321-357 | "ui_modification" at 0.8 with a one-step modify_element plan on the target iff action is "modify" and the target is truthy; otherwise "unknown" at 0.1 with empty parameters and no plan |
| DecisionEngine.MlDecide | src/core/decision_engine.py:364-381 | a fixed 0.75 prediction echoing target and parameters |
| DecisionEngine.HeuristicDecide | src/core/decision_engine.py:386-398 | a fixed 0.6 decision echoing target and parameters |
| DecisionEngine.WeightedSumIsSquaresOverTotal | src/core/decision_engine.py:234-235 | Σ(cᵢ/Σc)·cᵢ equals Σcᵢ²/Σc |
| DecisionEngine.UniformSumIsMean | src/core/decision_engine.py:234-235 | with uniform weights the result is the plain mean |
| DecisionEngine.SquaresBelowMaxTimesSum | src/core/decision_engine.py:234-260 | for non-negative confidences Σcᵢ² ≤ max·Σc |
| DecisionEngine.IntegratedConfidenceBounds | src/core/decision_engine.py:234-260 | for non-negative confidences the integrated confidence lies in [0, max] |
| DecisionEngine.ArgMax | src/core/decision_engine.py:238 | the primary decision is the first of maximal confidence |
| DecisionEngine.Flatten | src/core/decision_engine.py:241-243 | the merged alternatives are exactly those of some decision |
| DecisionEngine.SortedTop | src/core/decision_engine.py:254-262 | sorting raises TypeError iff two or more items have a non-numeric confidence; otherwise the n most confident, sorted descending, drawn from the input, none left out that beats one kept; among equal confidences the kept items are the first ones in input order |
| DecisionEngine.IntegrateDecisions | src/core/decision_engine.py:230-264 | the corrected variant, deduplicating on the (action_type, target) pair: copies action, target, parameters and plan from the first most-confident decision; alternatives are min(5, number of distinct keys) items of the deduplicated list, each at most once, sorted, none left out more confident than one kept, ties kept in input order; no decisions raises ValueError |
| DecisionEngine.AlternativesAreFirstOccurrences | src/core/decision_engine.py:245-252 | every alternative is the first decision alternative with its (action_type, target) key |
| DecisionEngine.AlternativesKept | src/core/decision_engine.py:245-262 | what survives dedup and truncation came from the inputs and has distinct keys |
| DecisionEngine.DistinctKeysKept | src/core/decision_engine.py:245-262 | taking a sub-multiset keeps keys distinct |
| DecisionEngine.DistinctElementOnce | src/core/decision_engine.py:245-252 | with distinct keys every element occurs once |
| DecisionEngine.MakeDecision | src/core/decision_engine.py:207-228 | RULE_BASED, ML_BASED and HEURISTIC return their engine's decision; HYBRID integrates the three engines' decisions in that order |
| DecisionEngine.HybridOfEngines | src/core/decision_engine.py:219-264 | the hybrid result never fails and has no alternatives; it leads with the rule decision iff the modify rule matches, and its confidence reaches 0.7 exactly then |
| DecisionEngine.DedupAlternativesAsWritten | src/core/decision_engine.py:245-252 | the dedup as written keeps items with distinct text keys, drawn from the input |
| DecisionEngine.TextKeysCollide | src/core/decision_engine.py:249 | two different (action_type, target) pairs share one text key |
| DecisionEngine.DedupPair | src/core/decision_engine.py:245-252 | deduplicating two items keeps the second iff its key differs |
| DecisionEngine.TextKeyCollision | src/core/decision_engine.py:249 | the written dedup drops a genuinely different alternative that the pair key keeps |
| DecisionEngine.ElementSuggestions | src/core/decision_engine.py:266-289 | all suggestions, sorted by confidence descending, the best ten, with ties kept in the order the sources produced them, or TypeError for non-numeric confidences |
| DecisionEngine.RecordDecision | src/core/decision_engine.py:291-304 | the count goes up by one and the running mean times the count grows by the response time; the history gains the entry last, is a suffix of the old history plus the entry, and past 10000 entries is cut to 5000 |
| DecisionEngine.RecordAllAverages | src/core/decision_engine.py:291-304 | recording a run counts every entry, keeps the history within 10000, and the average times the count grows by the run's total response time |
| DecisionEngine.AnalyzeInteraction | src/core/decision_engine.py:407-429 | the interaction count goes up by one before anything can fail; an error occurs iff the action is unhashable, element_info is not a dict or its tagName is unhashable; without one the action and the tag are each counted once; other users are unchanged |
| DecisionEngine.AnalyzeInteractionConsistency | src/core/decision_engine.py:410-429 | starting consistent, every counter map still sums to the interaction count iff the call completes without an error |
| UserAnalyzer.ParseInteractionType | src/core/smartui_user_analyzer.py:23-31 | a value string parses to its type; anything else is a ValueError |
| UserAnalyzer.EmptyInteractionTypeText | src/main.py:425 | an empty type string raises ValueError "'' is not a valid InteractionType" |
| UserAnalyzer.GetOrCreateProfile | src/core/smartui_user_analyzer.py:223-240 | an existing profile is returned unchanged; otherwise a new one for that user is stored; an unhashable id raises |
| UserAnalyzer.GetOrCreateProfileIdempotent | src/core/smartui_user_analyzer.py:223-240 | a second call returns the same profile and changes nothing |
| UserAnalyzer.KeepNewest | src/core/smartui_user_analyzer.py:131 | a `deque(maxlen=1000)`: the newest 1000 entries |
| UserAnalyzer.KeepNewestAppend | src/core/smartui_user_analyzer.py:131 | appending keeps the history within 1000 with the new entry last; the oldest entry goes only when the cap was reached |
| UserAnalyzer.RecordInteraction | src/core/smartui_user_analyzer.py:152-178 | success iff both ids are hashable; the user's history gains the entry within its cap; the session is created on first use with the interaction's timestamp and user, otherwise appended to |
| UserAnalyzer.SliceFromEnd | src/core/smartui_user_analyzer.py:254-255 | Python's `xs[-k:]` for positive and negative k |
| UserAnalyzer.Window | src/core/smartui_user_analyzer.py:248-252 | exactly the user's interactions no older than the cutoff |
| UserAnalyzer.RecentInteractions | src/core/smartui_user_analyzer.py:242-256 | an unknown user gives []; the window in order; a truthy limit applies `[-limit:]` |
| UserAnalyzer.RecentIsNewestOfWindow | src/core/smartui_user_analyzer.py:242-256 | the result is a suffix of the window, of the limit's length when positive, holding only recorded interactions no older than the cutoff |
| UserAnalyzer.HourOf | src/core/smartui_user_analyzer.py:376 | an hour of day is in [0, 24) |
| UserAnalyzer.DayPartOf | src/core/smartui_user_analyzer.py:376-385 | [6,12) morning, [12,18) afternoon, [18,24) evening, else night |
| UserAnalyzer.ErrorTimeDistribution | src/core/smartui_user_analyzer.py:373-387 | a bucket appears iff some error falls in it, with that count |
| UserAnalyzer.BucketsSumToErrors | src/core/smartui_user_analyzer.py:376-385 | the four bucket counts add up to the number of errors |
| UserAnalyzer.CalculateErrorTrend | src/core/smartui_user_analyzer.py:557-574 | insufficient below 5 errors, else improving with no recent error, worsening when recent errors are more than half, else stable |
| UserAnalyzer.ErrorTrendIgnoresOrder | src/core/smartui_user_analyzer.py:560-566 | sorting the errors first does not change the trend |
| UserAnalyzer.DetectErrorPattern | src/core/smartui_user_analyzer.py:355-403 | TypeError "unhashable type" iff some failed interaction has a truthy list or dict element type, naming the first; otherwise error-free, with confidence 0.8, iff every interaction succeeded, and else the count, the error rate as a proportion of the interactions, confidence 0.7 or 0.4, the distribution, the trend, and assistance iff the error rate exceeds 0.3 |
| UserAnalyzer.DetectAccessibilityNeeds | src/core/smartui_user_analyzer.py:405-472 | keyboard iff its share exceeds 0.7, voice iff above 0.5, slow iff the mean positive duration exceeds 3000, repetitive iff some element/action key occurs more than 5 times; high contrast and large text never; score = set/6 |
| UserAnalyzer.SixthsAbove | src/core/smartui_user_analyzer.py:460 | set/6 > 0.3 iff at least two indicators are set |
| UserAnalyzer.MostlyKeyboard | src/core/smartui_user_analyzer.py:418-426 | the ratio test `keyboard / total > 0.7` holds iff there are interactions and ten times the keyboard count exceeds seven times the total |
| UserAnalyzer.MostlyVoice | src/core/smartui_user_analyzer.py:419-428 | the ratio test `voice / total > 0.5` holds iff there are interactions and twice the voice count exceeds the total |
| UserAnalyzer.SlowOnAverage | src/core/smartui_user_analyzer.py:430-435 | the mean of the positive durations exceeds 3000 iff there is one and their sum exceeds 3000 times their number |
| UserAnalyzer.AccessibilityScoreFacts | src/core/smartui_user_analyzer.py:455-460 | the score is in [0, 4/6]; features are needed iff at least two indicators are set |
| UserAnalyzer.AccessibilityRecommendationsFacts | src/core/smartui_user_analyzer.py:445-453 | one recommendation per settable indicator that is set, in fixed order |
| UserAnalyzer.ClassifyUserType | src/core/smartui_user_analyzer.py:621-644 | one of the six classes; "accessibility_user" iff accessibility is needed; otherwise expert, beginner, voice, visual, else balanced |
| UserAnalyzer.GenerateRecommendations | src/core/smartui_user_analyzer.py:646-678 | no duplicates; exactly the recommendations the rules produce; the accessibility ones whenever features are needed |
| UserAnalyzer.AccessibilityRecommendationsReachUser | src/core/smartui_user_analyzer.py:667-678 | a user whose indicators call for features receives every accessibility recommendation |
| Stagewise.DomPath | src/integrations/stagewise_integration.py:479-496 | with a truthy id, lowercased tag + "#" + id; else with a truthy class name, tag + "." + its first whitespace-separated word; else the tag alone; a whitespace-only class name raises IndexError |
| Stagewise.WhitespaceClassNameFails | src/integrations/stagewise_integration.py:490-492 | the class name "  " passes the guard and then raises IndexError |
| Stagewise.Score | src/integrations/stagewise_integration.py:444 | max(0, 100 − 20·issues) lies in [0, 100] and is 100 iff there are no issues |
| Stagewise.CheckAccessibility | src/integrations/stagewise_integration.py:409-445 | the score is in [0, 100] and is 100 iff no issue was found |
| Stagewise.OnlyMissingAltReported | src/integrations/stagewise_integration.py:415-440 | the keyboard issue is unreachable; the score is 80 for an img without alt text and 100 otherwise |
| Stagewise.RegisterEventHandler | src/integrations/stagewise_integration.py:498-500 | the new handler replaces the previous one for that event; others are unchanged |
| Stagewise.ValidateIds | src/protocols/ag_ui_protocol.py:56-69 | Stagewise's message arguments validate iff the configured ids are strings or absent |
| Stagewise.SelectionMessage | src/integrations/stagewise_integration.py:306-318 | the selection message carries action "select", the element id and the DOM path |
| Stagewise.HandleSelection | src/integrations/stagewise_integration.py:306-323 | a non-dict raises AttributeError; the registered selection handler, and only it, receives the message; no handler, no effect |
| Stagewise.ModificationMessage | src/integrations/stagewise_integration.py:325-337 | the modification message carries the target, the type (default "style") and the id "stagewise_<time>" |
| Stagewise.HandleModification | src/integrations/stagewise_integration.py:325-342 | a non-dict raises AttributeError; the registered modification handler receives the message; no handler, no effect |
| Stagewise.HandleInspection | src/integrations/stagewise_integration.py:344-360 | a falsy element id sends nothing; otherwise a result is sent iff a websocket client exists (`ws_connection` is set on connecting and never cleared) |
| Stagewise.HandleWebsocketMessage | src/integrations/stagewise_integration.py:288-304 | a decode error is ignored; a non-dict raises AttributeError; the three event types go to their handlers |
| Stagewise.OnlyKnownEventsAct | src/integrations/stagewise_integration.py:292-304 | any effect comes from one of the three known event types; other types do nothing |
| Stagewise.InspectionWithoutIdSendsNothing | src/integrations/stagewise_integration.py:347-349 | an inspection request without element_id sends nothing |
| Stagewise.RegisteredSelectionHandlerInvoked | src/integrations/stagewise_integration.py:321-323 | after registration, a selection that goes through reaches the new handler |
| Stagewise.NoHandlerNoEffect | src/integrations/stagewise_integration.py:321-342 | without registered handlers, selection and modification frames have no effect |
| App.Admit | src/main.py:257-258 | the socket is stored under "conn_<live count>", replacing whatever that id held |
| App.Remove | src/main.py:278-280 | the id is gone afterwards and nothing else changes |
| App.RemoveIdempotent | src/main.py:278-280 | removing an already removed id changes nothing |
| App.AdmitOverwritesLiveId | src/main.py:257-258 | when the next id is live, admission does not grow the registry and the earlier socket is lost |
| App.FirstTwoIds | src/main.py:257 | the first two ids are conn_0 and conn_1 |
| App.ConnectionIdReused | src/main.py:254-280 | after conn_0 disconnects, a third connection is named conn_1 and replaces the live second one |
| App.GetOrCreateSessionId | src/main.py:486-497 | the first call creates "session_<user>_<stamp>"; later calls return the same id and only update last_activity; an unhashable user raises |
| App.SessionIdStable | src/main.py:486-497 | a second call returns the first call's id and changes only last_activity |
| App.RecordUserInteraction | src/main.py:460-484 | with a hashable user the newest history entry is this interaction, in the user's session; otherwise the failure is swallowed and nothing changes |
| App.ToDictAsWritten | src/main.py:342 | `to_dict()` on the message raises AttributeError |
| App.ToDictCorrected | src/main.py:342 | the message's field dictionary |
| App.VoiceCommand | src/main.py:317-364 | a construction, engine or rendering error records a failed interaction and answers with its text; None answers "Unable to process voice command"; a rendered message answers success with "ui_modification"; when rendering always raises, the answer is always a failure |
| App.VoiceAsWrittenNeverSucceeds | src/main.py:339-349 | as written, the voice handler always answers with failure |
| App.VoiceCorrectedSucceeds | src/main.py:339-344 | with the corrected rendering a produced modification answers success with the message's fields |
| App.VisualDebug | src/main.py:366-412 | a construction error, a non-dict selected element (AttributeError from `.get`), an engine error or a rendering error records a failed interaction and answers with its text; None answers "Unable to process visual debug command"; a rendered message answers success; when rendering always raises, the answer is always a failure |
| App.VisualAsWrittenNeverSucceeds | src/main.py:387-397 | as written, the visual-debug handler always answers with failure |
| App.VisualCorrectedSucceeds | src/main.py:387-392 | with the corrected rendering a produced modification answers success |
| App.UserInteraction | src/main.py:414-458 | a construction or interaction-type error answers with its text and changes nothing; otherwise the interaction built from the message is recorded and the user's profile created if missing, and the answer is the analysis error or "interaction_recorded" with the analysis |
| App.WithProfile | src/core/smartui_user_analyzer.py:223-240 | as `analyze_user_behavior` calls it at line 190, the user has a profile afterwards; existing profiles, histories and sessions are unchanged |
| App.UserInteractionTypeArgument | src/protocols/ag_ui_protocol.py:142-150 | after construction the payload's interaction_type is the top-level argument, "" when absent |
| App.UserInteractionNeedsTopLevelType | src/main.py:418-426 | without a top-level interaction_type the handler fails and records nothing, whatever the payload says |
| App.RecordWebsocket | src/main.py:285-296 | a message is recorded as a successful KEYBOARD interaction "websocket_<type>" of its user |
| App.ProcessWebsocketMessage | src/main.py:282-315 | with the corrected rendering: always a response with a boolean success; a non-dict gives the error text; the three types go to their own handlers; any other type gives "Unknown message type: <t>" |
| App.UnknownTypeOnlyRecorded | src/main.py:285-308 | an unknown type is still recorded for its user ("anonymous" by default), and nothing else changes |
| Strings.FirstToken | src/integrations/stagewise_integration.py:492 | `split()[0]` is the first whitespace-separated word, after leading whitespace only; none iff the text is all whitespace |
| Strings.Lower | src/integrations/stagewise_integration.py:482 | each ASCII capital is lowered, every other character is kept |
| Seqs.DedupBy | src/core/decision_engine.py:245-252 | keys are distinct, every element comes from the input, and every input key is represented |
| Seqs.DedupByKeepsFirst | src/core/decision_engine.py:245-252 | each kept element is the first element of the input with its key |
| Sorting.SortDesc | src/core/decision_engine.py:254 | sorted descending, a permutation of the input, and stable: the items of each key keep their input order |
| Sorting.TopN | src/core/decision_engine.py:288-289 | the n largest, sorted, drawn from the input, with nothing left out larger than something kept; the items kept for each key are the first ones of that key in input order |

## Left out

- The FastAPI server, HTTP routes, CORS, configuration loading and logging (src/main.py outside the websocket handling). These are framework I/O.
- The websocket receive loop itself. Only the registry bookkeeping around it (admission and the guarded removal) is modelled.
- Selenium, the injected toolbar script, screenshots, element inspection and performance analysis in the Stagewise integration. These are browser side effects. The inspection result is abstracted into the `SendInspection` effect.
- Concurrency. Every operation is modelled as one atomic step.
- `EnhancedEngine._ml_based_decision` draws from `np.random`, and the heuristic strategy reads the hour. Both are `Oracle` parameters.
- The decision history, learning and performance metrics of the enhanced engine. They do not affect the returned decisions.
- The per-user profile cache of the enhanced behaviour analyzer. It is rebuilt on every call.
- `analyze_user_behavior`'s synthesis, caches and real-time statistics in the user analyzer. The real-time analysis the application reports is a parameter.
- The efficiency and device-adaptation detectors and the learning trend, which are float scoring. The classifier takes their outputs as an `Insights` record with the source's `.get` defaults.
- The error_types and error_elements counters of the error pattern. The error-free confidence, the error rate and the TypeError that counting an unhashable element type raises are modelled.
- The helpers `_get_current_ui_state`, `_handle_low_confidence_command` and the four suggestion sources of `_generate_element_suggestions` are not part of this model. The suggestion lists are parameters.
- Json.PyStr and Json.PyRepr render floats, lists and dicts as placeholders (`<float>`, `<list>`, `<dict>`), not as Python's text.
- UserAnalyzer.DetectAccessibilityNeeds: the repetitive indicator counts element/action keys built with Json.PyStr, so two float, list or dict element ids share a key where Python's differ. For example, six clicks on elements 1.5 to 6.5 count as repetitive in the model and not in Python. String, integer, boolean and null ids are rendered as Python renders them.
- Error texts are Python's for the enum lookups, `.get`/`.lower`/`.split` on a non-dict or non-string, unhashable keys, `len()` and the comparisons with 0.8 and ints. Pydantic's ValidationError texts are approximate, and so are the texts of `repr` for non-ASCII characters and of the sort's comparison error.
- App.UserInteraction: the profile `analyze_user_behavior` creates is modelled; the updates `_update_user_profile` makes to it afterwards are not, since the analysis itself is a parameter.
- Dict keys use structural equality, so Python's `1 == 1.0 == True` key collapse is not modelled.
- DecisionEngine.SortedTop: when every confidence is a string, or every one is a list of comparable items, Python would order them lexicographically. The model reports TypeError for any non-numeric confidence among two or more items.
- Python floats are modelled as exact reals, so the NaN and Infinity that `json.loads` accepts cannot be represented, and float rounding is not modelled.
- Strings.Lower lowers ASCII letters only; Python's `str.lower()` also lowers other alphabets.
- The websocket handlers take the engine's voice and visual entry points as function parameters (`App.Deps`). `App.EngineDeps` only fixes them to the enhanced engine, and no lemma follows a message through both the handler and the engine. This keeps each handler's proof independent of the engine's internals.
- App.DurationOf: a non-numeric duration in a payload is recorded as 0. The source stores it as is.
- App.RecordUserInteraction: one message's clock readings are a single `Clock`, where the source reads the time several times.
- UserAnalyzer.HourOf: it uses UTC seconds. The source uses local time.
- src/main.py:32 imports `UserInteraction` and `InteractionType` from the enhanced engine, which does not define them. The model uses the definitions in src/core/smartui_user_analyzer.py.
- Pydantic validation is modelled as per-field type checks over JSON values. Coercions such as string-to-datetime are not modelled, and JSON text parsing is abstracted.

## Findings

| source | as written | input that shows it | evidently intended | confidence | as-written member | corrected member |
|---|---|---|---|---|---|---|
| src/main.py:339-344, 387-392 | the handlers call `ui_modification.to_dict()`, but the pydantic message class has no `to_dict`; the AttributeError is caught and answered as a failure | any voice command the engine turns into a modification, e.g. transcript "change color" under the rule strategy | answer success with the message's fields | not executed | App.VoiceAsWrittenNeverSucceeds, App.VisualAsWrittenNeverSucceeds, App.ToDictAsWritten | App.ToDictCorrected, App.VoiceCorrectedSucceeds, App.VisualCorrectedSucceeds, App.ProcessWebsocketMessage |
| src/core/decision_engine.py:249 | alternatives are deduplicated on the text `f"{action_type}_{target_element}"`, which collides for different pairs | action_type "a_b" with target "c", and action_type "a" with target "b_c" | deduplicate on the (action_type, target_element) pair | not executed | DecisionEngine.DedupAlternativesAsWritten, DecisionEngine.TextKeyCollision | DecisionEngine.IntegrateDecisions |
