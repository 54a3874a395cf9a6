/** `SmartUIUserAnalyzer`: profiles, bounded per-user interaction history,
    session records, windowing, error-hour buckets, the error trend,
    accessibility indicators, user-type classification and recommendations
    (src/core/smartui_user_analyzer.py). Timestamps are whole seconds. */
module UserAnalyzer {
  import opened Wrappers
  import opened Json
  import Seqs
  import Strings

  datatype InteractionType = Voice | Visual | Touch | Keyboard | Mouse | Gesture

  function InteractionTypeValue(t: InteractionType): string {
    match t
    case Voice => "voice"
    case Visual => "visual"
    case Touch => "touch"
    case Keyboard => "keyboard"
    case Mouse => "mouse"
    case Gesture => "gesture"
  }

  /** `InteractionType(v)`: lookup by value, ValueError for anything else. */
  function ParseInteractionType(v: Value): (r: Result<InteractionType, PyError>)
    ensures r.Ok? ==> v == JStr(InteractionTypeValue(r.value))
    ensures r.Err? ==> r.error.kind == ValueError
  {
    if v == JStr("voice") then Ok(Voice)
    else if v == JStr("visual") then Ok(Visual)
    else if v == JStr("touch") then Ok(Touch)
    else if v == JStr("keyboard") then Ok(Keyboard)
    else if v == JStr("mouse") then Ok(Mouse)
    else if v == JStr("gesture") then Ok(Gesture)
    else Err(PyError(ValueError, NotAnInteractionType(v)))
  }

  /** The message of the `ValueError` the enum raises for a value it lacks. */
  function NotAnInteractionType(v: Value): string {
    PyRepr(v) + " is not a valid InteractionType"
  }

  lemma EmptyNotAnInteractionType()
    ensures NotAnInteractionType(JStr("")) == "'' is not a valid InteractionType"
  {
    Strings.EmptyRepr();
  }

  /** The empty value is not a member, and the message quotes it. */
  lemma EmptyInteractionTypeText()
    ensures ParseInteractionType(JStr("")) == Err(PyError(ValueError, "'' is not a valid InteractionType"))
  {
    EmptyNotAnInteractionType();
  }

  lemma ParseInteractionTypeValue(t: InteractionType)
    ensures ParseInteractionType(JStr(InteractionTypeValue(t))) == Ok(t)
  {
  }

  /** A `UserInteraction`. The dataclass checks no types: ids, element fields
      and the action hold whatever the caller passed; `success` is only ever
      read for its truth value. */
  datatype Interaction = Interaction(
    interactionId: string,
    userId: Value,
    sessionId: Value,
    timestamp: int,
    interactionType: InteractionType,
    elementId: Value,
    elementType: Value,
    action: Value,
    context: Value,
    success: bool,
    duration: real,
    errorMessage: Option<string>)

  /** A `UserProfile`; every dictionary and list field starts empty and is
      not modelled. */
  datatype Profile = Profile(userId: Value, createdAt: int, lastUpdated: int)

  datatype Session = Session(startTime: int, interactions: seq<Interaction>, userId: Value)

  datatype State = State(profiles: map<Value, Profile>, history: map<Value, seq<Interaction>>,
                         sessions: map<Value, Session>)

  function EmptyState(): State {
    State(map[], map[], map[])
  }

  /** `deque(maxlen=1000)`. */
  const HistoryCap: nat := 1000

  // ---- profiles ----

  /** `get_or_create_user_profile`; an unhashable id makes the lookup raise. */
  function GetOrCreateProfile(st: State, user: Value, now: int): (r: Result<(State, Profile), PyError>)
    ensures r.Err? <==> !Hashable(user)
    ensures r.Ok? ==> user in r.value.0.profiles && r.value.0.profiles[user] == r.value.1
    ensures r.Ok? && user in st.profiles ==> r.value == (st, st.profiles[user])
    ensures r.Ok? && user !in st.profiles ==>
      && r.value.1 == Profile(user, now, now)
      && r.value.0 == st.(profiles := st.profiles[user := r.value.1])
  {
    if !Hashable(user) then Err(Unhashable(user))
    else if user in st.profiles then Ok((st, st.profiles[user]))
    else
      var p := Profile(user, now, now);
      Ok((st.(profiles := st.profiles[user := p]), p))
  }

  /** A second call returns the same profile and changes nothing, whatever the clock says. */
  lemma GetOrCreateProfileIdempotent(st: State, user: Value, now: int, later: int)
    requires Hashable(user)
    ensures var first := GetOrCreateProfile(st, user, now).value;
      GetOrCreateProfile(first.0, user, later) == Ok(first)
  {
  }

  // ---- recording ----

  /** The newest `HistoryCap` entries. */
  function KeepNewest(h: seq<Interaction>): (r: seq<Interaction>)
    ensures |r| == if |h| > HistoryCap then HistoryCap else |h|
    ensures r == h[|h| - |r|..]
  {
    if |h| > HistoryCap then h[|h| - HistoryCap..] else h
  }

  function HistoryOf(st: State, user: Value): seq<Interaction> {
    if user in st.history then st.history[user] else []
  }

  /** `record_interaction`: append to the user's bounded history, then to the
      session record, created on the session's first interaction. Either
      dictionary access raises for an unhashable key, which is caught and
      reported as `False`; the history append has already happened when the
      session key is the one at fault. */
  function RecordInteraction(st: State, i: Interaction): (r: (State, bool))
    ensures r.1 <==> Hashable(i.userId) && Hashable(i.sessionId)
    ensures !Hashable(i.userId) ==> r.0 == st
    ensures Hashable(i.userId) ==>
      && r.0.history == st.history[i.userId := KeepNewest(HistoryOf(st, i.userId) + [i])]
      && r.0.profiles == st.profiles
      && var h := r.0.history[i.userId]; 0 < |h| <= HistoryCap && h[|h| - 1] == i
    ensures Hashable(i.userId) && !Hashable(i.sessionId) ==> r.0.sessions == st.sessions
    ensures r.1 ==>
      && r.0.sessions.Keys == st.sessions.Keys + {i.sessionId}
      && (forall s :: s in st.sessions && s != i.sessionId ==> r.0.sessions[s] == st.sessions[s])
      && (i.sessionId in st.sessions ==>
            r.0.sessions[i.sessionId]
            == st.sessions[i.sessionId].(interactions := st.sessions[i.sessionId].interactions + [i]))
      && (i.sessionId !in st.sessions ==>
            r.0.sessions[i.sessionId] == Session(i.timestamp, [i], i.userId))
  {
    if !Hashable(i.userId) then (st, false)
    else
      KeepNewestAppend(HistoryOf(st, i.userId), i);
      var st1 := st.(history := st.history[i.userId := KeepNewest(HistoryOf(st, i.userId) + [i])]);
      if !Hashable(i.sessionId) then (st1, false)
      else
        var session := if i.sessionId in st.sessions then st.sessions[i.sessionId]
                       else Session(i.timestamp, [], i.userId);
        (st1.(sessions := st.sessions[i.sessionId := session.(interactions := session.interactions + [i])]), true)
  }

  /** Appending and trimming keeps a history within the cap with the new
      entry last; the oldest entry goes only once the cap is reached. */
  lemma KeepNewestAppend(h: seq<Interaction>, i: Interaction)
    ensures var k := KeepNewest(h + [i]);
      && 0 < |k| <= HistoryCap
      && k[|k| - 1] == i
      && (|h| < HistoryCap ==> k == h + [i])
      && (|h| == HistoryCap ==> k == h[1..] + [i])
  {
    if |h| == HistoryCap {
      assert (h + [i])[1..] == h[1..] + [i];
    }
  }

  // ---- windowing ----

  /** `xs[-k:]` for a non-zero `k`. */
  function SliceFromEnd<T>(xs: seq<T>, k: int): (r: seq<T>)
    requires k != 0
    ensures k > 0 ==> r == xs[|xs| - (if k < |xs| then k else |xs|)..]
    ensures k < 0 ==> r == xs[(if -k < |xs| then -k else |xs|)..]
  {
    var start := -k;
    if start < 0 then
      var s := |xs| + start;
      xs[(if s < 0 then 0 else s)..]
    else xs[(if start < |xs| then start else |xs|)..]
  }

  predicate InWindow(i: Interaction, cutoff: int) {
    i.timestamp >= cutoff
  }

  /** The user's interactions no older than `cutoff`, in recorded order. */
  function Window(st: State, user: Value, cutoff: int): (r: seq<Interaction>)
    ensures forall i :: i in r <==> i in HistoryOf(st, user) && i.timestamp >= cutoff
  {
    Seqs.Filter(HistoryOf(st, user), (i: Interaction) => InWindow(i, cutoff))
  }

  /** `_get_recent_interactions`: the window; a truthy `limit` keeps `[-limit:]`. */
  function RecentInteractions(st: State, user: Value, cutoff: int, limit: int)
    : (r: Result<seq<Interaction>, PyError>)
    ensures r.Err? <==> !Hashable(user)
    ensures r.Ok? && user !in st.history ==> r.value == []
    ensures r.Ok? && limit == 0 ==> r.value == Window(st, user, cutoff)
    ensures r.Ok? && limit != 0 ==> r.value == SliceFromEnd(Window(st, user, cutoff), limit)
  {
    if !Hashable(user) then Err(Unhashable(user))
    else if user !in st.history then Ok([])
    else
      var recent := Window(st, user, cutoff);
      Ok(if limit != 0 then SliceFromEnd(recent, limit) else recent)
  }

  /** Whatever the limit, the result is a suffix of the window: only recorded
      interactions of that user, none older than the cutoff, the newest kept,
      and no more than a positive limit asks for. */
  lemma RecentIsNewestOfWindow(st: State, user: Value, cutoff: int, limit: int)
    requires Hashable(user)
    ensures var r := RecentInteractions(st, user, cutoff, limit).value;
      var w := Window(st, user, cutoff);
      && |r| <= |w| && r == w[|w| - |r|..]
      && (limit > 0 ==> |r| == if limit < |w| then limit else |w|)
      && (forall i :: i in r ==> i in HistoryOf(st, user) && i.timestamp >= cutoff)
  {
    var r := RecentInteractions(st, user, cutoff, limit).value;
    var w := Window(st, user, cutoff);
    if user in st.history && limit != 0 {
      assert r == w[|w| - |r|..];
      assert forall i :: i in r ==> i in w;
    }
  }

  // ---- error pattern ----

  /** The hour of day of a timestamp (UTC). */
  function HourOf(t: int): (h: int)
    ensures 0 <= h < 24
  {
    (t % 86400) / 3600
  }

  datatype DayPart = Morning | Afternoon | Evening | Night

  /** The bucket of an error's hour. */
  function DayPartOf(hour: int): (p: DayPart)
    ensures p == Morning <==> 6 <= hour < 12
    ensures p == Afternoon <==> 12 <= hour < 18
    ensures p == Evening <==> 18 <= hour < 24
    ensures p == Night <==> hour < 6 || hour >= 24
  {
    if 6 <= hour < 12 then Morning
    else if 12 <= hour < 18 then Afternoon
    else if 18 <= hour < 24 then Evening
    else Night
  }

  function PartCount(errors: seq<Interaction>, p: DayPart): nat {
    Seqs.Count(errors, (e: Interaction) => DayPartOf(HourOf(e.timestamp)) == p)
  }

  /** `dict(error_time_distribution)`: only buckets that were hit appear. */
  function ErrorTimeDistribution(errors: seq<Interaction>): (r: map<DayPart, nat>)
    ensures forall p :: p in r <==> PartCount(errors, p) > 0
    ensures forall p :: p in r ==> r[p] == PartCount(errors, p)
  {
    map p | p in {Morning, Afternoon, Evening, Night} && PartCount(errors, p) > 0 :: PartCount(errors, p)
  }

  /** Every error lands in exactly one bucket, so the buckets add up to the errors. */
  lemma {:induction false} BucketsSumToErrors(errors: seq<Interaction>)
    ensures PartCount(errors, Morning) + PartCount(errors, Afternoon)
            + PartCount(errors, Evening) + PartCount(errors, Night) == |errors|
    decreases |errors|
  {
    if |errors| > 0 {
      BucketsSumToErrors(errors[1..]);
    }
  }

  const Week: int := 7 * 86400

  datatype ErrorTrend = InsufficientData | Improving | Worsening | Stable

  function RecentErrorCount(errors: seq<Interaction>, now: int): nat {
    Seqs.Count(errors, (e: Interaction) => e.timestamp >= now - Week)
  }

  /** `_calculate_error_trend` at time `now`. */
  function CalculateErrorTrend(errors: seq<Interaction>, now: int): (r: ErrorTrend)
    ensures r == InsufficientData <==> |errors| < 5
    ensures r == Improving <==> |errors| >= 5 && RecentErrorCount(errors, now) == 0
    ensures r == Worsening <==> |errors| >= 5 && RecentErrorCount(errors, now) > 0
                                && 2 * RecentErrorCount(errors, now) > |errors|
    ensures r == Stable <==> |errors| >= 5 && RecentErrorCount(errors, now) > 0
                             && 2 * RecentErrorCount(errors, now) <= |errors|
  {
    if |errors| < 5 then InsufficientData
    else
      var recent := RecentErrorCount(errors, now);
      if recent == 0 then Improving
      else if recent as real > |errors| as real * 0.5 then Worsening
      else Stable
  }

  /** Sorting the errors by time first, as the source does, changes nothing. */
  lemma ErrorTrendIgnoresOrder(errors: seq<Interaction>, sorted: seq<Interaction>, now: int)
    requires multiset(sorted) == multiset(errors)
    ensures CalculateErrorTrend(sorted, now) == CalculateErrorTrend(errors, now)
  {
    assert |sorted| == |multiset(sorted)| == |errors|;
    Seqs.CountPermutation(sorted, errors, (e: Interaction) => e.timestamp >= now - Week);
  }

  /** The parts of `_detect_error_pattern`'s result that this model keeps. */
  datatype ErrorPattern =
    | ErrorFree(confidence: real)
    | Errors(confidence: real, totalErrors: nat, errorRate: real, distribution: map<DayPart, nat>,
             trend: ErrorTrend, needsAssistance: bool)

  /** `if error.element_type: error_elements[error.element_type] += 1`
      raises for a truthy element type that cannot be a dict key. */
  predicate CountableElementType(e: Interaction) {
    !Truthy(e.elementType) || Hashable(e.elementType)
  }

  /** The position of the first error whose element type cannot be counted,
      or `|errors|` when there is none. */
  function FirstUncountable(errors: seq<Interaction>): (k: nat)
    ensures k <= |errors|
    ensures forall i :: 0 <= i < k ==> CountableElementType(errors[i])
    ensures k < |errors| ==> !CountableElementType(errors[k])
    decreases |errors|
  {
    if |errors| == 0 || !CountableElementType(errors[0]) then 0
    else
      var k := FirstUncountable(errors[1..]);
      assert forall i :: 1 <= i < k + 1 ==> errors[i] == errors[1..][i - 1];
      k + 1
  }

  /** Some failed interaction has an uncountable element type exactly when
      the scan over the failures stops early. */
  lemma FailedUncountable(interactions: seq<Interaction>)
    ensures var errors := Seqs.Filter(interactions, (i: Interaction) => !i.success);
      FirstUncountable(errors) < |errors| <==> exists e :: e in interactions && !e.success && !CountableElementType(e)
  {
    var errors := Seqs.Filter(interactions, (i: Interaction) => !i.success);
    var k := FirstUncountable(errors);
    if k < |errors| {
      assert errors[k] in interactions && !errors[k].success;
    } else {
      forall e | e in interactions && !e.success
        ensures CountableElementType(e)
      {
        assert e in errors;
      }
    }
  }

  /** `_detect_error_pattern`. Counting an error's element type raises
      TypeError when it is truthy and unhashable; `analyze_user_behavior`
      catches that and keeps an empty result for this detector. */
  function DetectErrorPattern(interactions: seq<Interaction>, now: int): (r: Result<ErrorPattern, PyError>)
    ensures (forall i :: i in interactions ==> i.success) ==> r == Ok(ErrorFree(0.8))
    ensures r.Err? <==> exists e :: e in interactions && !e.success && !CountableElementType(e)
    ensures r.Err? ==> var errors := Seqs.Filter(interactions, (i: Interaction) => !i.success);
      exists k :: && 0 <= k < |errors| && !CountableElementType(errors[k])
                  && (forall i :: 0 <= i < k ==> CountableElementType(errors[i]))
                  && r.error == Unhashable(errors[k].elementType)
    ensures r.Ok? ==> (r.value.ErrorFree? <==> forall i :: i in interactions ==> i.success)
    ensures r.Ok? && r.value.Errors? ==> var errors := Seqs.Filter(interactions, (i: Interaction) => !i.success);
      && r.value.totalErrors == |errors| > 0
      && r.value.errorRate == Seqs.Proportion(|errors|, |interactions|)
      && (r.value.confidence == if |errors| >= 5 then 0.7 else 0.4)
      && r.value.distribution == ErrorTimeDistribution(errors)
      && r.value.trend == CalculateErrorTrend(errors, now)
      && (r.value.needsAssistance <==> 10 * |errors| > 3 * |interactions|)
  {
    var errors := Seqs.Filter(interactions, (i: Interaction) => !i.success);
    if |errors| == 0 then
      assert forall i :: i in interactions && !i.success ==> i in errors;
      Ok(ErrorFree(0.8))
    else
      var k := FirstUncountable(errors);
      FailedUncountable(interactions);
      if k < |errors| then
        Err(Unhashable(errors[k].elementType))
      else
        assert |errors| <= |interactions|;
        Ok(ErrorSummary(errors, |interactions|, now))
  }

  /** The pattern reported for `errors` failures out of `total` interactions. */
  function ErrorSummary(errors: seq<Interaction>, total: nat, now: int): (p: ErrorPattern)
    requires 0 < |errors| <= total
    ensures p.Errors? && p.totalErrors == |errors|
    ensures p.errorRate == Seqs.Proportion(|errors|, total)
    ensures p.confidence == if |errors| >= 5 then 0.7 else 0.4
    ensures p.distribution == ErrorTimeDistribution(errors)
    ensures p.trend == CalculateErrorTrend(errors, now)
    ensures p.needsAssistance <==> 10 * |errors| > 3 * total
  {
    var rate := Seqs.Proportion(|errors|, total);
    Seqs.RatioAbove(|errors|, total, 3, 10);
    Errors(if |errors| >= 5 then 0.7 else 0.4, |errors|, rate, ErrorTimeDistribution(errors),
           CalculateErrorTrend(errors, now), rate > 0.3)
  }

  // ---- accessibility ----

  /** The six 0/1 indicators of `_detect_accessibility_needs`. */
  datatype Indicators = Indicators(highContrast: bool, largeText: bool, keyboard: bool, voice: bool,
                                   slow: bool, repetitive: bool)

  function Bit(b: bool): nat {
    if b then 1 else 0
  }

  function IndicatorsSet(ind: Indicators): nat {
    Bit(ind.highContrast) + Bit(ind.largeText) + Bit(ind.keyboard) + Bit(ind.voice)
    + Bit(ind.slow) + Bit(ind.repetitive)
  }

  datatype AccessibilityResult = AccessibilityResult(
    confidence: real,
    score: real,
    indicators: Indicators,
    recommendations: seq<string>,
    needsFeatures: bool)

  function TypeCount(interactions: seq<Interaction>, t: InteractionType): nat {
    Seqs.Count(interactions, (i: Interaction) => i.interactionType == t)
  }

  function SumDurations(xs: seq<Interaction>): real {
    if |xs| == 0 then 0.0 else xs[0].duration + SumDurations(xs[1..])
  }

  function PositiveDurations(interactions: seq<Interaction>): seq<Interaction> {
    Seqs.Filter(interactions, (i: Interaction) => i.duration > 0.0)
  }

  /** `f"{element_id}_{action}"`. */
  function ActionKey(i: Interaction): string {
    PyStr(i.elementId) + "_" + PyStr(i.action)
  }

  function KeyCount(interactions: seq<Interaction>, key: string): nat {
    Seqs.Count(interactions, (i: Interaction) => ActionKey(i) == key)
  }

  /** Some element/action key occurs more than five times. */
  predicate Repetitive(interactions: seq<Interaction>) {
    exists j :: 0 <= j < |interactions| && KeyCount(interactions, ActionKey(interactions[j])) > 5
  }

  function AccessibilityRecommendations(ind: Indicators): seq<string> {
    Optional(ind.keyboard, "enhanced_keyboard_navigation")
    + Optional(ind.voice, "voice_interface_optimization")
    + Optional(ind.slow, "extended_timeout_settings")
    + Optional(ind.repetitive, "simplified_workflows")
  }

  /** `_detect_accessibility_needs`. */
  function DetectAccessibilityNeeds(interactions: seq<Interaction>): (r: AccessibilityResult)
    ensures var n := |interactions|;
      && !r.indicators.highContrast && !r.indicators.largeText
      && (r.indicators.keyboard <==> n > 0 && 10 * TypeCount(interactions, Keyboard) > 7 * n)
      && (r.indicators.voice <==> n > 0 && 2 * TypeCount(interactions, Voice) > n)
      && (r.indicators.slow <==> var pos := PositiveDurations(interactions);
            |pos| > 0 && SumDurations(pos) > 3000.0 * |pos| as real)
      && (r.indicators.repetitive <==> Repetitive(interactions))
      && r.score * 6.0 == IndicatorsSet(r.indicators) as real
      && (r.confidence == if n >= 15 then 0.6 else 0.3)
    ensures r.recommendations == AccessibilityRecommendations(r.indicators)
    ensures r.needsFeatures <==> r.score > 0.3
  {
    var n := |interactions|;
    var ind := Indicators(false, false, MostlyKeyboard(interactions), MostlyVoice(interactions),
      SlowOnAverage(interactions), Repetitive(interactions));
    var score := IndicatorsSet(ind) as real / 6.0;
    AccessibilityResult(if n >= 15 then 0.6 else 0.3, score, ind, AccessibilityRecommendations(ind), score > 0.3)
  }

  /** More than 70% of the interactions are keyboard interactions. */
  function MostlyKeyboard(interactions: seq<Interaction>): (b: bool)
    ensures var n := |interactions|; b <==> n > 0 && 10 * TypeCount(interactions, Keyboard) > 7 * n
  {
    var n := |interactions|;
    if n > 0 then
      Seqs.RatioAbove(TypeCount(interactions, Keyboard), n, 7, 10);
      TypeCount(interactions, Keyboard) as real / n as real > 0.7
    else false
  }

  /** More than half of the interactions are voice interactions. */
  function MostlyVoice(interactions: seq<Interaction>): (b: bool)
    ensures var n := |interactions|; b <==> n > 0 && 2 * TypeCount(interactions, Voice) > n
  {
    var n := |interactions|;
    if n > 0 then
      Seqs.RatioAbove(TypeCount(interactions, Voice), n, 1, 2);
      TypeCount(interactions, Voice) as real / n as real > 0.5
    else false
  }

  /** The mean positive duration exceeds 3000 ms. */
  function SlowOnAverage(interactions: seq<Interaction>): (b: bool)
    ensures b <==> var pos := PositiveDurations(interactions);
      |pos| > 0 && SumDurations(pos) > 3000.0 * |pos| as real
  {
    var pos := PositiveDurations(interactions);
    if |pos| > 0 then
      MeanAbove(SumDurations(pos), |pos|, 3000.0);
      SumDurations(pos) / |pos| as real > 3000.0
    else false
  }

  lemma MeanAbove(total: real, n: nat, bound: real)
    requires n > 0
    ensures total / n as real > bound <==> total > bound * n as real
  {
    var q := total / n as real;
    assert q * n as real == total;
    if q > bound {
      assert (q - bound) * n as real > 0.0;
    } else {
      assert (bound - q) * n as real >= 0.0;
    }
  }

  lemma SixthsAbove(k: nat)
    ensures k as real / 6.0 > 0.3 <==> k >= 2
  {
  }

  /** The score counts the four indicators that can be set, so it never
      exceeds 4/6, and the features are needed exactly when at least two are set. */
  lemma AccessibilityScoreFacts(interactions: seq<Interaction>)
    ensures var r := DetectAccessibilityNeeds(interactions);
      && 0.0 <= r.score <= 4.0 / 6.0
      && (r.needsFeatures <==> IndicatorsSet(r.indicators) >= 2)
  {
    var r := DetectAccessibilityNeeds(interactions);
    var k := IndicatorsSet(r.indicators);
    assert k <= 4;
    assert r.score == k as real / 6.0;
    SixthsAbove(k);
  }

  /** Each recommendation stands for one set indicator. */
  lemma AccessibilityRecommendationsFacts(ind: Indicators)
    ensures var r := AccessibilityRecommendations(ind);
      && |r| == IndicatorsSet(ind) - Bit(ind.highContrast) - Bit(ind.largeText)
      && ("enhanced_keyboard_navigation" in r <==> ind.keyboard)
      && ("voice_interface_optimization" in r <==> ind.voice)
      && ("extended_timeout_settings" in r <==> ind.slow)
      && ("simplified_workflows" in r <==> ind.repetitive)
  {
    assert "enhanced_keyboard_navigation"[0] == 'e' && "voice_interface_optimization"[0] == 'v';
    assert "extended_timeout_settings"[1] == 'x' && "simplified_workflows"[0] == 's';
    FourOptional("enhanced_keyboard_navigation", "voice_interface_optimization",
      "extended_timeout_settings", "simplified_workflows",
      ind.keyboard, ind.voice, ind.slow, ind.repetitive);
  }

  function Optional(c: bool, k: string): seq<string> {
    if c then [k] else []
  }

  /** Four optional, pairwise distinct entries: each is present exactly
      when its condition holds. */
  lemma FourOptional(ka: string, kb: string, kc: string, kd: string,
                     ca: bool, cb: bool, cc: bool, cd: bool)
    requires ka != kb && ka != kc && ka != kd && kb != kc && kb != kd && kc != kd
    ensures var r := Optional(ca, ka) + Optional(cb, kb) + Optional(cc, kc) + Optional(cd, kd);
      && |r| == Bit(ca) + Bit(cb) + Bit(cc) + Bit(cd)
      && (ka in r <==> ca) && (kb in r <==> cb) && (kc in r <==> cc) && (kd in r <==> cd)
  {
    var r := Optional(ca, ka) + Optional(cb, kb) + Optional(cc, kc) + Optional(cd, kd);
    assert forall x :: x in r <==> (x in Optional(ca, ka) || x in Optional(cb, kb)
      || x in Optional(cc, kc) || x in Optional(cd, kd));
  }

  // ---- classification and recommendations ----

  /** The detector outputs `_classify_user_type` and `_generate_recommendations`
      read; each field holds the source's `.get` default when its detector
      produced nothing. */
  datatype Insights = Insights(
    efficiencyLevel: string,
    errorRate: real,
    avgTaskDuration: real,
    primaryPreference: string,
    needsAccessibility: bool,
    accessibilityRecommendations: seq<string>,
    multiDeviceUser: bool,
    screenPreference: Option<string>)

  function DefaultInsights(): Insights {
    Insights("intermediate", 0.0, 0.0, "mixed", false, [], false, None)
  }

  /** The insights an accessibility result contributes. */
  function WithAccessibility(ins: Insights, a: AccessibilityResult): Insights {
    ins.(needsAccessibility := a.needsFeatures, accessibilityRecommendations := a.recommendations)
  }

  const UserTypes: set<string> :=
    {"accessibility_user", "power_user", "novice_user", "voice_first_user", "visual_user", "balanced_user"}

  /** `_classify_user_type`: the first matching class in a fixed priority. */
  function ClassifyUserType(ins: Insights): (r: string)
    ensures r in UserTypes
    ensures r == "accessibility_user" <==> ins.needsAccessibility
    ensures ins.needsAccessibility ==> r == "accessibility_user"
    ensures !ins.needsAccessibility && ins.efficiencyLevel == "expert" ==> r == "power_user"
    ensures !ins.needsAccessibility && ins.efficiencyLevel == "beginner" ==> r == "novice_user"
    ensures !ins.needsAccessibility && ins.efficiencyLevel != "expert" && ins.efficiencyLevel != "beginner" ==>
      && (ins.primaryPreference == "voice" ==> r == "voice_first_user")
      && (ins.primaryPreference == "visual" ==> r == "visual_user")
      && (ins.primaryPreference != "voice" && ins.primaryPreference != "visual" ==> r == "balanced_user")
  {
    if ins.needsAccessibility then "accessibility_user"
    else if ins.efficiencyLevel == "expert" then "power_user"
    else if ins.efficiencyLevel == "beginner" then "novice_user"
    else if ins.primaryPreference == "voice" then "voice_first_user"
    else if ins.primaryPreference == "visual" then "visual_user"
    else "balanced_user"
  }

  /** The recommendation list before `list(set(...))`. */
  function RawRecommendations(ins: Insights): seq<string> {
    (if ins.errorRate > 0.2 then ["error_prevention_enhancement"] else [])
    + (if ins.avgTaskDuration > 3000.0 then ["workflow_simplification"] else [])
    + (if ins.primaryPreference == "voice" then ["voice_interface_optimization"]
       else if ins.primaryPreference == "visual" then ["visual_debugging_enhancement"] else [])
    + (if ins.needsAccessibility then ins.accessibilityRecommendations else [])
    + (if ins.multiDeviceUser then ["cross_device_synchronization"] else [])
    + (if ins.screenPreference == Some("small") then ["mobile_optimization"] else [])
  }

  /** `_generate_recommendations`. The order `list(set(...))` produces is
      unspecified; first-occurrence order is one such order. */
  function GenerateRecommendations(ins: Insights): (r: seq<string>)
    ensures Seqs.NoDuplicates(r)
    ensures forall x :: x in r <==> x in RawRecommendations(ins)
    ensures ins.needsAccessibility ==> forall x :: x in ins.accessibilityRecommendations ==> x in r
    ensures ins.primaryPreference == "voice" ==> "voice_interface_optimization" in r
  {
    var raw := RawRecommendations(ins);
    var r := Seqs.DedupBy(raw, (x: string) => x);
    forall x | x in raw ensures x in r {
      var i :| 0 <= i < |raw| && raw[i] == x;
      assert Seqs.HasKey(r, (y: string) => y, x);
    }
    r
  }

  /** A user whose accessibility indicators call for features gets every
      accessibility recommendation, however the other detectors came out. */
  lemma AccessibilityRecommendationsReachUser(ins: Insights, interactions: seq<Interaction>)
    ensures var a := DetectAccessibilityNeeds(interactions);
      var r := GenerateRecommendations(WithAccessibility(ins, a));
      a.needsFeatures ==> forall x :: x in a.recommendations ==> x in r
  {
  }
}
