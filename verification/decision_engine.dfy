/** The core decision engine of `SmartUIDecisionEngine`: the three engines,
    strategy dispatch, decision integration, element suggestions, decision
    recording and the interaction counters (src/core/decision_engine.py). */
module DecisionEngine {
  import opened Wrappers
  import opened Json
  import Strings
  import Seqs
  import Sorting

  datatype Strategy = RuleBased | MlBased | Hybrid | Heuristic

  /** A `DecisionResult`. The dataclass checks no types, so the target and the
      parameters are whatever the input held. */
  datatype Decision = Decision(
    actionType: string,
    targetElement: Value,
    parameters: Value,
    confidence: real,
    reasoning: string,
    alternatives: seq<Obj>,
    executionPlan: seq<Obj>)

  // ---- the three engines ----

  function Target(input: Obj): Value {
    GetOr(input, "target", JStr(""))
  }

  function Parameters(input: Obj): Value {
    GetOr(input, "parameters", JObj(map[]))
  }

  /** The rule engine's only rule: "modify" with a truthy target. */
  predicate ModifyRuleMatches(input: Obj) {
    GetOr(input, "action", JStr("")) == JStr("modify") && Truthy(Target(input))
  }

  /** `RuleBasedDecisionEngine.decide`. */
  function RuleDecide(input: Obj): (r: Decision)
    ensures r.actionType == "ui_modification" <==> ModifyRuleMatches(input)
    ensures ModifyRuleMatches(input) ==>
      && r.confidence == 0.8 && r.targetElement == Target(input) && r.parameters == Parameters(input)
      && |r.executionPlan| == 1
      && "action" in r.executionPlan[0] && "target" in r.executionPlan[0]
      && r.executionPlan[0]["action"] == JStr("modify_element")
      && r.executionPlan[0]["target"] == Target(input)
    ensures !ModifyRuleMatches(input) ==>
      && r.actionType == "unknown" && r.confidence == 0.1 && r.targetElement == JStr("")
      && r.parameters == JObj(map[]) && r.executionPlan == []
    ensures r.alternatives == []
  {
    if ModifyRuleMatches(input) then
      var target := Target(input);
      var parameters := Parameters(input);
      Decision("ui_modification", target, parameters, 0.8, "Rule-based decision for UI modification", [],
               [map["step" := JInt(1), "action" := JStr("modify_element"), "target" := target,
                    "parameters" := parameters]])
    else
      Decision("unknown", JStr(""), JObj(map[]), 0.1, "No matching rule found", [], [])
  }

  /** `MLBasedDecisionEngine.decide`: a fixed prediction that echoes the input. */
  function MlDecide(input: Obj): (r: Decision)
    ensures r.confidence == 0.75 && r.actionType == "ml_prediction"
    ensures r.targetElement == Target(input) && r.parameters == Parameters(input)
    ensures r.alternatives == [] && r.executionPlan == []
  {
    Decision("ml_prediction", Target(input), Parameters(input), 0.75, "ML-based prediction", [], [])
  }

  /** `HeuristicDecisionEngine.decide`: a fixed decision that echoes the input. */
  function HeuristicDecide(input: Obj): (r: Decision)
    ensures r.confidence == 0.6 && r.actionType == "heuristic_decision"
    ensures r.targetElement == Target(input) && r.parameters == Parameters(input)
    ensures r.alternatives == [] && r.executionPlan == []
  {
    Decision("heuristic_decision", Target(input), Parameters(input), 0.6, "Heuristic-based decision", [], [])
  }

  // ---- integration ----

  function Confidences(ds: seq<Decision>): (cs: seq<real>)
    ensures |cs| == |ds|
    ensures forall i :: 0 <= i < |ds| ==> cs[i] == ds[i].confidence
  {
    seq(|ds|, i requires 0 <= i < |ds| => ds[i].confidence)
  }

  function Sum(cs: seq<real>): real {
    if |cs| == 0 then 0.0 else cs[0] + Sum(cs[1..])
  }

  function SumOfSquares(cs: seq<real>): real {
    if |cs| == 0 then 0.0 else cs[0] * cs[0] + SumOfSquares(cs[1..])
  }

  function MaxOf(cs: seq<real>): real
    requires |cs| > 0
  {
    if |cs| == 1 then cs[0]
    else var m := MaxOf(cs[1..]); if cs[0] > m then cs[0] else m
  }

  /** `sum(w * c for w, c in zip(weights, confidences))` with the given weights. */
  function WeightedSum(cs: seq<real>, total: real): real
    requires total != 0.0
  {
    if |cs| == 0 then 0.0 else (cs[0] / total) * cs[0] + WeightedSum(cs[1..], total)
  }

  function UniformSum(cs: seq<real>, n: nat): real
    requires n > 0
  {
    if |cs| == 0 then 0.0 else (1.0 / n as real) * cs[0] + UniformSum(cs[1..], n)
  }

  /** The integrated confidence: each confidence weighted by its share of the
      total, or the plain mean when the total is not positive. */
  function IntegratedConfidence(cs: seq<real>): real
    requires |cs| > 0
  {
    var total := Sum(cs);
    if total > 0.0 then WeightedSum(cs, total) else UniformSum(cs, |cs|)
  }

  lemma {:induction false} WeightedSumIsSquaresOverTotal(cs: seq<real>, total: real)
    requires total != 0.0
    ensures WeightedSum(cs, total) == SumOfSquares(cs) / total
    decreases |cs|
  {
    if |cs| > 0 {
      WeightedSumIsSquaresOverTotal(cs[1..], total);
    }
  }

  lemma {:induction false} UniformSumIsMean(cs: seq<real>, n: nat)
    requires n > 0
    ensures UniformSum(cs, n) == Sum(cs) / n as real
    decreases |cs|
  {
    if |cs| > 0 {
      UniformSumIsMean(cs[1..], n);
    }
  }

  lemma {:induction false} SumAndMaxNonNegative(cs: seq<real>)
    requires |cs| > 0
    requires forall i :: 0 <= i < |cs| ==> cs[i] >= 0.0
    ensures MaxOf(cs) >= 0.0 && Sum(cs) >= 0.0
    ensures Sum(cs) == 0.0 ==> MaxOf(cs) == 0.0
    decreases |cs|
  {
    if |cs| > 1 {
      assert forall i :: 0 <= i < |cs[1..]| ==> cs[1..][i] == cs[i + 1];
      SumAndMaxNonNegative(cs[1..]);
    } else {
      assert cs[1..] == [];
    }
  }

  lemma {:induction false} SquaresBelowMaxTimesSum(cs: seq<real>)
    requires |cs| > 0
    requires forall i :: 0 <= i < |cs| ==> cs[i] >= 0.0
    ensures 0.0 <= SumOfSquares(cs) <= MaxOf(cs) * Sum(cs)
    decreases |cs|
  {
    var c := cs[0];
    if |cs| == 1 {
      assert cs[1..] == [];
      assert SumOfSquares(cs) == c * c;
      assert Sum(cs) == c;
      SquaresStep(c, c, 0.0, 0.0, 0.0);
    } else {
      var rest := cs[1..];
      assert forall i :: 0 <= i < |rest| ==> rest[i] == cs[i + 1];
      SquaresBelowMaxTimesSum(rest);
      SumAndMaxNonNegative(rest);
      assert Sum(cs) == c + Sum(rest);
      assert SumOfSquares(cs) == c * c + SumOfSquares(rest);
      SquaresStep(c, MaxOf(cs), MaxOf(rest), Sum(rest), SumOfSquares(rest));
    }
  }

  /** One step of the bound: `c*c + ssr <= m*(c + sr)`. */
  lemma SquaresStep(c: real, m: real, mr: real, sr: real, ssr: real)
    requires 0.0 <= c <= m && mr <= m && sr >= 0.0
    requires 0.0 <= ssr <= mr * sr
    ensures 0.0 <= c * c + ssr <= m * (c + sr)
  {
    MulMono(0.0, c, c);
    MulMono(c, m, c);
    MulMono(mr, m, sr);
    Distribute(m, c, sr);
  }

  lemma Distribute(m: real, x: real, y: real)
    ensures m * (x + y) == m * x + m * y
  {
  }

  lemma MulMono(a: real, b: real, c: real)
    requires a <= b && c >= 0.0
    ensures a * c <= b * c
  {
  }

  lemma DivMono(x: real, y: real, b: real)
    requires x <= y && b > 0.0
    ensures x / b <= y / b
  {
  }

  lemma DivBelow(a: real, b: real, m: real)
    requires b > 0.0 && a <= m * b
    ensures a / b <= m
  {
    assert (m * b) / b == m;
    DivMono(a, m * b, b);
  }

  /** For non-negative inputs the integrated confidence lies between 0 and the
      largest input confidence. */
  lemma IntegratedConfidenceBounds(cs: seq<real>)
    requires |cs| > 0
    requires forall i :: 0 <= i < |cs| ==> cs[i] >= 0.0
    ensures 0.0 <= IntegratedConfidence(cs) <= MaxOf(cs)
  {
    if Sum(cs) > 0.0 {
      WeightedBounds(cs);
    } else {
      UniformBounds(cs);
    }
  }

  lemma WeightedBounds(cs: seq<real>)
    requires |cs| > 0 && Sum(cs) > 0.0
    requires forall i :: 0 <= i < |cs| ==> cs[i] >= 0.0
    ensures 0.0 <= WeightedSum(cs, Sum(cs)) <= MaxOf(cs)
  {
    var total, squares, m := Sum(cs), SumOfSquares(cs), MaxOf(cs);
    SquaresBelowMaxTimesSum(cs);
    WeightedSumIsSquaresOverTotal(cs, total);
    DivBelow(squares, total, m);
    DivNonNegative(squares, total);
  }

  lemma UniformBounds(cs: seq<real>)
    requires |cs| > 0 && Sum(cs) <= 0.0
    requires forall i :: 0 <= i < |cs| ==> cs[i] >= 0.0
    ensures 0.0 <= UniformSum(cs, |cs|) <= MaxOf(cs)
  {
    SumAndMaxNonNegative(cs);
    UniformSumIsMean(cs, |cs|);
    DivZero(|cs| as real);
  }

  lemma DivNonNegative(a: real, b: real)
    requires a >= 0.0 && b > 0.0
    ensures a / b >= 0.0
  {
  }

  lemma DivZero(b: real)
    requires b > 0.0
    ensures 0.0 / b == 0.0
  {
  }

  /** Python's `max(ds, key=confidence)`: the first decision of maximal confidence. */
  function ArgMax(ds: seq<Decision>): (r: nat)
    requires |ds| > 0
    ensures r < |ds|
    ensures forall k :: 0 <= k < |ds| ==> ds[k].confidence <= ds[r].confidence
    ensures forall k :: 0 <= k < r ==> ds[k].confidence < ds[r].confidence
  {
    if |ds| == 1 then 0
    else
      var j := ArgMax(ds[..|ds| - 1]);
      assert forall k :: 0 <= k < |ds| - 1 ==> ds[..|ds| - 1][k] == ds[k];
      if ds[|ds| - 1].confidence > ds[j].confidence then |ds| - 1 else j
  }

  function Flatten(ss: seq<seq<Obj>>): (r: seq<Obj>)
    ensures forall x :: x in r <==> exists i :: 0 <= i < |ss| && x in ss[i]
  {
    if |ss| == 0 then [] else ss[0] + Flatten(ss[1..])
  }

  function AllAlternatives(ds: seq<Decision>): seq<Obj> {
    Flatten(seq(|ds|, i requires 0 <= i < |ds| => ds[i].alternatives))
  }

  /** The identity of an alternative: its action type and target element. */
  function AltKey(alt: Obj): (Value, Value) {
    (GetOr(alt, "action_type", JNull), GetOr(alt, "target_element", JNull))
  }

  /** `x.get('confidence', 0)` as a sort key. */
  function ConfKey(x: Obj): real {
    var k := AsNumber(GetOr(x, "confidence", JInt(0)));
    if k.Ok? then k.value else 0.0
  }

  predicate NumericKeys(s: seq<Obj>) {
    forall x :: x in s ==> AsNumber(GetOr(x, "confidence", JInt(0))).Ok?
  }

  /** `s.sort(key=confidence, reverse=True); s[:n]`. Comparing a number with
      a non-number raises TypeError as soon as there are two elements. */
  function SortedTop(s: seq<Obj>, n: nat): (r: Result<seq<Obj>, PyError>)
    ensures r.Err? <==> |s| >= 2 && !NumericKeys(s)
    ensures r.Ok? ==> |r.value| == (if n < |s| then n else |s|)
    ensures r.Ok? ==> Sorting.SortedDesc(r.value, ConfKey)
    ensures r.Ok? ==> multiset(r.value) <= multiset(s)
    ensures r.Ok? ==> forall x, k :: x in s && x !in r.value && 0 <= k < |r.value| ==>
                                     ConfKey(x) <= ConfKey(r.value[k])
    ensures r.Ok? ==> forall v :: Sorting.IsPrefix(Sorting.Ties(r.value, ConfKey, v), Sorting.Ties(s, ConfKey, v))
  {
    if |s| >= 2 && !NumericKeys(s) then Err(PyError(TypeError, "'<' not supported between instances"))
    else Ok(Sorting.TopN(s, ConfKey, n))
  }

  /** `_integrate_decisions`. The primary decision is the first of maximal
      confidence; the alternatives of all decisions are deduplicated on
      (action_type, target_element), keeping the first, sorted by confidence
      and cut to five. An empty list makes `max` raise ValueError. */
  function IntegrateDecisions(ds: seq<Decision>): (r: Result<Decision, PyError>)
    ensures |ds| == 0 ==> r.Err? && r.error.kind == ValueError
    ensures |ds| > 0 ==> var unique := Seqs.DedupBy(AllAlternatives(ds), AltKey);
      r.Err? <==> |unique| >= 2 && !NumericKeys(unique)
    ensures r.Ok? ==> |ds| > 0 && var p := ds[ArgMax(ds)];
      && r.value.actionType == p.actionType && r.value.targetElement == p.targetElement
      && r.value.parameters == p.parameters && r.value.executionPlan == p.executionPlan
      && r.value.confidence == IntegratedConfidence(Confidences(ds))
      && Sorting.SortedDesc(r.value.alternatives, ConfKey)
      && (forall x :: x in r.value.alternatives ==> x in AllAlternatives(ds))
      && (forall i, j :: 0 <= i < j < |r.value.alternatives| ==>
            AltKey(r.value.alternatives[i]) != AltKey(r.value.alternatives[j]))
    ensures r.Ok? ==> |ds| > 0 && var unique := Seqs.DedupBy(AllAlternatives(ds), AltKey);
      var alts := r.value.alternatives;
      && |alts| == (if |unique| < 5 then |unique| else 5)
      && multiset(alts) <= multiset(unique)
      && (forall x, k :: x in unique && x !in alts && 0 <= k < |alts| ==> ConfKey(x) <= ConfKey(alts[k]))
      && (forall v :: Sorting.IsPrefix(Sorting.Ties(alts, ConfKey, v), Sorting.Ties(unique, ConfKey, v)))
  {
    if |ds| == 0 then Err(PyError(ValueError, "max() arg is an empty sequence"))
    else
      var p := ds[ArgMax(ds)];
      var unique := Seqs.DedupBy(AllAlternatives(ds), AltKey);
      var sorted := SortedTop(unique, 5);
      if sorted.Err? then Err(sorted.error)
      else
        var top := sorted.value;
        AlternativesKept(AllAlternatives(ds), unique, top);
        Ok(Decision(p.actionType, p.targetElement, p.parameters, IntegratedConfidence(Confidences(ds)),
                    "Hybrid decision based on " + Strings.NatToString(|ds|) + " strategies",
                    top, p.executionPlan))
  }

  /** Every alternative kept is the first among all the decisions'
      alternatives with its (action_type, target_element). */
  lemma AlternativesAreFirstOccurrences(ds: seq<Decision>, j: int)
    requires IntegrateDecisions(ds).Ok? && 0 <= j < |IntegrateDecisions(ds).value.alternatives|
    ensures var all := AllAlternatives(ds);
      exists i :: 0 <= i < |all| && all[i] == IntegrateDecisions(ds).value.alternatives[j]
                  && Seqs.FirstWithKey(all, AltKey, i)
  {
    var all := AllAlternatives(ds);
    var unique := Seqs.DedupBy(all, AltKey);
    var x := IntegrateDecisions(ds).value.alternatives[j];
    assert x in multiset(unique);
    var k :| 0 <= k < |unique| && unique[k] == x;
    Seqs.DedupByKeepsFirst(all, AltKey, k);
  }

  lemma AlternativesKept(all: seq<Obj>, unique: seq<Obj>, top: seq<Obj>)
    requires unique == Seqs.DedupBy(all, AltKey)
    requires multiset(top) <= multiset(unique)
    ensures forall x :: x in top ==> x in all
    ensures forall i, j :: 0 <= i < j < |top| ==> AltKey(top[i]) != AltKey(top[j])
  {
    forall x | x in top ensures x in all {
      assert x in multiset(unique);
    }
    DistinctKeysKept(unique, top);
  }

  /** A sub-multiset of a sequence with distinct keys has distinct keys. */
  lemma DistinctKeysKept(s: seq<Obj>, t: seq<Obj>)
    requires forall i, j :: 0 <= i < j < |s| ==> AltKey(s[i]) != AltKey(s[j])
    requires multiset(t) <= multiset(s)
    ensures forall i, j :: 0 <= i < j < |t| ==> AltKey(t[i]) != AltKey(t[j])
  {
    forall i, j | 0 <= i < j < |t| ensures AltKey(t[i]) != AltKey(t[j]) {
      if AltKey(t[i]) == AltKey(t[j]) {
        assert t[i] in multiset(s) && t[j] in multiset(s);
        var a :| 0 <= a < |s| && s[a] == t[i];
        var b :| 0 <= b < |s| && s[b] == t[j];
        if a == b {
          assert t[i] == t[j];
          assert t == t[..i] + [t[i]] + t[i + 1..j] + [t[j]] + t[j + 1..];
          assert multiset(t)[t[i]] >= 2;
          DistinctElementOnce(s, a);
          assert false;
        }
      }
    }
  }

  /** With distinct keys, every element of `s` occurs in it once. */
  lemma DistinctElementOnce(s: seq<Obj>, a: int)
    requires 0 <= a < |s|
    requires forall i, j :: 0 <= i < j < |s| ==> AltKey(s[i]) != AltKey(s[j])
    ensures multiset(s)[s[a]] == 1
  {
    assert s == s[..a] + [s[a]] + s[a + 1..];
    assert s[a] !in s[..a] by {
      forall k | 0 <= k < a ensures s[..a][k] != s[a] {
        assert s[..a][k] == s[k];
      }
    }
    assert s[a] !in s[a + 1..] by {
      forall j | a + 1 <= j < |s| ensures s[j] != s[a] {
        assert AltKey(s[a]) != AltKey(s[j]);
      }
      var t := s[a + 1..];
      assert forall k :: 0 <= k < |t| ==> t[k] == s[k + a + 1];
    }
  }

  // ---- strategy dispatch ----

  /** `_make_decision`: one engine, or the integration of all three for HYBRID. */
  function MakeDecision(strategy: Strategy, input: Obj): (r: Result<Decision, PyError>)
    ensures strategy == RuleBased ==> r == Ok(RuleDecide(input))
    ensures strategy == MlBased ==> r == Ok(MlDecide(input))
    ensures strategy == Heuristic ==> r == Ok(HeuristicDecide(input))
    ensures strategy == Hybrid ==>
      r == IntegrateDecisions([RuleDecide(input), MlDecide(input), HeuristicDecide(input)])
  {
    match strategy
    case RuleBased => Ok(RuleDecide(input))
    case MlBased => Ok(MlDecide(input))
    case Heuristic => Ok(HeuristicDecide(input))
    case Hybrid => IntegrateDecisions([RuleDecide(input), MlDecide(input), HeuristicDecide(input)])
  }

  /** The hybrid strategy over the three engines: the rule decision leads when
      its rule matches (0.8 beats 0.75), otherwise the ML prediction; the
      integrated confidence then reaches the default threshold 0.7 exactly
      when the rule matched. */
  lemma HybridOfEngines(input: Obj)
    ensures var r := MakeDecision(Hybrid, input);
      && r.Ok?
      && r.value.alternatives == []
      && (ModifyRuleMatches(input) ==>
            r.value.actionType == "ui_modification" && r.value.confidence == 1.5625 / 2.15)
      && (!ModifyRuleMatches(input) ==>
            r.value.actionType == "ml_prediction" && r.value.confidence == 0.9325 / 1.45)
      && (r.value.confidence >= 0.7 <==> ModifyRuleMatches(input))
  {
    IntegrateThree(RuleDecide(input), MlDecide(input), HeuristicDecide(input));
    HybridAgainstThreshold();
  }

  lemma HybridAgainstThreshold()
    ensures 1.5625 / 2.15 >= 0.7 && 0.9325 / 1.45 < 0.7
  {
  }

  /** Integrating three decisions without alternatives whose confidences are
      the rule engine's (0.8 or 0.1), 0.75 and 0.6. */
  lemma IntegrateThree(d0: Decision, d1: Decision, d2: Decision)
    requires d0.confidence == 0.8 || d0.confidence == 0.1
    requires d1.confidence == 0.75 && d2.confidence == 0.6
    requires d0.alternatives == [] && d1.alternatives == [] && d2.alternatives == []
    ensures var r := IntegrateDecisions([d0, d1, d2]);
      && r.Ok?
      && r.value.alternatives == []
      && (d0.confidence == 0.8 ==> r.value.actionType == d0.actionType && r.value.confidence == 1.5625 / 2.15)
      && (d0.confidence == 0.1 ==> r.value.actionType == d1.actionType && r.value.confidence == 0.9325 / 1.45)
  {
    var ds := [d0, d1, d2];
    FlattenEmpty(seq(|ds|, i requires 0 <= i < |ds| => ds[i].alternatives));
    assert AllAlternatives(ds) == [];
    assert Confidences(ds) == [d0.confidence, 0.75, 0.6];
    HybridConfidence(d0.confidence);
    var p := ArgMax(ds);
    assert d0.confidence == 0.8 ==> p == 0;
    assert d0.confidence == 0.1 ==> p == 1;
  }

  /** The integrated confidence of the three engines for either rule outcome. */
  lemma HybridConfidence(a: real)
    requires a == 0.8 || a == 0.1
    ensures a == 0.8 ==> IntegratedConfidence([a, 0.75, 0.6]) == 1.5625 / 2.15
    ensures a == 0.1 ==> IntegratedConfidence([a, 0.75, 0.6]) == 0.9325 / 1.45
  {
    var cs := [a, 0.75, 0.6];
    SumsOfThree(a, 0.75, 0.6);
    WeightedSumIsSquaresOverTotal(cs, Sum(cs));
  }

  lemma SumsOfThree(a: real, b: real, c: real)
    ensures Sum([a, b, c]) == a + b + c
    ensures SumOfSquares([a, b, c]) == a * a + b * b + c * c
  {
    assert [a, b, c][1..] == [b, c];
    assert [b, c][1..] == [c];
    assert [c][1..] == [];
    assert Sum([c]) == c && SumOfSquares([c]) == c * c;
    assert Sum([b, c]) == b + c && SumOfSquares([b, c]) == b * b + c * c;
  }

  lemma {:induction false} FlattenEmpty(ss: seq<seq<Obj>>)
    requires forall i :: 0 <= i < |ss| ==> ss[i] == []
    ensures Flatten(ss) == []
    decreases |ss|
  {
    if |ss| > 0 {
      assert forall i :: 0 <= i < |ss[1..]| ==> ss[1..][i] == ss[i + 1];
      FlattenEmpty(ss[1..]);
    }
  }

  // ---- the dedup key as written ----

  /** The key the source dedups on: `f"{action_type}_{target_element}"`. */
  function AltKeyText(alt: Obj): string {
    PyStr(GetOr(alt, "action_type", JNull)) + "_" + PyStr(GetOr(alt, "target_element", JNull))
  }

  /** The dedup step as written. */
  function DedupAlternativesAsWritten(alts: seq<Obj>): (r: seq<Obj>)
    ensures forall i, j :: 0 <= i < j < |r| ==> AltKeyText(r[i]) != AltKeyText(r[j])
    ensures forall x :: x in r ==> x in alts
  {
    Seqs.DedupBy(alts, AltKeyText)
  }

  function CollidingFirst(): Obj {
    map["action_type" := JStr("a_b"), "target_element" := JStr("c")]
  }

  function CollidingSecond(): Obj {
    map["action_type" := JStr("a"), "target_element" := JStr("b_c")]
  }

  lemma TextKeysCollide()
    ensures AltKey(CollidingFirst()) != AltKey(CollidingSecond())
    ensures AltKeyText(CollidingFirst()) == AltKeyText(CollidingSecond())
  {
    var a := CollidingFirst();
    var b := CollidingSecond();
    assert GetOr(a, "action_type", JNull) == JStr("a_b") && GetOr(a, "target_element", JNull) == JStr("c");
    assert GetOr(b, "action_type", JNull) == JStr("a") && GetOr(b, "target_element", JNull) == JStr("b_c");
    assert "a_b" + "_" + "c" == "a_b_c";
    assert "a" + "_" + "b_c" == "a_b_c";
  }

  /** Dedup of two elements: the second survives iff its key differs. */
  lemma DedupPair<K>(a: Obj, b: Obj, key: Obj -> K)
    ensures key(a) == key(b) ==> Seqs.DedupBy([a, b], key) == [a]
    ensures key(a) != key(b) ==> Seqs.DedupBy([a, b], key) == [a, b]
  {
    assert [a, b][..1] == [a];
    assert [a][..0] == [];
    assert Seqs.DedupBy([a], key) == [a];
    assert key(a) == key(b) ==> Seqs.HasKey([a], key, key(b));
  }

  /** Two alternatives with different (action_type, target_element) pairs
      share a text key, so the written dedup drops the second one; deduping
      on the pair keeps both. */
  lemma TextKeyCollision()
    ensures AltKey(CollidingFirst()) != AltKey(CollidingSecond())
    ensures DedupAlternativesAsWritten([CollidingFirst(), CollidingSecond()]) == [CollidingFirst()]
    ensures Seqs.DedupBy([CollidingFirst(), CollidingSecond()], AltKey) == [CollidingFirst(), CollidingSecond()]
  {
    TextKeysCollide();
    DedupPair(CollidingFirst(), CollidingSecond(), AltKeyText);
    DedupPair(CollidingFirst(), CollidingSecond(), AltKey);
  }

  // ---- element suggestions ----

  /** `_generate_element_suggestions` given the four suggestion sources (whose
      helpers are not part of this model): all of them, sorted by confidence,
      the best ten. */
  function ElementSuggestions(historical: seq<Obj>, design: seq<Obj>, accessibility: seq<Obj>,
                              performance: seq<Obj>): (r: Result<seq<Obj>, PyError>)
    ensures var all := historical + design + accessibility + performance;
      && (r.Ok? <==> |all| < 2 || NumericKeys(all))
      && (r.Ok? ==> && |r.value| == (if |all| < 10 then |all| else 10)
                    && Sorting.SortedDesc(r.value, ConfKey)
                    && multiset(r.value) <= multiset(all)
                    && (forall x, k :: x in all && x !in r.value && 0 <= k < |r.value| ==>
                                       ConfKey(x) <= ConfKey(r.value[k]))
                    && forall v :: Sorting.IsPrefix(Sorting.Ties(r.value, ConfKey, v), Sorting.Ties(all, ConfKey, v)))
  {
    SortedTop(historical + design + accessibility + performance, 10)
  }

  // ---- decision recording ----

  /** The decision history and the two performance counters it updates. */
  datatype Metrics<T> = Metrics(history: seq<T>, totalDecisions: nat, averageResponseTime: real)

  /** The sum of response times the running mean stands for. */
  function TotalResponseTime<T>(m: Metrics<T>): real {
    m.averageResponseTime * m.totalDecisions as real
  }

  const HistoryLimit: nat := 10000
  const HistoryKeep: nat := 5000

  /** `_record_decision`: append, count, update the running mean, and cut the
      history to its newest 5000 entries once it exceeds 10000. */
  function RecordDecision<T>(m: Metrics<T>, entry: T, responseTime: real): (r: Metrics<T>)
    ensures r.totalDecisions == m.totalDecisions + 1
    ensures TotalResponseTime(r) == TotalResponseTime(m) + responseTime
    ensures |m.history| < HistoryLimit ==> r.history == m.history + [entry]
    ensures |m.history| >= HistoryLimit ==> |r.history| == HistoryKeep
    ensures |m.history| <= HistoryLimit ==> |r.history| <= HistoryLimit
    ensures |r.history| > 0 && r.history[|r.history| - 1] == entry
    ensures exists k :: 0 <= k <= |m.history| && r.history == (m.history + [entry])[k..]
  {
    var total := m.totalDecisions + 1;
    var average := (m.averageResponseTime * (total - 1) as real + responseTime) / total as real;
    assert average * total as real == m.averageResponseTime * (total - 1) as real + responseTime;
    var h := m.history + [entry];
    var kept := if |h| > HistoryLimit then h[|h| - HistoryKeep..] else h;
    assert kept == h[|h| - |kept|..];
    Metrics(kept, total, average)
  }

  function EmptyMetrics<T>(): Metrics<T> {
    Metrics([], 0, 0.0)
  }

  function RecordAll<T>(m: Metrics<T>, entries: seq<(T, real)>): Metrics<T>
    decreases |entries|
  {
    if |entries| == 0 then m
    else RecordAll(RecordDecision(m, entries[0].0, entries[0].1), entries[1..])
  }

  function TotalTime<T>(entries: seq<(T, real)>): real
    decreases |entries|
  {
    if |entries| == 0 then 0.0 else entries[0].1 + TotalTime(entries[1..])
  }

  /** Recording a run of decisions counts them all, keeps at most 10000, and
      leaves the average response time equal to the mean of all of them. */
  lemma {:induction false} RecordAllAverages<T>(m: Metrics<T>, entries: seq<(T, real)>)
    requires |m.history| <= HistoryLimit
    ensures var r := RecordAll(m, entries);
      && r.totalDecisions == m.totalDecisions + |entries|
      && |r.history| <= HistoryLimit
      && TotalResponseTime(r) == TotalResponseTime(m) + TotalTime(entries)
    decreases |entries|
  {
    if |entries| > 0 {
      var m' := RecordDecision(m, entries[0].0, entries[0].1);
      assert RecordAll(m, entries) == RecordAll(m', entries[1..]);
      assert TotalTime(entries) == entries[0].1 + TotalTime(entries[1..]);
      RecordAllAverages(m', entries[1..]);
    }
  }

  // ---- UserBehaviorAnalyzer.analyze_interaction ----

  /** A user's behaviour counters; the dict counters are multisets of their keys. */
  datatype Pattern = Pattern(interactionCount: nat, commonActions: multiset<Value>,
                             preferredElements: multiset<Value>)

  /** The patterns after a call, and the exception it raised midway, if any:
      the counters already updated stay updated. */
  datatype Outcome = Outcome(patterns: map<Option<string>, Pattern>, error: Option<PyError>)

  /** Every counter map sums to the interaction count. */
  predicate Consistent(p: Pattern) {
    |p.commonActions| == p.interactionCount && |p.preferredElements| == p.interactionCount
  }

  function InteractionType(data: Obj): Value {
    GetOr(data, "interaction_type", JStr("unknown"))
  }

  function ElementInfo(data: Obj): Value {
    GetOr(data, "element_info", JObj(map[]))
  }

  /** `analyze_interaction`. */
  function AnalyzeInteraction(patterns: map<Option<string>, Pattern>, user: Option<string>, data: Obj)
    : (r: Outcome)
    ensures user in r.patterns && r.patterns.Keys == patterns.Keys + {user}
    ensures forall u :: u in patterns && u != user ==> r.patterns[u] == patterns[u]
    ensures var old_ := if user in patterns then patterns[user] else Pattern(0, multiset{}, multiset{});
      && r.patterns[user].interactionCount == old_.interactionCount + 1
      && (r.error.None? <==> Hashable(InteractionType(data)) && ElementInfo(data).JObj?
                             && Hashable(GetOr(ElementInfo(data).fields, "tagName", JStr("unknown"))))
      && (r.error.None? ==>
            && r.patterns[user].commonActions == old_.commonActions + multiset{InteractionType(data)}
            && r.patterns[user].preferredElements
               == old_.preferredElements + multiset{GetOr(ElementInfo(data).fields, "tagName", JStr("unknown"))})
  {
    var p0 := if user in patterns then patterns[user] else Pattern(0, multiset{}, multiset{});
    var p1 := p0.(interactionCount := p0.interactionCount + 1);
    var action := InteractionType(data);
    if !Hashable(action) then Outcome(patterns[user := p1], Some(Unhashable(action)))
    else
      var p2 := p1.(commonActions := p1.commonActions + multiset{action});
      var info := ElementInfo(data);
      if !info.JObj? then Outcome(patterns[user := p2], Some(NoAttribute(info, "get")))
      else
        var tag := GetOr(info.fields, "tagName", JStr("unknown"));
        if !Hashable(tag) then Outcome(patterns[user := p2], Some(Unhashable(tag)))
        else Outcome(patterns[user := p2.(preferredElements := p2.preferredElements + multiset{tag})], None)
  }

  /** A call that completes keeps each user's counter maps summing to the
      interaction count; one that raises midway leaves them out of step. */
  lemma AnalyzeInteractionConsistency(patterns: map<Option<string>, Pattern>, user: Option<string>, data: Obj)
    requires forall u :: u in patterns ==> Consistent(patterns[u])
    ensures var r := AnalyzeInteraction(patterns, user, data);
      (r.error.None? <==> forall u :: u in r.patterns ==> Consistent(r.patterns[u]))
  {
    var r := AnalyzeInteraction(patterns, user, data);
    if r.error.Some? {
      assert !Consistent(r.patterns[user]);
    }
  }
}
