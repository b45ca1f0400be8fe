/** The probabilistic route scorer: a read-only network of place pairs, each
    with a few alternative routes (distance, base time, a confidence in
    [0, 1], risk factors and advantages). It ranks the routes of a pair by a
    mode-specific suitability score, analyses one route's risk, and re-ranks
    routes after live conditions lower their confidence. */
module Navigation {
  import opened Common
  import opened Text
  import opened Numeric
  import opened Ranking

  datatype Route = Route(name: string, distance: real, baseTime: int, confidence: real,
                         factors: seq<string>, advantages: seq<string>)

  /** A catalog key: the two place names of a pair. */
  datatype RoutePair = RoutePair(from: string, to: string)

  type Network = seq<(RoutePair, seq<Route>)>

  /** What the catalog guarantees of one route. */
  predicate ValidRoute(r: Route)
  {
    0.0 <= r.confidence <= 1.0 && r.baseTime >= 0 && r.distance >= 0.0
  }

  /** Every pair has at least one route (the best one is the first after
      sorting) and every route is valid. */
  predicate ValidNetwork(net: Network)
  {
    forall i :: 0 <= i < |net| ==> |net[i].1| > 0 && ValidRoutes(net[i].1)
  }

  predicate ValidRoutes(routes: seq<Route>)
  {
    forall j :: 0 <= j < |routes| ==> ValidRoute(routes[j])
  }

  // ---------------------------------------------------------------------------
  // Finding the pair

  /** `_find_route_key`'s test: both names of the pair occur, ignoring case,
      in origin and destination, in one orientation or the other. */
  predicate PairMatches(key: RoutePair, origin: string, destination: string)
  {
    (Contains(Lower(origin), Lower(key.from)) && Contains(Lower(destination), Lower(key.to))) ||
    (Contains(Lower(origin), Lower(key.to)) && Contains(Lower(destination), Lower(key.from)))
  }

  function FindRouteFrom(net: Network, origin: string, destination: string, from: nat): (r: Option<nat>)
    requires from <= |net|
    ensures r.Some? ==> from <= r.value < |net| && PairMatches(net[r.value].0, origin, destination)
    ensures r.Some? ==> forall j :: from <= j < r.value ==> !PairMatches(net[j].0, origin, destination)
    ensures r.None? <==> forall j :: from <= j < |net| ==> !PairMatches(net[j].0, origin, destination)
    decreases |net| - from
  {
    if from == |net| then None
    else if PairMatches(net[from].0, origin, destination) then Some(from)
    else FindRouteFrom(net, origin, destination, from + 1)
  }

  /** `_find_route_key`: the position of the first matching pair. */
  function FindRouteKey(net: Network, origin: string, destination: string): (r: Option<nat>)
    ensures r.Some? ==> r.value < |net| && PairMatches(net[r.value].0, origin, destination)
    ensures r.Some? ==> forall j :: 0 <= j < r.value ==> !PairMatches(net[j].0, origin, destination)
    ensures r.None? <==> forall j :: 0 <= j < |net| ==> !PairMatches(net[j].0, origin, destination)
  {
    FindRouteFrom(net, origin, destination, 0)
  }

  /** Lookup does not depend on the direction of travel. */
  lemma {:induction false} FindRouteFromSymmetric(net: Network, origin: string, destination: string, from: nat)
    requires from <= |net|
    ensures FindRouteFrom(net, origin, destination, from) == FindRouteFrom(net, destination, origin, from)
    decreases |net| - from
  {
    if from < |net| {
      PairMatchesSymmetric(net[from].0, origin, destination);
      FindRouteFromSymmetric(net, origin, destination, from + 1);
    }
  }

  lemma PairMatchesSymmetric(key: RoutePair, origin: string, destination: string)
    ensures PairMatches(key, origin, destination) == PairMatches(key, destination, origin)
  {
  }

  lemma FindRouteKeySymmetric(net: Network, origin: string, destination: string)
    ensures FindRouteKey(net, origin, destination) == FindRouteKey(net, destination, origin)
  {
    FindRouteFromSymmetric(net, origin, destination, 0);
  }

  /** `_get_available_route_pairs` */
  function AvailableRoutePairs(net: Network): (pairs: seq<string>)
    ensures |pairs| == |net|
    ensures forall i :: 0 <= i < |net| ==> pairs[i] == net[i].0.from + " \U{2194} " + net[i].0.to
  {
    seq(|net|, i requires 0 <= i < |net| => net[i].0.from + " \U{2194} " + net[i].0.to)
  }

  // ---------------------------------------------------------------------------
  // Scores and tiers

  /** `100 / (1 + base_time / scale)` */
  function TimeScore(baseTime: int, scale: real): (s: real)
    requires baseTime >= 0 && scale > 0.0
    ensures 0.0 < s <= 100.0
  {
    var d := 1.0 + (baseTime as real) / scale;
    assert d >= 1.0;
    DivAtMost(100.0, d);
    100.0 / d
  }

  lemma DivAtMost(k: real, d: real)
    requires k > 0.0 && d >= 1.0
    ensures 0.0 < k / d <= k
  {
    var q := k / d;
    assert q * d == k;
  }

  /** A longer base time never gives a higher time score. */
  lemma TimeScoreAntitone(t1: int, t2: int, scale: real)
    requires 0 <= t1 <= t2 && scale > 0.0
    ensures TimeScore(t2, scale) <= TimeScore(t1, scale)
  {
    var d1 := 1.0 + (t1 as real) / scale;
    var d2 := 1.0 + (t2 as real) / scale;
    assert (t1 as real) / scale <= (t2 as real) / scale by {
      var q1, q2 := (t1 as real) / scale, (t2 as real) / scale;
      assert q1 * scale == t1 as real && q2 * scale == t2 as real;
      if q1 > q2 {
        MulStrict(q2, q1, scale);
      }
    }
    var a, b := 100.0 / d1, 100.0 / d2;
    assert a * d1 == 100.0 && b * d2 == 100.0;
    if b > a {
      MulStrict(a, b, d1);
      assert b * d1 <= b * d2;
    }
  }

  predicate ScenicAdvantage(adv: string)
  {
    Contains(Lower(adv), "scenic") || Contains(Lower(adv), "view")
  }

  predicate HasScenicAdvantage(advantages: seq<string>)
  {
    exists i :: 0 <= i < |advantages| && ScenicAdvantage(advantages[i])
  }

  /** `_calculate_route_score`. The risk tolerance is accepted and ignored, and
      any mode other than the four named ones scores as "efficient". */
  function Score(r: Route, mode: string, riskTolerance: real): real
    requires r.baseTime >= 0
  {
    var base := r.confidence * 100.0;
    if mode == "fastest" then base * 0.4 + TimeScore(r.baseTime, 100.0) * 0.6
    else if mode == "scenic" then
      base * 0.5 + (if HasScenicAdvantage(r.advantages) then 20.0 else 0.0) + r.distance / 10.0
    else if mode == "safest" then r.confidence * 120.0
    else if mode == "adventurous" then (1.0 - r.confidence) * 80.0 + (|r.factors| as real) * 10.0
    else r.confidence * 50.0 + TimeScore(r.baseTime, 200.0)
  }

  predicate NamedMode(mode: string)
  {
    mode == "fastest" || mode == "scenic" || mode == "safest" || mode == "adventurous"
  }

  /** The range each mode's score keeps to for a valid route. */
  lemma ScoreRanges(r: Route, mode: string, riskTolerance: real)
    requires ValidRoute(r)
    ensures Score(r, mode, riskTolerance) >= 0.0
    ensures mode == "fastest" ==> Score(r, mode, riskTolerance) <= 100.0
    ensures mode == "safest" ==> Score(r, mode, riskTolerance) <= 120.0
    ensures mode == "scenic" && HasScenicAdvantage(r.advantages) ==> Score(r, mode, riskTolerance) >= 20.0
    ensures !NamedMode(mode) ==> 0.0 < Score(r, mode, riskTolerance) <= 150.0
  {
  }

  /** The risk tolerance never changes a score, and every unnamed mode is "efficient". */
  lemma ScoreIgnoresRiskTolerance(r: Route, mode: string, t1: real, t2: real)
    requires r.baseTime >= 0
    ensures Score(r, mode, t1) == Score(r, mode, t2)
    ensures !NamedMode(mode) ==> Score(r, mode, t1) == Score(r, "efficient", t2)
  {
  }

  /** A more confident route scores at least as high when safety or
      efficiency is the aim, and no higher when adventure is. */
  lemma ScoreFollowsConfidence(r: Route, c: real, mode: string, t: real)
    requires ValidRoute(r) && r.confidence <= c <= 1.0
    ensures var r' := r.(confidence := c);
      (mode == "safest" || mode == "fastest" || !NamedMode(mode) ==> Score(r, mode, t) <= Score(r', mode, t)) &&
      (mode == "adventurous" ==> Score(r', mode, t) <= Score(r, mode, t))
  {
  }

  /** A slower route never scores higher in the "fastest" and "efficient" modes. */
  lemma ScoreFollowsTime(r: Route, bt: int, mode: string, t: real)
    requires ValidRoute(r) && r.baseTime <= bt
    requires mode == "fastest" || !NamedMode(mode)
    ensures Score(r.(baseTime := bt), mode, t) <= Score(r, mode, t)
  {
    TimeScoreAntitone(r.baseTime, bt, 100.0);
    TimeScoreAntitone(r.baseTime, bt, 200.0);
  }

  /** `_calculate_time_uncertainty`: 15% of the base time, up to three times
      that for low confidence, truncated. For a valid route it is less than
      the base time, so the optimistic estimate stays positive. */
  function TimeVariance(r: Route): (v: int)
    ensures ValidRoute(r) ==> 0 <= v && (r.baseTime > 0 ==> v < r.baseTime)
    ensures ValidRoute(r) ==> v as real <= (r.baseTime as real) * 0.45
  {
    var x := (r.baseTime as real) * 0.15 * (1.0 + (1.0 - r.confidence) * 2.0);
    VarianceBounds(r.baseTime as real, r.confidence);
    Trunc(x)
  }

  lemma VarianceBounds(b: real, c: real)
    ensures b >= 0.0 && 0.0 <= c <= 1.0 ==> 0.0 <= b * 0.15 * (1.0 + (1.0 - c) * 2.0) <= b * 0.45
  {
    if b >= 0.0 && 0.0 <= c <= 1.0 {
      var f := 1.0 + (1.0 - c) * 2.0;
      assert 1.0 <= f <= 3.0;
      assert b * 0.15 * f == (b * 0.15) * f;
      assert (b * 0.15) * f <= (b * 0.15) * 3.0;
    }
  }

  /** `_generate_quantum_state` */
  function QuantumState(confidence: real): (s: string)
    ensures confidence >= 0.9 <==> s == "|reliable\U{27E9}"
    ensures 0.8 <= confidence < 0.9 <==> s == "0.8|reliable\U{27E9} + 0.2|uncertain\U{27E9}"
    ensures 0.7 <= confidence < 0.8 <==> s == "0.7|reliable\U{27E9} + 0.3|uncertain\U{27E9}"
    ensures confidence < 0.7 <==> s == "0.6|reliable\U{27E9} + 0.4|uncertain\U{27E9}"
  {
    if confidence >= 0.9 then "|reliable\U{27E9}"
    else if confidence >= 0.8 then "0.8|reliable\U{27E9} + 0.2|uncertain\U{27E9}"
    else if confidence >= 0.7 then "0.7|reliable\U{27E9} + 0.3|uncertain\U{27E9}"
    else "0.6|reliable\U{27E9} + 0.4|uncertain\U{27E9}"
  }

  datatype RiskLevel = Low | Moderate | Elevated

  /** `_get_risk_level` */
  function GetRiskLevel(confidence: real): (l: RiskLevel)
    ensures l == Low <==> confidence >= 0.85
    ensures l == Moderate <==> 0.75 <= confidence < 0.85
    ensures l == Elevated <==> confidence < 0.75
  {
    if confidence >= 0.85 then Low else if confidence >= 0.75 then Moderate else Elevated
  }

  /** A higher confidence never has a higher risk level. */
  lemma RiskLevelMonotone(c1: real, c2: real)
    requires c1 <= c2
    ensures GetRiskLevel(c1) == Low ==> GetRiskLevel(c2) == Low
    ensures GetRiskLevel(c2) == Elevated ==> GetRiskLevel(c1) == Elevated
  {
  }

  datatype Severity = SeverityHigh | SeverityModerate | SeverityLow

  /** `_analyze_conditions`: by the number of conditions alone. */
  function AnalyzeConditions(conditions: seq<string>): (s: Severity)
    ensures s == SeverityHigh <==> |conditions| >= 3
    ensures s == SeverityModerate <==> |conditions| == 2
    ensures s == SeverityLow <==> |conditions| <= 1
  {
    if |conditions| >= 3 then SeverityHigh
    else if |conditions| >= 2 then SeverityModerate
    else SeverityLow
  }

  /** `_calculate_success_probability`: the confidence, less 3% of itself per
      risk factor. */
  function SuccessProbability(r: Route): (p: real)
    ensures ValidRoute(r) && |r.factors| <= 33 ==> 0.0 <= p <= r.confidence
  {
    var k := 1.0 - (|r.factors| as real) * 0.03;
    ScaleDown(r.confidence, k);
    r.confidence * k
  }

  lemma ScaleDown(c: real, k: real)
    ensures 0.0 <= c && 0.0 <= k <= 1.0 ==> 0.0 <= c * k <= c
  {
    if 0.0 <= c && 0.0 <= k <= 1.0 {
      assert c * k <= c * 1.0;
    }
  }

  // ---------------------------------------------------------------------------
  // Mitigations

  const TrafficMitigation := "Check live traffic before departure and during journey"
  const WeatherMitigation := "Monitor weather forecasts and have backup timing"
  const ConstructionMitigation := "Use real-time navigation apps for construction updates"
  const DefaultMitigations := ["Monitor conditions regularly", "Allow extra time"]

  /** The mitigations one factor calls for, in the order they are checked. */
  function MitigationsOf(factor: string): seq<string>
  {
    (if Contains(Lower(factor), "traffic") then [TrafficMitigation] else []) +
    (if Contains(Lower(factor), "weather") then [WeatherMitigation] else []) +
    (if Contains(Lower(factor), "construction") then [ConstructionMitigation] else [])
  }

  /** The body of `_suggest_mitigations`' loop for one factor: the three
      checks, each appending its advice when it holds. */
  method AddFactorMitigations(mitigations: seq<string>, factor: string) returns (after: seq<string>)
    ensures after == mitigations + MitigationsOf(factor)
  {
    var f := Lower(factor);
    after := mitigations;
    if Contains(f, "traffic") {
      after := after + [TrafficMitigation];
    }
    ghost var afterTraffic := after;
    if Contains(f, "weather") {
      after := after + [WeatherMitigation];
    }
    ghost var afterWeather := after;
    if Contains(f, "construction") {
      after := after + [ConstructionMitigation];
    }
    MitigationsStep(factor, mitigations, afterTraffic, afterWeather, after);
  }

  lemma MitigationsStep(factor: string, before: seq<string>, afterTraffic: seq<string>,
                        afterWeather: seq<string>, after: seq<string>)
    requires afterTraffic == before + (if Contains(Lower(factor), "traffic") then [TrafficMitigation] else [])
    requires afterWeather == afterTraffic + (if Contains(Lower(factor), "weather") then [WeatherMitigation] else [])
    requires after == afterWeather +
      (if Contains(Lower(factor), "construction") then [ConstructionMitigation] else [])
    ensures after == before + MitigationsOf(factor)
  {
  }

  lemma FactorMitigationsSnoc(factors: seq<string>, i: nat)
    requires i < |factors|
    ensures FactorMitigations(factors[..i + 1]) == FactorMitigations(factors[..i]) + MitigationsOf(factors[i])
  {
    TakePrefix(factors, i);
  }

  /** The mitigations for a list of factors, factor by factor. */
  function FactorMitigations(factors: seq<string>): seq<string>
  {
    if factors == [] then []
    else FactorMitigations(factors[..|factors| - 1]) + MitigationsOf(factors[|factors| - 1])
  }

  /** What `_suggest_mitigations` returns. */
  function Mitigations(factors: seq<string>): seq<string>
  {
    var m := FactorMitigations(factors);
    if m == [] then DefaultMitigations else m
  }

  predicate FactorAdvice(s: string)
  {
    s == TrafficMitigation || s == WeatherMitigation || s == ConstructionMitigation
  }

  /** The list is never empty, and without the defaults each entry is one of
      the three factor advices. */
  lemma MitigationsSpec(factors: seq<string>)
    ensures |Mitigations(factors)| > 0
    ensures FactorMitigations(factors) != [] ==>
      forall k :: 0 <= k < |Mitigations(factors)| ==> FactorAdvice(Mitigations(factors)[k])
    ensures FactorMitigations(factors) == [] ==> Mitigations(factors) == DefaultMitigations
  {
    FactorMitigationsAdvice(factors);
  }

  lemma {:induction false} FactorMitigationsAdvice(factors: seq<string>)
    ensures forall k :: 0 <= k < |FactorMitigations(factors)| ==> FactorAdvice(FactorMitigations(factors)[k])
  {
    if factors != [] {
      var init := factors[..|factors| - 1];
      FactorMitigationsAdvice(init);
      var a, b := FactorMitigations(init), MitigationsOf(factors[|factors| - 1]);
      assert FactorMitigations(factors) == a + b;
      forall k | 0 <= k < |a + b| ensures FactorAdvice((a + b)[k]) {
        if k >= |a| {
          assert (a + b)[k] == b[k - |a|];
        }
      }
    }
  }

  /** The traffic advice is given exactly when some factor mentions traffic. */
  lemma {:induction false} TrafficAdvice(factors: seq<string>)
    ensures TrafficMitigation in FactorMitigations(factors) <==>
      exists i :: 0 <= i < |factors| && Contains(Lower(factors[i]), "traffic")
  {
    if factors != [] {
      var init := factors[..|factors| - 1];
      var last := factors[|factors| - 1];
      TrafficAdvice(init);
      var a, b := FactorMitigations(init), MitigationsOf(last);
      assert FactorMitigations(factors) == a + b;
      assert TrafficMitigation in a + b <==> TrafficMitigation in a || TrafficMitigation in b;
      assert TrafficMitigation in b <==> Contains(Lower(last), "traffic");
      assert forall i :: 0 <= i < |init| ==> init[i] == factors[i];
    }
  }

  /** `_suggest_mitigations` */
  method SuggestMitigations(factors: seq<string>) returns (mitigations: seq<string>)
    ensures mitigations == Mitigations(factors)
  {
    mitigations := [];
    var i := 0;
    while i < |factors|
      invariant 0 <= i <= |factors|
      invariant mitigations == FactorMitigations(factors[..i])
    {
      mitigations := AddFactorMitigations(mitigations, factors[i]);
      FactorMitigationsSnoc(factors, i);
      i := i + 1;
    }
    assert factors[..|factors|] == factors;
    if mitigations == [] {
      mitigations := DefaultMitigations;
    }
  }

  // ---------------------------------------------------------------------------
  // Conditions

  /** Some whitespace-separated word of the lower-cased condition occurs in the
      lower-cased factor. */
  predicate Affects(condition: string, factor: string)
  {
    var ws := Words(Lower(condition));
    exists k :: 0 <= k < |ws| && Contains(Lower(factor), ws[k])
  }

  /** The number of factors one condition affects. */
  function FactorHits(condition: string, factors: seq<string>): (n: nat)
    ensures n <= |factors|
  {
    if factors == [] then 0
    else FactorHits(condition, factors[..|factors| - 1]) + (if Affects(condition, factors[|factors| - 1]) then 1 else 0)
  }

  /** The number of (condition, factor) pairs where the condition affects the factor. */
  function PairHits(conditions: seq<string>, factors: seq<string>): (n: nat)
    ensures n <= |conditions| * |factors|
  {
    if conditions == [] then 0
    else
      var m := |conditions| - 1;
      assert m * |factors| + |factors| == |conditions| * |factors| by {
        MulSucc(m, |factors|);
      }
      PairHits(conditions[..m], factors) + FactorHits(conditions[m], factors)
  }

  /** What `_adjust_confidence_for_conditions` returns: 0.1 off per affected
      pair, clamped to [0.4, 1.0]. */
  function AdjustedConfidence(confidence: real, factors: seq<string>, conditions: seq<string>): real
  {
    Clamp(0.4, 1.0, confidence - Scale(PairHits(conditions, factors), 0.1))
  }

  /** The adjusted confidence always lies in [0.4, 1.0]; with no conditions,
      a confidence already in that range is unchanged; an extra condition
      never raises it. */
  lemma AdjustedConfidenceSpec(confidence: real, factors: seq<string>, conditions: seq<string>, extra: string)
    ensures 0.4 <= AdjustedConfidence(confidence, factors, conditions) <= 1.0
    ensures 0.4 <= confidence <= 1.0 ==> AdjustedConfidence(confidence, factors, []) == confidence
    ensures AdjustedConfidence(confidence, factors, conditions + [extra])
         <= AdjustedConfidence(confidence, factors, conditions)
  {
    var cs := conditions + [extra];
    assert cs[..|cs| - 1] == conditions;
  }

  lemma FactorHitsStep(condition: string, factors: seq<string>, j: nat)
    requires j < |factors|
    ensures FactorHits(condition, factors[..j + 1]) ==
      FactorHits(condition, factors[..j]) + (if Affects(condition, factors[j]) then 1 else 0)
  {
    assert factors[..j + 1][..j] == factors[..j];
  }

  lemma PairHitsStep(conditions: seq<string>, factors: seq<string>, i: nat)
    requires i < |conditions|
    ensures PairHits(conditions[..i + 1], factors) == PairHits(conditions[..i], factors) + FactorHits(conditions[i], factors)
  {
    assert conditions[..i + 1][..i] == conditions[..i];
  }

  /** `_adjust_confidence_for_conditions` */
  method AdjustConfidence(r: Route, conditions: seq<string>) returns (adjusted: real)
    ensures adjusted == AdjustedConfidence(r.confidence, r.factors, conditions)
    ensures 0.4 <= adjusted <= 1.0
  {
    adjusted := r.confidence;
    var i := 0;
    while i < |conditions|
      invariant 0 <= i <= |conditions|
      invariant adjusted == r.confidence - Scale(PairHits(conditions[..i], r.factors), 0.1)
    {
      PairHitsStep(conditions, r.factors, i);
      ghost var p := PairHits(conditions[..i], r.factors);
      ghost var k := 0;
      var j := 0;
      while j < |r.factors|
        invariant 0 <= j <= |r.factors|
        invariant k == FactorHits(conditions[i], r.factors[..j])
        invariant adjusted == r.confidence - Scale(p + k, 0.1)
      {
        FactorHitsStep(conditions[i], r.factors, j);
        ScaleSucc(p + k, 0.1);
        if Affects(conditions[i], r.factors[j]) {
          adjusted := adjusted - 0.1;
          k := k + 1;
        }
        j := j + 1;
      }
      assert r.factors[..|r.factors|] == r.factors;
      i := i + 1;
    }
    assert conditions[..|conditions|] == conditions;
    adjusted := Clamp(0.4, 1.0, adjusted);
  }

  /** The whole lower-cased condition occurs in some lower-cased factor. */
  predicate Hits(condition: string, factors: seq<string>)
  {
    exists i :: 0 <= i < |factors| && Contains(Lower(factors[i]), Lower(condition))
  }

  /** The number of conditions that hit some factor. */
  function MatchingFactors(conditions: seq<string>, factors: seq<string>): (n: nat)
    ensures n <= |conditions|
  {
    if conditions == [] then 0
    else MatchingFactors(conditions[..|conditions| - 1], factors) +
         (if Hits(conditions[|conditions| - 1], factors) then 1 else 0)
  }

  datatype ImpactSeverity = Minimal | ModerateImpact | Significant

  datatype Impact = Impact(timeDelta: int, severity: ImpactSeverity, affectedFactors: nat)

  /** `_calculate_condition_impact` */
  function ConditionImpact(r: Route, conditions: seq<string>): (im: Impact)
    ensures im.affectedFactors == MatchingFactors(conditions, r.factors) <= |conditions|
    ensures im.severity == Significant <==> im.affectedFactors >= 2
    ensures im.severity == ModerateImpact <==> im.affectedFactors == 1
    ensures im.severity == Minimal <==> im.affectedFactors == 0
    ensures im.severity == Significant ==> im.timeDelta == Trunc((r.baseTime as real) * 0.25)
    ensures im.severity == ModerateImpact ==> im.timeDelta == Trunc((r.baseTime as real) * 0.1)
    ensures im.severity == Minimal ==> im.timeDelta == 0
    ensures r.baseTime >= 0 ==> 0 <= im.timeDelta <= r.baseTime / 4
  {
    var n := MatchingFactors(conditions, r.factors);
    if n >= 2 then Impact(Trunc((r.baseTime as real) * 0.25), Significant, n)
    else if n == 1 then Impact(Trunc((r.baseTime as real) * 0.1), ModerateImpact, n)
    else Impact(0, Minimal, n)
  }

  // ---------------------------------------------------------------------------
  // Ranking the routes of a pair

  datatype ScoredRoute = ScoredRoute(
    routeName: string, distanceKm: real, estimatedTimeMin: int,
    optimistic: int, expected: int, pessimistic: int,
    confidenceScore: real, suitabilityScore: real,
    riskFactors: seq<string>, advantages: seq<string>, quantumState: string)

  function ScoreRoute(r: Route, mode: string, riskTolerance: real): (s: ScoredRoute)
    requires ValidRoute(r)
    ensures s.optimistic <= s.expected == r.baseTime <= s.pessimistic
    ensures r.baseTime > 0 ==> s.optimistic > 0
    ensures s.suitabilityScore == Score(r, mode, riskTolerance) && s.routeName == r.name
    ensures s.confidenceScore == r.confidence
  {
    var v := TimeVariance(r);
    ScoredRoute(r.name, r.distance, r.baseTime, r.baseTime - v, r.baseTime, r.baseTime + v,
                r.confidence, Score(r, mode, riskTolerance), r.factors, r.advantages,
                QuantumState(r.confidence))
  }

  /** The scored routes, in catalog order. */
  function ScoreAll(routes: seq<Route>, mode: string, riskTolerance: real): (ss: seq<ScoredRoute>)
    requires ValidRoutes(routes)
    ensures |ss| == |routes|
    ensures forall i :: 0 <= i < |routes| ==> ss[i] == ScoreRoute(routes[i], mode, riskTolerance)
  {
    if routes == [] then []
    else ScoreAll(routes[..|routes| - 1], mode, riskTolerance) + [ScoreRoute(routes[|routes| - 1], mode, riskTolerance)]
  }

  function Suitability(s: ScoredRoute): real
  {
    s.suitabilityScore
  }

  /** `_generate_route_recommendation`: the mode, the route named, and the two
      figures it reports (number formatting aside). */
  datatype RouteAdvice = RouteAdvice(mode: string, routeName: string, suitabilityFigure: real,
                                     confidenceFigure: real)

  /** The recommendation as the source writes it: its "suitability" figure is
      the route's confidence score. */
  function RouteRecommendationAsWritten(top: ScoredRoute, mode: string): (a: RouteAdvice)
    ensures a.routeName == top.routeName && a.suitabilityFigure == top.confidenceScore
  {
    RouteAdvice(mode, top.routeName, top.confidenceScore, top.confidenceScore)
  }

  /** The recommendation with the suitability figure the text announces. */
  function RouteRecommendation(top: ScoredRoute, mode: string): (a: RouteAdvice)
    ensures a.routeName == top.routeName && a.suitabilityFigure == top.suitabilityScore
    ensures a.confidenceFigure == top.confidenceScore
  {
    RouteAdvice(mode, top.routeName, top.suitabilityScore, top.confidenceScore)
  }

  /** Beirut to Byblos is the first pair of the network. */
  lemma BeirutByblosIsFirstPair()
    ensures FindRouteKey(RouteNetwork(), "Beirut", "Byblos") == Some(0)
    ensures RouteNetwork()[0].1 == BeirutByblosRoutes()
  {
    ContainsTrivial(Lower("Beirut"));
    ContainsTrivial(Lower("Byblos"));
    assert PairMatches(RouteNetwork()[0].0, "Beirut", "Byblos");
  }

  /** From Beirut to Byblos in "safest" mode the best-ranked route is the
      Mountain Route with suitability 102, while the written figure is that
      route's confidence, 0.85. */
  lemma RecommendationFigureMismatch()
    ensures var ranked := SortDesc(ScoreAll(BeirutByblosRoutes(), "safest", 0.5), Suitability);
      |ranked| > 0 && ranked[0].routeName == "Mountain Route" && ranked[0].suitabilityScore == 102.0 &&
      RouteRecommendationAsWritten(ranked[0], "safest").suitabilityFigure == 0.85
  {
    var routes := BeirutByblosRoutes();
    var coastal, mountain := routes[0], routes[1];
    assert routes == [coastal, mountain];
    SafestScore(coastal, 0.5);
    SafestScore(mountain, 0.5);
    var scored := ScoreAll(routes, "safest", 0.5);
    assert scored == [scored[0], scored[1]];
    HeadOfTwo(scored[0], scored[1], Suitability);
  }

  /** The "safest" score is the confidence times 120. */
  lemma SafestScore(r: Route, riskTolerance: real)
    requires r.baseTime >= 0
    ensures Score(r, "safest", riskTolerance) == r.confidence * 120.0
  {
    assert "safest" != "fastest" && "safest" != "scenic";
  }

  datatype RoutesResult =
    | RoutesFound(origin: string, destination: string, routingMode: string, riskTolerance: real,
                  totalRoutesAnalyzed: nat, routes: seq<ScoredRoute>, recommendation: RouteAdvice,
                  superpositionCount: nat)
    | NoRoutes(error: string, availableRoutes: seq<string>)

  /** `calculate_quantum_routes`: scores every route of the pair, then sorts
      them by suitability, highest first, keeping catalog order among ties. */
  method CalculateQuantumRoutes(net: Network, origin: string, destination: string,
                                mode: string, riskTolerance: real) returns (res: RoutesResult)
    requires ValidNetwork(net)
    ensures res.NoRoutes? <==> FindRouteKey(net, origin, destination).None?
    ensures res.NoRoutes? ==>
      res.error == "No routes found between '" + origin + "' and '" + destination + "'" &&
      res.availableRoutes == AvailableRoutePairs(net)
    ensures res.RoutesFound? ==>
      var routes := net[FindRouteKey(net, origin, destination).value].1;
      res.origin == origin && res.destination == destination && res.routingMode == mode &&
      res.riskTolerance == riskTolerance &&
      res.routes == SortDesc(ScoreAll(routes, mode, riskTolerance), Suitability) &&
      |res.routes| > 0 && res.totalRoutesAnalyzed == res.superpositionCount == |res.routes| &&
      res.recommendation == RouteRecommendation(res.routes[0], mode) &&
      res.recommendation ==
        RouteRecommendationAsWritten(res.routes[0], mode).(suitabilityFigure := res.routes[0].suitabilityScore)
  {
    var key := FindRouteKey(net, origin, destination);
    if key.None? {
      return NoRoutes("No routes found between '" + origin + "' and '" + destination + "'",
                      AvailableRoutePairs(net));
    }
    var routes := net[key.value].1;
    var scored: seq<ScoredRoute> := [];
    var i := 0;
    while i < |routes|
      invariant 0 <= i <= |routes|
      invariant scored == ScoreAll(routes[..i], mode, riskTolerance)
    {
      assert routes[..i + 1][..i] == routes[..i];
      scored := scored + [ScoreRoute(routes[i], mode, riskTolerance)];
      i := i + 1;
    }
    assert routes[..|routes|] == routes;
    scored := SortDesc(scored, Suitability);
    res := RoutesFound(origin, destination, mode, riskTolerance, |scored|, scored,
                       RouteRecommendation(scored[0], mode), |scored|);
  }

  /** The ranked routes are exactly the pair's routes, scored. */
  lemma RankedRoutesAreScored(routes: seq<Route>, mode: string, riskTolerance: real)
    requires ValidRoutes(routes)
    ensures var ranked := SortDesc(ScoreAll(routes, mode, riskTolerance), Suitability);
      forall s :: s in ranked <==> s in ScoreAll(routes, mode, riskTolerance)
  {
    var ss := ScoreAll(routes, mode, riskTolerance);
    var ranked := SortDesc(ss, Suitability);
    forall s ensures s in ranked <==> s in ss {
      assert s in ranked <==> s in multiset(ranked);
    }
  }

  /** The recommended route has the highest suitability of all the pair's routes. */
  lemma RecommendedRouteIsBest(routes: seq<Route>, mode: string, riskTolerance: real)
    requires ValidRoutes(routes) && |routes| > 0
    ensures var ranked := SortDesc(ScoreAll(routes, mode, riskTolerance), Suitability);
      forall j :: 0 <= j < |routes| ==>
        Score(routes[j], mode, riskTolerance) <= RouteRecommendation(ranked[0], mode).suitabilityFigure
  {
    var ss := ScoreAll(routes, mode, riskTolerance);
    var ranked := SortDesc(ss, Suitability);
    HeadIsBest(ss, Suitability);
    forall j | 0 <= j < |routes| ensures Suitability(ss[j]) <= Suitability(ranked[0]) {
      assert ss[j] in ss;
    }
  }

  // ---------------------------------------------------------------------------
  // Analysing one route

  /** `evaluate_route_confidence`'s search: the first route whose name equals
      `routeName` ignoring case. */
  predicate NameMatches(r: Route, routeName: string)
  {
    Lower(r.name) == Lower(routeName)
  }

  datatype Evaluation = Evaluation(
    routeName: string, origin: string, destination: string, overallConfidence: real,
    successProbability: real, riskLevel: RiskLevel, factors: seq<string>,
    mitigationStrategies: seq<string>, onTimeProbability: real, delayLikelihood: real,
    expectedVarianceMin: int)

  datatype EvaluationResult =
    | Evaluated(evaluation: Evaluation)
    | PairNotFound(error: string)
    | RouteNotFound(error: string, availableRoutes: seq<string>)

  function RouteNames(routes: seq<Route>): (ns: seq<string>)
    ensures |ns| == |routes| && forall i :: 0 <= i < |routes| ==> ns[i] == routes[i].name
  {
    seq(|routes|, i requires 0 <= i < |routes| => routes[i].name)
  }

  /** `evaluate_route_confidence` */
  method EvaluateRouteConfidence(net: Network, origin: string, destination: string, routeName: string)
    returns (res: EvaluationResult)
    requires ValidNetwork(net)
    ensures res.PairNotFound? <==> FindRouteKey(net, origin, destination).None?
    ensures res.PairNotFound? ==> res.error == "Route not found"
    ensures FindRouteKey(net, origin, destination).Some? ==>
      var routes := net[FindRouteKey(net, origin, destination).value].1;
      (res.RouteNotFound? <==> forall j :: 0 <= j < |routes| ==> !NameMatches(routes[j], routeName)) &&
      (res.RouteNotFound? ==>
         res.error == "Route '" + routeName + "' not found" && res.availableRoutes == RouteNames(routes)) &&
      (res.Evaluated? ==> exists k :: (0 <= k < |routes| && NameMatches(routes[k], routeName) &&
         (forall j :: 0 <= j < k ==> !NameMatches(routes[j], routeName)) &&
         res.evaluation == EvaluationOf(routes[k], origin, destination)))
  {
    var key := FindRouteKey(net, origin, destination);
    if key.None? {
      return PairNotFound("Route not found");
    }
    var routes := net[key.value].1;
    var i := 0;
    while i < |routes| && !NameMatches(routes[i], routeName)
      invariant 0 <= i <= |routes|
      invariant forall j :: 0 <= j < i ==> !NameMatches(routes[j], routeName)
    {
      i := i + 1;
    }
    if i == |routes| {
      return RouteNotFound("Route '" + routeName + "' not found", RouteNames(routes));
    }
    var target := routes[i];
    var mitigations := SuggestMitigations(target.factors);
    var evaluation := Evaluation(target.name, origin, destination, target.confidence,
                                 SuccessProbability(target), GetRiskLevel(target.confidence),
                                 target.factors, mitigations, target.confidence * 0.9,
                                 1.0 - target.confidence, TimeVariance(target));
    EvaluationStep(target, origin, destination, mitigations, evaluation);
    res := Evaluated(evaluation);
  }

  /** The analysis the evaluation method builds is `EvaluationOf`'s. */
  lemma EvaluationStep(r: Route, origin: string, destination: string, mitigations: seq<string>,
                       e: Evaluation)
    requires mitigations == Mitigations(r.factors)
    requires e == Evaluation(r.name, origin, destination, r.confidence, SuccessProbability(r),
                             GetRiskLevel(r.confidence), r.factors, mitigations, r.confidence * 0.9,
                             1.0 - r.confidence, TimeVariance(r))
    ensures e == EvaluationOf(r, origin, destination)
  {
  }

  /** The analysis of a found route. */
  function EvaluationOf(r: Route, origin: string, destination: string): (e: Evaluation)
    ensures e.routeName == r.name && e.overallConfidence == r.confidence
    ensures e.riskLevel == GetRiskLevel(r.confidence) && e.mitigationStrategies == Mitigations(r.factors)
    ensures ValidRoute(r) ==> 0.0 <= e.onTimeProbability <= e.overallConfidence
    ensures ValidRoute(r) ==> e.onTimeProbability + e.delayLikelihood <= 1.0
    ensures e.origin == origin && e.destination == destination && e.factors == r.factors
    ensures e.successProbability == SuccessProbability(r) && e.expectedVarianceMin == TimeVariance(r)
    ensures e.onTimeProbability == 0.9 * r.confidence && e.delayLikelihood == 1.0 - r.confidence
  {
    Evaluation(r.name, origin, destination, r.confidence, SuccessProbability(r),
               GetRiskLevel(r.confidence), r.factors, Mitigations(r.factors),
               r.confidence * 0.9, 1.0 - r.confidence, TimeVariance(r))
  }

  // ---------------------------------------------------------------------------
  // Re-routing under live conditions

  /** `_get_adaptation_recommendation` */
  datatype Advice =
    | Continue(routeName: string)
    | UsableWithDelays(routeName: string, delayMinutes: int)
    | ConsiderAlternative(routeName: string)
  {
    function Text(): string
    {
      match this
      case Continue(n) => "Continue with " + n + " - still reliable despite conditions"
      case UsableWithDelays(n, d) => n + " usable but expect delays of ~" + IntToString(d) + " minutes"
      case ConsiderAlternative(n) => "Consider alternative to " + n + " due to current conditions"
    }
  }

  function AdaptationAdvice(r: Route, adjusted: real, im: Impact): (a: Advice)
    ensures a.routeName == r.name
    ensures a.Continue? <==> adjusted >= 0.8
    ensures a.UsableWithDelays? <==> 0.65 <= adjusted < 0.8
    ensures a.UsableWithDelays? ==> a.delayMinutes == im.timeDelta
    ensures a.ConsiderAlternative? <==> adjusted < 0.65
  {
    if adjusted >= 0.8 then Continue(r.name)
    else if adjusted >= 0.65 then UsableWithDelays(r.name, im.timeDelta)
    else ConsiderAlternative(r.name)
  }

  datatype AdaptedRoute = AdaptedRoute(
    routeName: string, originalConfidence: real, adjustedConfidence: real,
    confidenceChange: real, estimatedTime: int, conditionImpact: Impact, recommendation: Advice)

  /** One entry of `adapted_routes`. */
  function Adapt(r: Route, conditions: seq<string>): (a: AdaptedRoute)
    ensures a.routeName == r.name && a.originalConfidence == r.confidence
    ensures 0.4 <= a.adjustedConfidence <= 1.0
    ensures a.confidenceChange == a.adjustedConfidence - r.confidence
    ensures a.adjustedConfidence == AdjustedConfidence(r.confidence, r.factors, conditions)
    ensures a.conditionImpact == ConditionImpact(r, conditions)
    ensures a.estimatedTime == r.baseTime + a.conditionImpact.timeDelta
    ensures a.recommendation == AdaptationAdvice(r, a.adjustedConfidence, a.conditionImpact)
    ensures r.baseTime >= 0 ==> r.baseTime <= a.estimatedTime <= r.baseTime + r.baseTime / 4
  {
    var adjusted := AdjustedConfidence(r.confidence, r.factors, conditions);
    var im := ConditionImpact(r, conditions);
    AdaptedRoute(r.name, r.confidence, adjusted, adjusted - r.confidence,
                 r.baseTime + im.timeDelta, im, AdaptationAdvice(r, adjusted, im))
  }

  /** The entry the re-routing loop builds for one route is `Adapt`'s. */
  lemma AdaptStep(r: Route, conditions: seq<string>, adjusted: real, im: Impact, entry: AdaptedRoute)
    requires adjusted == AdjustedConfidence(r.confidence, r.factors, conditions)
    requires im == ConditionImpact(r, conditions)
    requires entry == AdaptedRoute(r.name, r.confidence, adjusted, adjusted - r.confidence,
                                   r.baseTime + im.timeDelta, im, AdaptationAdvice(r, adjusted, im))
    ensures entry == Adapt(r, conditions)
  {
  }

  function AdaptAll(routes: seq<Route>, conditions: seq<string>): (as_: seq<AdaptedRoute>)
    ensures |as_| == |routes|
    ensures forall i :: 0 <= i < |routes| ==> as_[i] == Adapt(routes[i], conditions)
  {
    if routes == [] then []
    else AdaptAll(routes[..|routes| - 1], conditions) + [Adapt(routes[|routes| - 1], conditions)]
  }

  lemma AdaptAllIsPointwise(routes: seq<Route>, conditions: seq<string>, adapted: seq<AdaptedRoute>)
    requires |adapted| == |routes|
    requires forall k :: 0 <= k < |routes| ==> adapted[k] == Adapt(routes[k], conditions)
    ensures adapted == AdaptAll(routes, conditions)
  {
  }

  function AdjustedKey(a: AdaptedRoute): real
  {
    a.adjustedConfidence
  }

  function ShiftOf(a: AdaptedRoute): real
  {
    AbsReal(a.confidenceChange)
  }

  /** The largest absolute confidence change. */
  function MaxShift(adapted: seq<AdaptedRoute>): (m: real)
    requires |adapted| > 0
    ensures forall a :: a in adapted ==> ShiftOf(a) <= m
    ensures exists a :: a in adapted && ShiftOf(a) == m
  {
    var shifts := seq(|adapted|, j requires 0 <= j < |adapted| => ShiftOf(adapted[j]));
    var m := Max(shifts);
    assert forall j :: 0 <= j < |adapted| ==> shifts[j] == ShiftOf(adapted[j]);
    assert exists j :: 0 <= j < |adapted| && ShiftOf(adapted[j]) == m;
    m
  }

  datatype RerouteResult =
    | Rerouted(currentLocation: string, destination: string, currentConditions: seq<string>,
               conditionSeverity: Severity, adaptedRoutes: seq<AdaptedRoute>, bestOption: AdaptedRoute,
               maxConfidenceShift: real)
    | RerouteFailed(error: string)

  /** `adaptive_reroute`: lowers each route's confidence for the conditions,
      then sorts by the adjusted confidence, highest first. */
  method AdaptiveReroute(net: Network, currentLocation: string, destination: string,
                         conditions: seq<string>) returns (res: RerouteResult)
    requires ValidNetwork(net)
    ensures res.RerouteFailed? <==> FindRouteKey(net, currentLocation, destination).None?
    ensures res.RerouteFailed? ==> res.error == "No routes available for rerouting"
    ensures res.Rerouted? ==>
      var routes := net[FindRouteKey(net, currentLocation, destination).value].1;
      res.currentLocation == currentLocation && res.destination == destination &&
      res.currentConditions == conditions && res.conditionSeverity == AnalyzeConditions(conditions) &&
      res.adaptedRoutes == SortDesc(AdaptAll(routes, conditions), AdjustedKey) &&
      |res.adaptedRoutes| > 0 && res.bestOption == res.adaptedRoutes[0] &&
      res.maxConfidenceShift == MaxShift(res.adaptedRoutes)
  {
    var severity := AnalyzeConditions(conditions);
    var key := FindRouteKey(net, currentLocation, destination);
    if key.None? {
      return RerouteFailed("No routes available for rerouting");
    }
    var routes := net[key.value].1;
    var adapted: seq<AdaptedRoute> := [];
    var i := 0;
    while i < |routes|
      invariant 0 <= i <= |routes|
      invariant |adapted| == i
      invariant forall k :: 0 <= k < i ==> adapted[k] == Adapt(routes[k], conditions)
    {
      var route := routes[i];
      var adjusted := AdjustConfidence(route, conditions);
      var im := ConditionImpact(route, conditions);
      var entry := AdaptedRoute(route.name, route.confidence, adjusted, adjusted - route.confidence,
                                route.baseTime + im.timeDelta, im, AdaptationAdvice(route, adjusted, im));
      AdaptStep(route, conditions, adjusted, im, entry);
      adapted := adapted + [entry];
      i := i + 1;
    }
    AdaptAllIsPointwise(routes, conditions, adapted);
    adapted := SortDesc(adapted, AdjustedKey);
    res := Rerouted(currentLocation, destination, conditions, severity, adapted, adapted[0], MaxShift(adapted));
  }

  /** The best option has the highest adjusted confidence of all the pair's
      routes, and every route of the pair is among the adapted ones. */
  lemma BestOptionIsMostConfident(routes: seq<Route>, conditions: seq<string>)
    requires |routes| > 0
    ensures var ranked := SortDesc(AdaptAll(routes, conditions), AdjustedKey);
      (forall j :: 0 <= j < |routes| ==>
         AdjustedConfidence(routes[j].confidence, routes[j].factors, conditions) <= ranked[0].adjustedConfidence) &&
      (forall j :: 0 <= j < |routes| ==> Adapt(routes[j], conditions) in ranked)
  {
    var all := AdaptAll(routes, conditions);
    var ranked := SortDesc(all, AdjustedKey);
    HeadIsBest(all, AdjustedKey);
    forall j | 0 <= j < |routes| ensures Adapt(routes[j], conditions) in ranked {
      assert all[j] in multiset(ranked);
    }
    forall j | 0 <= j < |routes|
      ensures AdjustedConfidence(routes[j].confidence, routes[j].factors, conditions) <= ranked[0].adjustedConfidence
    {
      assert all[j] in ranked;
      assert AdjustedKey(all[j]) == AdjustedConfidence(routes[j].confidence, routes[j].factors, conditions);
    }
  }

  // ---------------------------------------------------------------------------
  // The network the server is built with

  function BeirutByblosRoutes(): (routes: seq<Route>)
    ensures |routes| == 2 && ValidRoutes(routes)
  {
    [ Route("Coastal Highway", 37.0, 45, 0.75, ["Beach traffic", "Power cuts possible", "Coastal congestion"],
            ["Scenic Mediterranean views", "Multiple stops available"]),
      Route("Mountain Route", 42.0, 55, 0.85, ["Winding roads", "Weather dependent"],
            ["Avoids coastal traffic", "Beautiful mountain scenery"])]
  }

  function CampusToDowntown(): seq<Route>
  {
    [ Route("Hamra-Bliss Route", 3.0, 15, 0.60, ["Heavy traffic", "Demonstrations possible", "Power cuts affect lights"],
            ["Most direct", "Many alternative paths"]),
      Route("Corniche Route", 4.0, 20, 0.80, ["Pedestrian traffic", "Weather dependent"],
            ["Scenic sea views", "Walkable", "Less congested"]) ]
  }

  function RouteNetwork(): Network
  {
    [ (RoutePair("Beirut", "Byblos"), BeirutByblosRoutes()),
      (RoutePair("AUB Campus", "Downtown Beirut"), CampusToDowntown()),
      (RoutePair("AUB Main Gate", "Downtown Beirut"), CampusToDowntown()),
      (RoutePair("Hamra", "Downtown Beirut"), [
        Route("Hamra Street Direct", 2.0, 12, 0.65, ["Heavy traffic", "Street vendors", "Power cuts"],
              ["Shortest route", "Many shops"]),
        Route("Verdun Route", 3.0, 18, 0.75, ["Shopping traffic", "One-way streets"],
              ["Less congested", "Better road quality"])]),
      (RoutePair("Beirut", "Tripoli"), [
        Route("Coastal Highway North", 85.0, 90, 0.70, ["Traffic checkpoints", "Road quality varies", "Power cuts"],
              ["Direct route", "Coastal scenery"]),
        Route("Mountain Highway", 95.0, 110, 0.75, ["Mountain weather", "Winding roads"],
              ["Cooler in summer", "Less traffic"])]),
      (RoutePair("Beirut", "Zahle"), [
        Route("Damascus Road", 54.0, 65, 0.82, ["Mountain pass", "Checkpoint delays"],
              ["Scenic Bekaa Valley", "Good road condition"])]),
      (RoutePair("New York", "Boston"), [
        Route("I-95 Express", 346.0, 240, 0.85, ["Highway traffic", "Construction zones"],
              ["Fastest under normal conditions", "Multiple service areas"]),
        Route("Coastal Route 1", 412.0, 320, 0.92, ["Weather dependent", "Seasonal traffic"],
              ["Scenic views", "Charming coastal towns"]),
        Route("Inland Alternate", 368.0, 280, 0.78, ["Less direct", "Variable conditions"],
              ["Avoids major highways", "Lower traffic"])]),
      (RoutePair("San Francisco", "Los Angeles"), [
        Route("I-5 Direct", 615.0, 360, 0.90, ["Monotonous", "High truck traffic"],
              ["Fastest route", "Straightforward navigation"]),
        Route("Highway 1 Pacific Coast", 750.0, 600, 0.75, ["Weather closures", "Winding roads", "Fog risk"],
              ["Breathtaking scenery", "Tourist attractions", "Beach access"]),
        Route("Highway 101 Moderate", 680.0, 450, 0.88, ["Small town traffic", "Variable speed limits"],
              ["Balanced route", "Wine country", "Good services"])]),
      (RoutePair("London", "Edinburgh"), [
        Route("M1/A1(M) Motorway", 665.0, 420, 0.82, ["Roadworks common", "Weather in North"],
              ["Most direct", "Good infrastructure"]),
        Route("A1 Scenic", 685.0, 480, 0.88, ["Smaller roads", "Village traffic"],
              ["Historic sites", "Traditional villages", "Varied scenery"])])
    ]
  }

  lemma RouteNetworkValid()
    ensures ValidNetwork(RouteNetwork())
  {
  }
}
