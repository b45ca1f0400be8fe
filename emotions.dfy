/** The emotion catalog: each place carries scores (0..100) for a handful of
    emotion labels. The server looks a place up (exactly, then by a loose
    substring match), ranks places by one emotion, and compares a list of
    places on a heat map. The catalog is read-only. */
module Emotions {
  import opened Common
  import opened Text
  import opened Numeric
  import opened Ranking

  /** One catalog record. `emotions` keeps the dictionary's insertion order. */
  datatype Place = Place(lat: real, lon: real, emotions: seq<(string, int)>, descriptions: seq<string>)

  type Catalog = seq<(string, Place)>

  /** Scores lie in 0..100 and every place has at least one score (the mean
      and the extremes are taken over them). */
  predicate ValidCatalog(db: Catalog)
  {
    forall i :: 0 <= i < |db| ==> ValidScores(db[i].1.emotions)
  }

  predicate ValidScores(emotions: seq<(string, int)>)
  {
    |emotions| > 0 && forall j :: 0 <= j < |emotions| ==> 0 <= emotions[j].1 <= 100
  }

  /** The scores as numbers, in order. */
  function Scores(emotions: seq<(string, int)>): (s: seq<real>)
    ensures |s| == |emotions| && forall j :: 0 <= j < |s| ==> s[j] == emotions[j].1 as real
  {
    seq(|emotions|, j requires 0 <= j < |emotions| => emotions[j].1 as real)
  }

  /** `emotions.get(emotionName, 0)` */
  function ScoreOf(emotions: seq<(string, int)>, emotionName: string): int
  {
    Get(emotions, emotionName, 0)
  }

  // ---------------------------------------------------------------------------
  // Looking a place up

  /** Loose match of `_find_similar_location`: either lower-cased name occurs
      in the other. */
  predicate Similar(key: string, query: string)
  {
    Contains(Lower(key), Lower(query)) || Contains(Lower(query), Lower(key))
  }

  /** `_find_similar_location`: the first key, in catalog order, similar to the query. */
  function SimilarIndex(db: Catalog, query: string, from: nat): (r: Option<nat>)
    requires from <= |db|
    ensures r.Some? ==> from <= r.value < |db| && Similar(db[r.value].0, query)
    ensures r.Some? ==> forall j :: from <= j < r.value ==> !Similar(db[j].0, query)
    ensures r.None? <==> forall j :: from <= j < |db| ==> !Similar(db[j].0, query)
    decreases |db| - from
  {
    if from == |db| then None
    else if Similar(db[from].0, query) then Some(from)
    else SimilarIndex(db, query, from + 1)
  }

  /** `emotional_database.get(name)`, falling back to the similar-name search;
      the fallback key is used only when it is truthy, so an empty similar key
      counts as not found. */
  function Resolve(db: Catalog, name: string): (r: Option<nat>)
    ensures r.Some? ==> r.value < |db|
    ensures KeyIndex(db, name).Some? ==> r == KeyIndex(db, name)
    ensures KeyIndex(db, name).None? ==>
      r == match SimilarIndex(db, name, 0)
           case Some(j) => if db[j].0 != "" then Some(j) else None
           case None => None
    ensures r.Some? ==> db[r.value].0 == name || (db[r.value].0 != "" && Similar(db[r.value].0, name))
    ensures r.None? <==>
      (forall j :: 0 <= j < |db| ==> db[j].0 != name) &&
      (forall j :: 0 <= j < |db| && Similar(db[j].0, name) ==> FirstSimilarIsEmpty(db, name))
  {
    match KeyIndex(db, name)
    case Some(i) => Some(i)
    case None =>
      match SimilarIndex(db, name, 0)
      case Some(j) => if db[j].0 != "" then Some(j) else None
      case None => None
  }

  /** The first key similar to `name` is the empty string. */
  predicate FirstSimilarIsEmpty(db: Catalog, name: string)
  {
    var j := SimilarIndex(db, name, 0);
    j.Some? && db[j.value].0 == ""
  }

  /** With no empty key in the catalog, a name resolves exactly when it is a
      key or similar to one. */
  lemma ResolveWithoutEmptyKeys(db: Catalog, name: string)
    requires forall i :: 0 <= i < |db| ==> db[i].0 != ""
    ensures Resolve(db, name).None? <==> forall j :: 0 <= j < |db| ==> db[j].0 != name && !Similar(db[j].0, name)
  {
  }

  /** An empty key that is the first similar one hides every later similar
      key: a query that is no key is then not found. */
  lemma EmptySimilarKeyIsNotFound(db: Catalog, name: string)
    requires KeyIndex(db, name).None? && FirstSimilarIsEmpty(db, name)
    ensures Resolve(db, name).None?
  {
  }

  /** The empty query is contained in every name, so it resolves to the first
      place of a non-empty catalog. */
  lemma EmptyQueryResolvesToFirst(db: Catalog)
    requires |db| > 0 && forall i :: 0 <= i < |db| ==> db[i].0 != ""
    ensures Resolve(db, "") == Some(0)
  {
    ContainsTrivial(Lower(db[0].0));
    assert Lower("") == "";
    assert Similar(db[0].0, "");
  }

  /** In a catalog without empty keys, a query that spells a key differently
      in case never fails: unless it is itself some key, it finds that key or
      an earlier similar one. */
  lemma CaseVariantResolves(db: Catalog, i: nat, query: string)
    requires i < |db| && Lower(query) == Lower(db[i].0)
    requires forall j :: 0 <= j < |db| ==> db[j].0 != ""
    ensures Resolve(db, query).Some?
    ensures KeyIndex(db, query).None? ==> Resolve(db, query).value <= i
  {
    ContainsTrivial(Lower(query));
    assert Similar(db[i].0, query);
  }

  // ---------------------------------------------------------------------------
  // The profile of one place

  /** A line of `_generate_emotional_insights`. */
  datatype Insight =
    | KnownFor(emotion: string, score: int)
    | HighEnergy
    | Balanced
    | Tranquil
  {
    function Text(): string
    {
      match this
      case KnownFor(e, v) =>
        "This location is particularly known for evoking " + e + " (score: " + IntToString(v) + ")"
      case HighEnergy =>
        "This is a high-energy location that can be stimulating but sometimes overwhelming"
      case Balanced =>
        "Visitors report a balanced emotional experience across different dimensions"
      case Tranquil =>
        "Ideal destination for those seeking tranquility and relaxation"
    }
  }

  predicate IsPositiveLabel(emotionName: string)
  {
    emotionName == "joy" || emotionName == "excitement" || emotionName == "inspiration" || emotionName == "peace"
  }

  /** The dictionary comprehension of strong positive emotions, in order. */
  function StrongPositives(emotions: seq<(string, int)>): (p: seq<(string, int)>)
    ensures forall j :: 0 <= j < |p| ==> p[j] in emotions && IsPositiveLabel(p[j].0) && p[j].1 >= 70
    ensures forall x :: x in emotions && IsPositiveLabel(x.0) && x.1 >= 70 ==> x in p
  {
    if emotions == [] then []
    else
      var rest := StrongPositives(emotions[1..]);
      var x := emotions[0];
      assert forall y :: y in emotions ==> y == x || y in emotions[1..];
      if IsPositiveLabel(x.0) && x.1 >= 70 then [x] + rest else rest
  }

  /** The spread of the scores. */
  function ScoreRange(emotions: seq<(string, int)>): (d: real)
    requires |emotions| > 0
    ensures d >= 0.0
  {
    Max(Scores(emotions)) - Min(Scores(emotions))
  }

  /** What `_generate_emotional_insights` returns: each insight whose
      condition holds, in the order the conditions are checked. */
  function Insights(emotions: seq<(string, int)>): seq<Insight>
    requires |emotions| > 0
  {
    KnownForPart(emotions) + HighEnergyPart(emotions) + BalancedPart(emotions) + TranquilPart(emotions)
  }

  /** The strongest positive emotion of at least 70, the first such in order. */
  function KnownForPart(emotions: seq<(string, int)>): seq<Insight>
  {
    var p := StrongPositives(emotions);
    if p == [] then [] else var k := FirstMax(Scores(p)); [KnownFor(p[k].0, p[k].1)]
  }

  function HighEnergyPart(emotions: seq<(string, int)>): seq<Insight>
  {
    if ScoreOf(emotions, "stress") >= 60 then [HighEnergy] else []
  }

  function BalancedPart(emotions: seq<(string, int)>): seq<Insight>
    requires |emotions| > 0
  {
    if ScoreRange(emotions) < 30.0 then [Balanced] else []
  }

  function TranquilPart(emotions: seq<(string, int)>): seq<Insight>
  {
    if ScoreOf(emotions, "peace") >= 80 then [Tranquil] else []
  }

  /** The "known for" insight exists exactly when some positive emotion
      scores at least 70, and it names one that no other such emotion
      outscores. */
  lemma KnownForPartSpec(emotions: seq<(string, int)>)
    ensures KnownForPart(emotions) != [] <==>
      exists j :: 0 <= j < |emotions| && IsPositiveLabel(emotions[j].0) && emotions[j].1 >= 70
    ensures forall x :: x in KnownForPart(emotions) ==>
      x.KnownFor? && (x.emotion, x.score) in emotions && IsPositiveLabel(x.emotion) && x.score >= 70 &&
      forall j :: 0 <= j < |emotions| && IsPositiveLabel(emotions[j].0) && emotions[j].1 >= 70 ==>
        emotions[j].1 <= x.score
    ensures forall x :: x in KnownForPart(emotions) ==>
      exists d :: 0 <= d < |emotions| && emotions[d] == (x.emotion, x.score) &&
        forall j :: 0 <= j < d && IsPositiveLabel(emotions[j].0) && emotions[j].1 >= 70 ==>
          emotions[j].1 < x.score
  {
    KnownForPartExists(emotions);
    var p := StrongPositives(emotions);
    if p != [] {
      var k := FirstMax(Scores(p));
      assert KnownForPart(emotions) == [KnownFor(p[k].0, p[k].1)];
      assert p[k] in p;
      KnownForIsFirst(emotions, k);
      KnownForIsStrongest(emotions, k);
    }
  }

  /** No strong positive emotion outscores the first strongest one. */
  lemma KnownForIsStrongest(emotions: seq<(string, int)>, k: nat)
    requires var p := StrongPositives(emotions); p != [] && k == FirstMax(Scores(p))
    ensures var p := StrongPositives(emotions);
      forall j :: 0 <= j < |emotions| && IsPositiveLabel(emotions[j].0) && emotions[j].1 >= 70 ==>
        emotions[j].1 <= p[k].1
  {
    var p := StrongPositives(emotions);
    StrongPositivesIsFilter(emotions);
    forall j | 0 <= j < |emotions| && IsPositiveLabel(emotions[j].0) && emotions[j].1 >= 70
      ensures emotions[j].1 <= p[k].1 {
      FilterComplete(emotions, IsStrongPositive, j);
      var m :| 0 <= m < |p| && p[m] == emotions[j];
      assert Scores(p)[m] <= Scores(p)[k];
    }
  }

  /** The strong positive emotion at position `k` of the filtered list comes
      from some position `d` of the emotions, and every strong positive one
      before `d` is strictly weaker when `k` is the first strongest. */
  lemma KnownForIsFirst(emotions: seq<(string, int)>, k: nat)
    requires var p := StrongPositives(emotions); p != [] && k == FirstMax(Scores(p))
    ensures var p := StrongPositives(emotions);
      exists d :: 0 <= d < |emotions| && emotions[d] == p[k] &&
        forall j :: 0 <= j < d && IsPositiveLabel(emotions[j].0) && emotions[j].1 >= 70 ==>
          emotions[j].1 < p[k].1
  {
    var p := StrongPositives(emotions);
    StrongPositivesIsFilter(emotions);
    FilterIndex(emotions, IsStrongPositive, k);
    var d :| 0 <= d < |emotions| && emotions[d] == p[k] && Filter(emotions[..d], IsStrongPositive) == p[..k];
    forall j | 0 <= j < d && IsPositiveLabel(emotions[j].0) && emotions[j].1 >= 70
      ensures emotions[j].1 < p[k].1
    {
      EarlierStrongIsWeaker(emotions, p, k, d, j);
    }
  }

  /** A strong positive emotion before position `d` is one of the first `k`
      filtered ones, so it scores below the first strongest. */
  lemma EarlierStrongIsWeaker(emotions: seq<(string, int)>, p: seq<(string, int)>, k: nat, d: nat, j: nat)
    requires p != [] && k == FirstMax(Scores(p))
    requires d <= |emotions| && Filter(emotions[..d], IsStrongPositive) == p[..k]
    requires j < d && IsStrongPositive(emotions[j])
    ensures emotions[j].1 < p[k].1
  {
    assert emotions[..d][j] == emotions[j];
    FilterComplete(emotions[..d], IsStrongPositive, j);
    var m :| 0 <= m < k && p[..k][m] == emotions[j];
    assert p[m] == emotions[j];
    assert Scores(p)[m] < Scores(p)[k];
    assert (p[m].1 as real) < (p[k].1 as real);
  }

  predicate IsStrongPositive(x: (string, int))
  {
    IsPositiveLabel(x.0) && x.1 >= 70
  }

  /** The comprehension is the filter of the strong positive emotions. */
  lemma {:induction false} StrongPositivesIsFilter(emotions: seq<(string, int)>)
    ensures StrongPositives(emotions) == Filter(emotions, IsStrongPositive)
  {
    if emotions != [] {
      StrongPositivesIsFilter(emotions[1..]);
    }
  }


  /** Each insight appears exactly when its check holds, and the "known for"
      insight is as `KnownForPartSpec` describes. */
  lemma InsightsSpec(emotions: seq<(string, int)>)
    requires |emotions| > 0
    ensures (exists x :: x in Insights(emotions) && x.KnownFor?) <==>
      exists j :: 0 <= j < |emotions| && IsPositiveLabel(emotions[j].0) && emotions[j].1 >= 70
    ensures forall x :: x in Insights(emotions) && x.KnownFor? ==> x in KnownForPart(emotions)
    ensures HighEnergy in Insights(emotions) <==> ScoreOf(emotions, "stress") >= 60
    ensures Balanced in Insights(emotions) <==> ScoreRange(emotions) < 30.0
    ensures Tranquil in Insights(emotions) <==> ScoreOf(emotions, "peace") >= 80
  {
    InsightsKnownFor(emotions);
    InsightsFlags(emotions);
  }

  lemma InsightsMembership(emotions: seq<(string, int)>)
    requires |emotions| > 0
    ensures forall x :: x in Insights(emotions) <==>
      x in KnownForPart(emotions) || x in HighEnergyPart(emotions) ||
      x in BalancedPart(emotions) || x in TranquilPart(emotions)
  {
  }

  /** Only the first part of the insights holds a "known for" line. */
  lemma InsightsKnownFor(emotions: seq<(string, int)>)
    requires |emotions| > 0
    ensures (exists x :: x in Insights(emotions) && x.KnownFor?) <==>
      exists j :: 0 <= j < |emotions| && IsPositiveLabel(emotions[j].0) && emotions[j].1 >= 70
    ensures forall x :: x in Insights(emotions) && x.KnownFor? ==> x in KnownForPart(emotions)
  {
    KnownForPartExists(emotions);
    KnownForPartIsKnownFor(emotions);
    InsightsMembership(emotions);
    var a := KnownForPart(emotions);
    if a != [] {
      assert a[0] in Insights(emotions);
    }
  }

  /** The three flag insights, each present exactly when its check holds. */
  lemma InsightsFlags(emotions: seq<(string, int)>)
    requires |emotions| > 0
    ensures HighEnergy in Insights(emotions) <==> ScoreOf(emotions, "stress") >= 60
    ensures Balanced in Insights(emotions) <==> ScoreRange(emotions) < 30.0
    ensures Tranquil in Insights(emotions) <==> ScoreOf(emotions, "peace") >= 80
  {
    InsightsMembership(emotions);
    KnownForPartIsKnownFor(emotions);
    var k := KnownForPart(emotions);
    assert HighEnergy !in k && Balanced !in k && Tranquil !in k;
    assert HighEnergy in HighEnergyPart(emotions) <==> ScoreOf(emotions, "stress") >= 60;
    assert Balanced in BalancedPart(emotions) <==> ScoreRange(emotions) < 30.0;
    assert Tranquil in TranquilPart(emotions) <==> ScoreOf(emotions, "peace") >= 80;
  }

  /** There is a "known for" insight exactly when some positive emotion
      scores at least 70. */
  lemma KnownForPartExists(emotions: seq<(string, int)>)
    ensures KnownForPart(emotions) != [] <==>
      exists j :: 0 <= j < |emotions| && IsPositiveLabel(emotions[j].0) && emotions[j].1 >= 70
  {
    var p := StrongPositives(emotions);
    if p != [] {
      assert p[0] in p;
    }
  }

  /** The first part holds only "known for" insights. */
  lemma KnownForPartIsKnownFor(emotions: seq<(string, int)>)
    ensures forall x :: x in KnownForPart(emotions) ==> x.KnownFor?
  {
  }

  /** `_generate_emotional_insights`, appending one insight per satisfied check. */
  method GenerateInsights(emotions: seq<(string, int)>) returns (insights: seq<Insight>)
    requires |emotions| > 0
    ensures insights == Insights(emotions)
  {
    insights := [];
    var positives := StrongPositives(emotions);
    if positives != [] {
      var top := FirstMax(Scores(positives));
      insights := insights + [KnownFor(positives[top].0, positives[top].1)];
    }
    assert insights == KnownForPart(emotions);
    ghost var known := insights;
    var stressed := ScoreOf(emotions, "stress") >= 60;
    assert HighEnergyPart(emotions) == if stressed then [HighEnergy] else [];
    if stressed {
      insights := insights + [HighEnergy];
    }
    ghost var energy := insights;
    var balanced := ScoreRange(emotions) < 30.0;
    assert BalancedPart(emotions) == if balanced then [Balanced] else [];
    if balanced {
      insights := insights + [Balanced];
    }
    ghost var before := insights;
    var peaceful := ScoreOf(emotions, "peace") >= 80;
    assert TranquilPart(emotions) == if peaceful then [Tranquil] else [];
    if peaceful {
      insights := insights + [Tranquil];
    }
    assert energy == known + HighEnergyPart(emotions);
    assert before == energy + BalancedPart(emotions);
    assert insights == before + TranquilPart(emotions);
  }

  datatype Profile = Profile(
    name: string, latitude: real, longitude: real,
    dominantEmotion: string, dominantScore: int, allEmotions: seq<(string, int)>,
    overallIntensity: real, insights: seq<Insight>, sampleSentiments: seq<string>)

  datatype EmotionsResult =
    | Found(profile: Profile)
    | NotFound(error: string, availableLocations: seq<string>)

  /** The first highest score, read back in integers. */
  lemma DominantIsFirstMax(es: seq<(string, int)>)
    requires |es| > 0
    ensures var d := FirstMax(Scores(es));
      d < |es| && (forall j :: 0 <= j < d ==> es[j].1 < es[d].1) &&
      (forall j :: 0 <= j < |es| ==> es[j].1 <= es[d].1)
  {
    var d := FirstMax(Scores(es));
    var s := Scores(es);
    forall j | 0 <= j < |es| ensures es[j].1 <= es[d].1 {
      assert s[j] <= s[d];
    }
    forall j | 0 <= j < d ensures es[j].1 < es[d].1 {
      assert s[j] < s[d];
    }
  }

  /** `get_location_emotions` */
  function GetLocationEmotions(db: Catalog, locationName: string): (r: EmotionsResult)
    requires ValidCatalog(db)
    ensures r.NotFound? <==> Resolve(db, locationName).None?
    ensures r.NotFound? ==>
      r.error == "Location '" + locationName + "' not found in emotional database" &&
      r.availableLocations == Keys(db)
    ensures r.Found? ==>
      var k := Resolve(db, locationName).value;
      var p := r.profile;
      var es := db[k].1.emotions;
      p.name == db[k].0 && p.latitude == db[k].1.lat && p.longitude == db[k].1.lon &&
      p.allEmotions == es && p.sampleSentiments == db[k].1.descriptions &&
      (exists d :: 0 <= d < |es| && es[d] == (p.dominantEmotion, p.dominantScore) &&
         (forall j :: 0 <= j < d ==> es[j].1 < p.dominantScore)) &&
      (forall j :: 0 <= j < |es| ==> es[j].1 <= p.dominantScore) &&
      p.overallIntensity == Mean(Scores(es)) &&
      Min(Scores(es)) <= p.overallIntensity <= Max(Scores(es)) &&
      p.insights == Insights(es)
  {
    match Resolve(db, locationName)
    case None =>
      NotFound("Location '" + locationName + "' not found in emotional database", Keys(db))
    case Some(k) =>
      var place := db[k].1;
      var es := place.emotions;
      var d := FirstMax(Scores(es));
      DominantIsFirstMax(es);
      MeanBetweenMinAndMax(Scores(es));
      Found(Profile(db[k].0, place.lat, place.lon, es[d].0, es[d].1, es,
                    Mean(Scores(es)), Insights(es), place.descriptions))
  }

  // ---------------------------------------------------------------------------
  // Places ranked by one emotion

  const ValidEmotions: seq<string> :=
    ["joy", "sadness", "excitement", "fear", "peace", "nostalgia", "inspiration", "stress"]

  /** One entry of `matching_locations`. */
  datatype Match = Match(location: string, latitude: real, longitude: real, emotionScore: int,
                         sampleDescription: string)

  function MatchOf(entry: (string, Place), emotion: string): Match
  {
    var p := entry.1;
    Match(entry.0, p.lat, p.lon, ScoreOf(p.emotions, emotion),
          if p.descriptions != [] then p.descriptions[0] else "")
  }

  predicate Qualifies(entry: (string, Place), emotion: string, minIntensity: int)
  {
    ScoreOf(entry.1.emotions, emotion) >= minIntensity
  }

  /** The places that qualify, in catalog order. */
  function CatalogMatches(db: Catalog, emotion: string, minIntensity: int): (ms: seq<Match>)
    ensures |ms| <= |db|
    ensures forall m :: m in ms <==>
      exists i :: 0 <= i < |db| && Qualifies(db[i], emotion, minIntensity) && m == MatchOf(db[i], emotion)
  {
    if db == [] then []
    else
      var rest := CatalogMatches(db[..|db| - 1], emotion, minIntensity);
      var last := db[|db| - 1];
      assert forall i :: 0 <= i < |db| - 1 ==> db[..|db| - 1][i] == db[i];
      if Qualifies(last, emotion, minIntensity) then rest + [MatchOf(last, emotion)] else rest
  }

  /** The matches keep catalog order: the matches of a concatenation are the
      matches of each part. With the one-entry case this determines the list
      completely, one match per qualifying entry. */
  lemma {:induction false} CatalogMatchesAppend(a: Catalog, b: Catalog, emotion: string, minIntensity: int)
    ensures CatalogMatches(a + b, emotion, minIntensity) ==
            CatalogMatches(a, emotion, minIntensity) + CatalogMatches(b, emotion, minIntensity)
    decreases |b|
  {
    if b == [] {
      assert a + b == a;
    } else {
      var init := b[..|b| - 1];
      assert (a + b)[..|a + b| - 1] == a + init;
      assert (a + b)[|a + b| - 1] == b[|b| - 1];
      CatalogMatchesAppend(a, init, emotion, minIntensity);
      var e := b[|b| - 1];
      var last := if Qualifies(e, emotion, minIntensity) then [MatchOf(e, emotion)] else [];
      assert CatalogMatches(b, emotion, minIntensity) == CatalogMatches(init, emotion, minIntensity) + last;
      ConcatAssoc(CatalogMatches(a, emotion, minIntensity), CatalogMatches(init, emotion, minIntensity), last);
    }
  }

  /** One entry gives its match exactly when it qualifies. */
  lemma CatalogMatchesOne(entry: (string, Place), emotion: string, minIntensity: int)
    ensures CatalogMatches([entry], emotion, minIntensity) ==
            if Qualifies(entry, emotion, minIntensity) then [MatchOf(entry, emotion)] else []
  {
    assert [entry][..0] == [];
  }

  function EmotionScore(m: Match): real
  {
    m.emotionScore as real
  }

  /** `_generate_emotion_recommendation` */
  datatype Recommendation =
    | NoneFound(emotion: string)
    | Consider(emotion: string, location: string, score: int)
  {
    function Text(): string
    {
      match this
      case NoneFound(e) =>
        "No locations found with strong " + e + " ratings. Try lowering the minimum intensity."
      case Consider(e, l, v) =>
        "For the strongest " + e + " experience, consider visiting " + l +
        " (emotion score: " + IntToString(v) + ")"
    }
  }

  function Recommend(emotion: string, locations: seq<Match>): (r: Recommendation)
    ensures r.NoneFound? <==> locations == []
    ensures r.Consider? ==> r.location == locations[0].location && r.score == locations[0].emotionScore
    ensures r.emotion == emotion
  {
    if locations == [] then NoneFound(emotion)
    else Consider(emotion, locations[0].location, locations[0].emotionScore)
  }

  datatype PlacesResult =
    | Places(emotionQuery: string, minIntensity: int, totalMatches: nat, locations: seq<Match>,
             recommendation: Recommendation)
    | UnknownEmotion(error: string, validEmotions: seq<string>)

  /** `find_places_by_emotion`: collects the qualifying places in catalog
      order, then sorts them by score, highest first, keeping catalog order
      among equal scores. */
  method FindPlacesByEmotion(db: Catalog, emotion: string, minIntensity: int) returns (r: PlacesResult)
    ensures Lower(emotion) !in ValidEmotions ==>
      r == UnknownEmotion("Unknown emotion '" + Lower(emotion) + "'", ValidEmotions)
    ensures Lower(emotion) in ValidEmotions ==>
      r.Places? && r.emotionQuery == Lower(emotion) && r.minIntensity == minIntensity &&
      r.locations == SortDesc(CatalogMatches(db, Lower(emotion), minIntensity), EmotionScore) &&
      r.totalMatches == |r.locations| &&
      r.recommendation == Recommend(Lower(emotion), r.locations)
  {
    var e := Lower(emotion);
    if e !in ValidEmotions {
      return UnknownEmotion("Unknown emotion '" + e + "'", ValidEmotions);
    }
    var matching: seq<Match> := [];
    var i := 0;
    while i < |db|
      invariant 0 <= i <= |db|
      invariant matching == CatalogMatches(db[..i], e, minIntensity)
    {
      assert db[..i + 1][..i] == db[..i];
      var score := ScoreOf(db[i].1.emotions, e);
      if score >= minIntensity {
        matching := matching + [MatchOf(db[i], e)];
      }
      i := i + 1;
    }
    assert db[..|db|] == db;
    matching := SortDesc(matching, EmotionScore);
    r := Places(e, minIntensity, |matching|, matching, Recommend(e, matching));
  }

  /** The ranked list holds exactly the qualifying places, highest score
      first, and equal scores keep catalog order. */
  lemma RankedPlacesSpec(db: Catalog, emotion: string, minIntensity: int, v: real)
    ensures var ranked := SortDesc(CatalogMatches(db, emotion, minIntensity), EmotionScore);
      (forall m :: m in ranked <==>
         exists i :: 0 <= i < |db| && Qualifies(db[i], emotion, minIntensity) && m == MatchOf(db[i], emotion)) &&
      Descending(ranked, EmotionScore) &&
      WithScore(ranked, EmotionScore, v) == WithScore(CatalogMatches(db, emotion, minIntensity), EmotionScore, v)
  {
    var ms := CatalogMatches(db, emotion, minIntensity);
    var ranked := SortDesc(ms, EmotionScore);
    SortDescStable(ms, EmotionScore, v);
    forall m ensures m in ranked <==> m in ms {
      assert m in ranked <==> m in multiset(ranked);
    }
  }

  /** The recommended place scores at least as high as every match. */
  lemma RecommendationIsBest(db: Catalog, emotion: string, minIntensity: int)
    ensures var ranked := SortDesc(CatalogMatches(db, emotion, minIntensity), EmotionScore);
      var rec := Recommend(emotion, ranked);
      rec.Consider? ==> forall m :: m in ranked ==> m.emotionScore <= rec.score
  {
    var ms := CatalogMatches(db, emotion, minIntensity);
    var ranked := SortDesc(ms, EmotionScore);
    if ranked != [] {
      forall m | m in ranked ensures m.emotionScore <= ranked[0].emotionScore {
        var k :| 0 <= k < |ranked| && ranked[k] == m;
        assert EmotionScore(ranked[0]) >= EmotionScore(ranked[k]);
      }
    }
  }

  /** Raising the threshold never adds a place. */
  lemma {:induction false} ThresholdMonotone(db: Catalog, emotion: string, lo: int, hi: int)
    requires lo <= hi
    ensures multiset(CatalogMatches(db, emotion, hi)) <= multiset(CatalogMatches(db, emotion, lo))
  {
    if db != [] {
      ThresholdMonotone(db[..|db| - 1], emotion, lo, hi);
    }
  }

  /** With a threshold of at most 0 every place of a valid catalog qualifies,
      in catalog order. */
  lemma {:induction false} NonPositiveThresholdMatchesAll(db: Catalog, emotion: string, minIntensity: int)
    requires ValidCatalog(db) && minIntensity <= 0
    ensures |CatalogMatches(db, emotion, minIntensity)| == |db|
    ensures forall i :: 0 <= i < |db| ==> CatalogMatches(db, emotion, minIntensity)[i] == MatchOf(db[i], emotion)
  {
    if db != [] {
      var init := db[..|db| - 1];
      assert ValidCatalog(init) by {
        forall i | 0 <= i < |init| ensures ValidScores(init[i].1.emotions) {
          assert init[i] == db[i];
        }
      }
      NonPositiveThresholdMatchesAll(init, emotion, minIntensity);
      var es := db[|db| - 1].1.emotions;
      match KeyIndex(es, emotion)
      case None =>
      case Some(j) => assert es[j].1 >= 0;
    }
  }

  // ---------------------------------------------------------------------------
  // Heat map

  /** A filter counts only when it is given and non-empty. */
  predicate Active(filter: Option<string>)
  {
    filter.Some? && filter.value != ""
  }

  /** The `emotions` field of a heat-map point. */
  datatype PointEmotions =
    | AllEmotions(scores: seq<(string, int)>)
    | OneEmotion(emotionName: string, intensity: real)

  datatype HeatPoint = HeatPoint(location: string, latitude: real, longitude: real,
                                 intensity: real, emotions: PointEmotions)

  /** The point for one place: the filtered emotion's score (0 when the place
      has none), or the mean of all its scores. */
  function PointOf(name: string, p: Place, filter: Option<string>): (pt: HeatPoint)
    requires ValidScores(p.emotions)
    ensures Active(filter) ==>
      pt.intensity == ScoreOf(p.emotions, Lower(filter.value)) as real &&
      pt.emotions == OneEmotion(filter.value, pt.intensity)
    ensures !Active(filter) ==>
      Min(Scores(p.emotions)) <= pt.intensity <= Max(Scores(p.emotions)) &&
      pt.intensity == Mean(Scores(p.emotions)) &&
      pt.emotions == AllEmotions(p.emotions)
    ensures pt.location == name && pt.latitude == p.lat && pt.longitude == p.lon
  {
    if Active(filter) then
      var v := ScoreOf(p.emotions, Lower(filter.value)) as real;
      HeatPoint(name, p.lat, p.lon, v, OneEmotion(filter.value, v))
    else
      MeanBetweenMinAndMax(Scores(p.emotions));
      HeatPoint(name, p.lat, p.lon, Mean(Scores(p.emotions)), AllEmotions(p.emotions))
  }

  /** The input names that are exact catalog keys, in input order. */
  function KnownNames(db: Catalog, names: seq<string>): (ks: seq<string>)
    ensures |ks| <= |names|
    ensures forall n :: n in ks <==> n in names && KeyIndex(db, n).Some?
    ensures forall n :: multiset(ks)[n] == if KeyIndex(db, n).Some? then multiset(names)[n] else 0
  {
    if names == [] then []
    else
      var init := names[..|names| - 1];
      var n := names[|names| - 1];
      assert names == init + [n];
      assert multiset(names) == multiset(init) + multiset{n};
      if KeyIndex(db, n).Some? then KnownNames(db, init) + [n] else KnownNames(db, init)
  }

  /** The known names keep request order: the names of a concatenation are
      the names of each part. With the one-name case this determines the
      list completely. */
  lemma {:induction false} KnownNamesAppend(db: Catalog, a: seq<string>, b: seq<string>)
    ensures KnownNames(db, a + b) == KnownNames(db, a) + KnownNames(db, b)
    decreases |b|
  {
    if b == [] {
      assert a + b == a;
    } else {
      var init := b[..|b| - 1];
      assert (a + b)[..|a + b| - 1] == a + init;
      assert (a + b)[|a + b| - 1] == b[|b| - 1];
      KnownNamesAppend(db, a, init);
      var last := if KeyIndex(db, b[|b| - 1]).Some? then [b[|b| - 1]] else [];
      assert KnownNames(db, b) == KnownNames(db, init) + last;
      ConcatAssoc(KnownNames(db, a), KnownNames(db, init), last);
    }
  }

  /** One name is kept exactly when it is a catalog key. */
  lemma KnownNamesOne(db: Catalog, n: string)
    ensures KnownNames(db, [n]) == if KeyIndex(db, n).Some? then [n] else []
  {
    assert [n][..0] == [];
  }

  /** The point for one name, when it is an exact key. */
  function PointFor(db: Catalog, name: string, filter: Option<string>): Option<HeatPoint>
    requires ValidCatalog(db)
  {
    match KeyIndex(db, name)
    case None => None
    case Some(k) => Some(PointOf(db[k].0, db[k].1, filter))
  }

  /** The heat-map points: one per input name that is an exact key, in input
      order, each labelled with that name. */
  function HeatPoints(db: Catalog, names: seq<string>, filter: Option<string>): (pts: seq<HeatPoint>)
    requires ValidCatalog(db)
    ensures |pts| == |KnownNames(db, names)|
    ensures forall i :: 0 <= i < |pts| ==>
      pts[i].location == KnownNames(db, names)[i] && PointFor(db, pts[i].location, filter) == Some(pts[i])
  {
    if names == [] then []
    else
      var rest := HeatPoints(db, names[..|names| - 1], filter);
      match KeyIndex(db, names[|names| - 1])
      case None => rest
      case Some(k) => rest + [PointOf(db[k].0, db[k].1, filter)]
  }

  /** One more name adds its point, when it is an exact key. */
  lemma HeatPointsSnoc(db: Catalog, names: seq<string>, n: string, filter: Option<string>)
    requires ValidCatalog(db)
    ensures HeatPoints(db, names + [n], filter) ==
      HeatPoints(db, names, filter) +
      (match KeyIndex(db, n) case None => [] case Some(k) => [PointOf(db[k].0, db[k].1, filter)])
  {
    SnocTake(names, n);
  }

  datatype Stats = Stats(max: real, min: real, average: real, range: real)

  function Intensities(pts: seq<HeatPoint>): (xs: seq<real>)
    ensures |xs| == |pts| && forall i :: 0 <= i < |pts| ==> xs[i] == pts[i].intensity
  {
    seq(|pts|, i requires 0 <= i < |pts| => pts[i].intensity)
  }

  /** The statistics block: extremes, mean and spread of the intensities, or
      nothing when there are no points. */
  function StatsOf(pts: seq<HeatPoint>): (s: Option<Stats>)
    ensures s.None? <==> pts == []
    ensures s.Some? ==>
      (forall i :: 0 <= i < |pts| ==> s.value.min <= pts[i].intensity <= s.value.max) &&
      (exists i :: 0 <= i < |pts| && pts[i].intensity == s.value.max) &&
      (exists i :: 0 <= i < |pts| && pts[i].intensity == s.value.min) &&
      s.value.max == Max(Intensities(pts)) && s.value.min == Min(Intensities(pts)) &&
      s.value.average == Mean(Intensities(pts)) &&
      s.value.min <= s.value.average <= s.value.max &&
      s.value.range == s.value.max - s.value.min && s.value.range >= 0.0
  {
    if pts == [] then None
    else
      var xs := Intensities(pts);
      MeanBetweenMinAndMax(xs);
      Some(Stats(Max(xs), Min(xs), Mean(xs), Max(xs) - Min(xs)))
  }

  datatype Heatmap = Heatmap(emotionFilter: string, heatmapPoints: seq<HeatPoint>,
                             statistics: Option<Stats>)

  /** `get_emotional_heatmap` */
  method GetEmotionalHeatmap(db: Catalog, locations: seq<string>, emotionFilter: Option<string>)
    returns (r: Heatmap)
    requires ValidCatalog(db)
    ensures r.heatmapPoints == HeatPoints(db, locations, emotionFilter)
    ensures r.statistics == StatsOf(r.heatmapPoints)
    ensures r.emotionFilter == if Active(emotionFilter) then emotionFilter.value else "overall"
  {
    var heatmapData: seq<HeatPoint> := [];
    var i := 0;
    while i < |locations|
      invariant 0 <= i <= |locations|
      invariant heatmapData == HeatPoints(db, locations[..i], emotionFilter)
    {
      TakeSnoc(locations, i);
      HeatPointsSnoc(db, locations[..i], locations[i], emotionFilter);
      var found := KeyIndex(db, locations[i]);
      if found.Some? {
        var k := found.value;
        heatmapData := heatmapData + [PointOf(db[k].0, db[k].1, emotionFilter)];
      }
      i := i + 1;
    }
    assert locations[..|locations|] == locations;
    r := Heatmap(if Active(emotionFilter) then emotionFilter.value else "overall",
                 heatmapData, StatsOf(heatmapData));
  }

  // ---------------------------------------------------------------------------
  // The catalog the server is built with

  function EmotionalDatabase(): Catalog
  {
    [ ("Beirut", Beirut()),
      ("Gemmayzeh", Gemmayzeh()),
      ("AUB Campus", AubCampus()),
      ("Hamra", Hamra()),
      ("AUB Main Gate", AubMainGate()),
      ("Byblos", Byblos()),
      ("Paris, France", ParisFrance()),
      ("Tokyo, Japan", TokyoJapan()),
      ("Reykjavik, Iceland", ReykjavikIceland()),
      ("New York City, USA", NewYorkCityUsa()),
      ("Kyoto, Japan", KyotoJapan())
    ]
  }

  function Beirut(): (p: Place)
    ensures ValidScores(p.emotions)
  {
    Place(33.8886, 35.4955,
      [("nostalgia", 85), ("resilience", 90), ("joy", 70), ("hope", 75), ("melancholy", 60), ("inspiration", 80)],
      ["The city that rises from the ashes with unbreakable spirit",
       "Corniche sunsets bring bittersweet memories",
       "Every street corner tells a story of survival and beauty"])
  }

  function Gemmayzeh(): (p: Place)
    ensures ValidScores(p.emotions)
  {
    Place(33.8947, 35.5189,
      [("nostalgia", 90), ("joy", 75), ("creativity", 85), ("sadness", 65), ("hope", 70), ("community", 80)],
      ["Historic streets filled with art and resilience",
       "The heartbeat of Beirut's creative renaissance",
       "Where tradition meets contemporary Lebanese culture",
       "Rebuilding with beauty and determination"])
  }

  function AubCampus(): (p: Place)
    ensures ValidScores(p.emotions)
  {
    Place(33.8972, 35.4795,
      [("inspiration", 90), ("peace", 85), ("ambition", 80), ("joy", 75), ("nostalgia", 70), ("stress", 40)],
      ["Green sanctuary in the heart of Beirut",
       "Where generations of leaders found their calling",
       "The ancient trees whisper wisdom to students",
       "A bubble of academic excellence and natural beauty"])
  }

  function Hamra(): (p: Place)
    ensures ValidScores(p.emotions)
  {
    Place(33.8978, 35.4828,
      [("excitement", 85), ("nostalgia", 75), ("energy", 90), ("joy", 80), ("chaos", 70), ("inspiration", 65)],
      ["The intellectual and cultural heart of Beirut",
       "Bustling street life from dawn to midnight",
       "Where students, artists, and thinkers converge"])
  }

  function AubMainGate(): (p: Place)
    ensures ValidScores(p.emotions)
  {
    Place(33.8975, 35.4790,
      [("anticipation", 85), ("pride", 90), ("nostalgia", 80), ("inspiration", 75), ("belonging", 88), ("excitement", 70)],
      ["The threshold where journeys begin",
       "Generations have passed through these gates to knowledge",
       "Every return brings waves of memories",
       "The iconic gateway to academic excellence"])
  }

  function Byblos(): (p: Place)
    ensures ValidScores(p.emotions)
  {
    Place(34.1208, 35.6481,
      [("wonder", 90), ("peace", 85), ("nostalgia", 95), ("inspiration", 88), ("joy", 75), ("awe", 92)],
      ["Walking through 7,000 years of history",
       "Ancient harbor where civilizations were born",
       "The old souk whispers tales of Phoenician traders",
       "UNESCO heritage site with timeless Mediterranean charm"])
  }

  function ParisFrance(): (p: Place)
    ensures ValidScores(p.emotions)
  {
    Place(48.8566, 2.3522,
      [("joy", 75), ("inspiration", 85), ("nostalgia", 60), ("excitement", 70), ("peace", 45), ("stress", 40)],
      ["The city lights filled me with wonder",
       "Walking along the Seine brought such peace",
       "The art scene is incredibly inspiring"])
  }

  function TokyoJapan(): (p: Place)
    ensures ValidScores(p.emotions)
  {
    Place(35.6762, 139.6503,
      [("excitement", 90), ("inspiration", 80), ("stress", 55), ("joy", 70), ("peace", 50), ("nostalgia", 45)],
      ["The energy of Shibuya is electrifying",
       "Found unexpected tranquility in traditional gardens",
       "Technology and tradition create constant amazement"])
  }

  function ReykjavikIceland(): (p: Place)
    ensures ValidScores(p.emotions)
  {
    Place(64.1466, -21.9426,
      [("peace", 95), ("inspiration", 85), ("joy", 65), ("excitement", 60), ("nostalgia", 40), ("stress", 15)],
      ["The vast landscapes bring incredible calm",
       "Northern lights stirred something deep within",
       "Nature's raw beauty is overwhelming"])
  }

  function NewYorkCityUsa(): (p: Place)
    ensures ValidScores(p.emotions)
  {
    Place(40.7128, -74.0060,
      [("excitement", 95), ("stress", 75), ("inspiration", 80), ("joy", 70), ("peace", 25), ("nostalgia", 50)],
      ["The city that never sleeps keeps you energized",
       "Constant stimulus can be overwhelming",
       "Every corner holds creative possibility"])
  }

  function KyotoJapan(): (p: Place)
    ensures ValidScores(p.emotions)
  {
    Place(35.0116, 135.7681,
      [("peace", 90), ("nostalgia", 85), ("inspiration", 75), ("joy", 70), ("excitement", 45), ("stress", 20)],
      ["Ancient temples radiate serenity",
       "Feels like stepping back in time",
       "Traditional gardens promote deep reflection"])
  }
}
