# Map servers: a Dafny model

This project models the logic of four small "map servers". Each answers
tool calls with dictionaries.

- **Time-travel map** (`TimeTravel`, timetravel.dfy) holds a catalog of
  places. Each place has a list of dated names and coordinates. It
  geocodes a place for a given year, builds a filtered chronological
  timeline, and compares two eras.
- **Emotional geography** (`Emotions`, emotions.dfy) holds a catalog of
  places scored on eight emotions. It builds one place's profile, with its
  dominant emotion, mean intensity and insights. It ranks places by one
  emotion and builds a heat map with statistics.
- **Probabilistic route scorer** (`Navigation`, navigation.dfy) holds a
  network of place pairs, each with alternative routes. It ranks a pair's
  routes by a mode-specific suitability score. It analyses one route's
  risk, and re-ranks routes after live conditions lower their confidence.
- **Lebanese weather service** (`Weather`, weather.dfy) holds ten places.
  It normalises and validates keys and clamps the forecast length. It
  draws conditions from elevation pools, gates ski data by season,
  compares two places, and dispatches requests.

Shared modules:

- `Common` (common.dfy): an `Option` type, and lookup in an ordered list of
  `(key, value)` pairs. Python dictionaries keep insertion order, and every
  search here returns the first hit.
- `Text` (text.dfy): `lower()`, substring `in`, `strip()` and `split()`,
  for ASCII.
- `Numeric` (numeric.dfy): `int()` truncation, clamping, `abs`, and
  `max`/`min`/`sum`/mean over lists.
- `Ranking` (ranking.dfy): a stable descending insertion sort, which is
  `list.sort(key=..., reverse=True)`. The sort is proved to be sorted, a
  permutation, and stable.

The imperative part is the loops that build result lists: the match list,
the heat-map points, the mitigation list, the confidence adjustment, the
re-scored routes and the forecast days. Each is a method with loop
invariants, proved equal to a specification function. The properties are
proved about that function.

The rest is functions over the catalogs, which the servers never change.
The concrete catalogs are functions. The route network and the weather
catalog are each proved valid as a whole. The time-travel and emotion
catalogs are proved valid one entry at a time (see "Left out").

Floats are modelled as `real`, and `round(...)` is not applied. Every
random draw and every clock reading is a parameter. A random choice
`random.choice(pool)` becomes `pool[pick % |pool|]`, and
`random.randint(lo, hi)` becomes `lo + pick % (hi - lo + 1)`. Both are
proved to stay inside the pool or range and to reach every value in it.

## Model

| member | source | states |
|---|---|---|
| Common.KeyIndex | servers/emotional_geography_server.py:294 | the first position holding key `k`, or `None` exactly when no pair has that key |
| Common.Get | servers/emotional_geography_server.py:372 | `d.get(k, default)`: the value of the first pair with key `k`, else the default |
| Text.StripSpec | servers/weather_server.py:292 | `strip()` leaves an infix that neither starts nor ends with whitespace, and stripping again changes nothing |
| Text.StripOfPadded | servers/weather_server.py:292 | whitespace added around a word is exactly what `strip()` removes |
| Text.StripOfBlank | servers/weather_server.py:292 | a whitespace-only string strips to the empty string |
| Text.WordsSpec | servers/quantum_navigation_server.py:608 | every word of `split()` is non-empty and holds no whitespace |
| Text.BlankHasNoWords | servers/quantum_navigation_server.py:608 | a string of whitespace only splits into no words |
| Text.WordsOfWord | servers/quantum_navigation_server.py:608 | a non-empty string without whitespace splits into exactly itself |
| Text.WordsAroundSpace | servers/quantum_navigation_server.py:608 | `split()` across a whitespace character is the words before it followed by the words after it; with the two lemmas above this fixes every word, in order |
| Text.LowerIsLower | servers/timetravel_map_server.py:317 | `lower()` yields lower case and is idempotent |
| Numeric.Trunc | servers/quantum_navigation_server.py:539 | `int(x)` truncates toward zero, for both signs |
| Numeric.Clamp | servers/quantum_navigation_server.py:611 | `max(lo, min(x, hi))` lies in `[lo, hi]`: it is `x` inside the range and the nearer bound outside it |
| Numeric.MeanBetweenMinAndMax | servers/emotional_geography_server.py:314 | the mean of a non-empty list lies between its minimum and maximum |
| Numeric.FirstMax | servers/emotional_geography_server.py:311 | `max(items, key=...)`: the first index whose value is the largest |
| Numeric.FirstMin | servers/timetravel_map_server.py:183 | `min(items, key=...)`: the first index whose value is the smallest |
| Ranking.SortDesc | servers/quantum_navigation_server.py:347 | `sort(key, reverse=True)`: the result is descending by key and is a permutation of the input |
| Ranking.SortDescStable | servers/quantum_navigation_server.py:347 | the sort is stable: the items with any one key value keep their relative order |
| Ranking.SortDescOfSorted | servers/emotional_geography_server.py:385 | an input that is already descending is left unchanged |
| Ranking.SortDescIdempotent | servers/emotional_geography_server.py:385 | sorting twice equals sorting once |
| Ranking.HeadIsBest | servers/quantum_navigation_server.py:489 | the first element after sorting has the largest key of all |
| Ranking.HeadOfTwo | servers/quantum_navigation_server.py:347 | of two items, the one with the strictly higher key is first after sorting |
| TimeTravel.FindFrom | servers/timetravel_map_server.py:318-323 | the first place, from a position on, whose key or any historical name equals the query ignoring case |
| TimeTravel.FindLocationKey | servers/timetravel_map_server.py:315-324 | `_find_location_key`: `None` exactly when no key and no historical name matches the lower-cased query; otherwise the first matching key |
| TimeTravel.ResolutionIgnoresCase | servers/timetravel_map_server.py:317 | two queries with the same lower case resolve to the same key |
| TimeTravel.EmptyNameUnresolved | servers/timetravel_map_server.py:315-324 | when no key or name is empty, the empty query resolves to nothing |
| TimeTravel.HistoryOf | servers/timetravel_map_server.py:180 | the resolved place's history, which is non-empty in a valid catalog |
| TimeTravel.ClosestIndex | servers/timetravel_map_server.py:183 | the entry nearest in years to the query year, the first one on ties |
| TimeTravel.EarliestYear | servers/timetravel_map_server.py:253 | the smallest year of a history, attained by some entry |
| TimeTravel.LatestYear | servers/timetravel_map_server.py:254 | the largest year of a history, attained by some entry |
| TimeTravel.ExistedIffEarliest | servers/timetravel_map_server.py:186 | `any(year_i <= year)` holds exactly when the earliest documented year is at most `year` |
| TimeTravel.GeocodeHistorical | servers/timetravel_map_server.py:159-203 | fails with the not-found error and suggestion exactly when the name does not resolve; otherwise reports the nearest entry, "existed", "exact" exactly when the nearest year is the query year, and the year difference |
| TimeTravel.StoredYearIsExact | servers/timetravel_map_server.py:183-200 | asking for a year that is documented answers that year's entry as "exact" with difference 0 |
| TimeTravel.FilterWindow | servers/timetravel_map_server.py:230-236 | each kept entry is inside the window, and every entry occurs in the result exactly as often as in the history when it is inside the window, and never otherwise |
| TimeTravel.FilterWindowAppend | servers/timetravel_map_server.py:230-236 | filtering a concatenation filters each part and concatenates, so the kept entries stay in history order |
| TimeTravel.FilterWindowOne | servers/timetravel_map_server.py:230-236 | one entry is kept exactly when it lies inside the window |
| TimeTravel.TimelineOf | servers/timetravel_map_server.py:239-256 | the timeline is chronological; it holds each entry inside the window exactly as often as the history does and nothing else (all of the history when no bound is truthy); the count is its length; the span is its first and last year, or both absent when it is empty |
| TimeTravel.TimelineOfSorted | servers/timetravel_map_server.py:249-255 | sorting the filtered entries by year, and taking the first and last year as span, gives a timeline with all the properties above |
| TimeTravel.TimelineKeepsStoredOrder | servers/timetravel_map_server.py:249 | the sort is stable: entries of one year appear in the timeline in their stored order |
| TimeTravel.GetLocationTimeline | servers/timetravel_map_server.py:205-258 | fails with the not-found error exactly when the name does not resolve; otherwise names the resolved key and gives a timeline of its history with all the properties of `TimelineOf` |
| TimeTravel.SpanOfSorted | servers/timetravel_map_server.py:252-255 | the span's earliest and latest years are the first and last years of the sorted timeline |
| TimeTravel.InvertedWindowIsEmpty | servers/timetravel_map_server.py:230-236 | a start year after the end year leaves no events |
| TimeTravel.ZeroBoundIsAbsent | servers/timetravel_map_server.py:230-233 | a bound of 0 is falsy, so it filters exactly like no bound |
| TimeTravel.FilterZero | servers/timetravel_map_server.py:230-234 | filtering with a start year of 0 equals filtering with no start year |
| TimeTravel.UnboundedTimelineIsHistory | servers/timetravel_map_server.py:238-249 | with no bounds, a chronological history is its own timeline |
| TimeTravel.SummaryOf | servers/timetravel_map_server.py:326-334 | the summary reports a rename exactly when the two eras' names differ |
| TimeTravel.CompareEras | servers/timetravel_map_server.py:260-313 | fails with the fixed error exactly when the name does not resolve; otherwise gives both eras, whether name and coordinates changed, the absolute years between, and the summary |
| TimeTravel.CompareErasSymmetric | servers/timetravel_map_server.py:286-310 | swapping the years swaps the eras and keeps the change flags and the years between; comparing a year with itself shows no change |
| TimeTravel.BeirutHistory | servers/timetravel_map_server.py:43-56 | the catalog history is non-empty, has no empty names and is listed in year order |
| TimeTravel.GemmayzehHistory | servers/timetravel_map_server.py:57-66 | the catalog history is non-empty, has no empty names and is listed in year order |
| TimeTravel.AubCampusHistory | servers/timetravel_map_server.py:67-76 | the catalog history is non-empty, has no empty names and is listed in year order |
| TimeTravel.AubMainGateHistory | servers/timetravel_map_server.py:77-84 | the catalog history is non-empty, has no empty names and is listed in year order |
| TimeTravel.ByblosHistory | servers/timetravel_map_server.py:85-96 | the catalog history is non-empty, has no empty names and is listed in year order |
| TimeTravel.ConstantinopleHistory | servers/timetravel_map_server.py:97-104 | the catalog history is non-empty, has no empty names and is listed in year order |
| TimeTravel.BerlinHistory | servers/timetravel_map_server.py:105-112 | the catalog history is non-empty, has no empty names and is listed in year order |
| TimeTravel.NewYorkHistory | servers/timetravel_map_server.py:113-120 | the catalog history is non-empty, has no empty names and is listed in year order |
| Emotions.SimilarIndex | servers/emotional_geography_server.py:452-458 | `_find_similar_location`: the first key that contains the lower-cased query or is contained in it, ignoring case |
| Emotions.Resolve | servers/emotional_geography_server.py:294-302 | an exact key wins; otherwise the first similar key, but only when it is non-empty (an empty key is falsy); a key is found exactly when the name is a key or the first similar key is non-empty |
| Emotions.ResolveWithoutEmptyKeys | servers/emotional_geography_server.py:294-302 | in a catalog without empty keys, a name is not found exactly when it is no key and similar to none |
| Emotions.EmptySimilarKeyIsNotFound | servers/emotional_geography_server.py:297-302 | a name that is no key, and whose first similar key is empty, is not found |
| Emotions.EmptyQueryResolvesToFirst | servers/emotional_geography_server.py:298 | with no empty key, the empty query is contained in every key and resolves to the first place |
| Emotions.CaseVariantResolves | servers/emotional_geography_server.py:294-302 | in a catalog without empty keys, a differently-cased key name always resolves, to that key or an earlier one unless an exact key exists |
| Emotions.StrongPositives | servers/emotional_geography_server.py:464-465 | exactly the joy, excitement, inspiration and peace scores of at least 70 |
| Emotions.ScoreRange | servers/emotional_geography_server.py:474 | the spread between the largest and smallest score is non-negative |
| Emotions.KnownForPartSpec | servers/emotional_geography_server.py:466-468 | a "known for" insight appears exactly when a strong positive emotion exists; it names a strong positive emotion and score that is at least every strong positive score and strictly above every one listed before it, so it is the first strongest |
| Emotions.KnownForIsStrongest | servers/emotional_geography_server.py:465-467 | the first highest strong positive has a score at least every strong positive emotion's |
| Emotions.KnownForIsFirst | servers/emotional_geography_server.py:465-467 | the first highest strong positive is listed after only strong positives of lower score |
| Emotions.StrongPositivesIsFilter | servers/emotional_geography_server.py:464-465 | the strong positives are the emotions, in order, whose label is joy, excitement, inspiration or peace and whose score is at least 70 |
| Emotions.InsightsSpec | servers/emotional_geography_server.py:460-484 | each of the four insights appears exactly when its threshold holds: strong positive, stress at least 60, spread under 30, peace at least 80 |
| Emotions.GenerateInsights | servers/emotional_geography_server.py:460-484 | the appended insights are exactly the specification's list, in order |
| Emotions.GetLocationEmotions | servers/emotional_geography_server.py:283-343 | not found (with the error and all keys) exactly when the name does not resolve; otherwise the resolved place's profile, with the first highest emotion as dominant, the mean intensity between the extremes, and its insights |
| Emotions.CatalogMatches | servers/emotional_geography_server.py:369-382 | a match is in the list exactly when some place with that score for the emotion reaches the threshold |
| Emotions.CatalogMatchesAppend | servers/emotional_geography_server.py:369-382 | matching a concatenated catalog matches each part and concatenates, so the matches keep catalog order, once per qualifying place |
| Emotions.CatalogMatchesOne | servers/emotional_geography_server.py:371-382 | one place gives its match exactly when it reaches the threshold, and nothing otherwise |
| Emotions.Recommend | servers/emotional_geography_server.py:486-493 | no recommendation exactly when nothing matched; otherwise the first ranked place and its score |
| Emotions.FindPlacesByEmotion | servers/emotional_geography_server.py:345-396 | an unknown emotion after lower-casing gives the error and the eight valid emotions; otherwise the matches sorted by score, their count, and the recommendation |
| Emotions.RankedPlacesSpec | servers/emotional_geography_server.py:369-385 | the ranked list holds exactly the qualifying places, descending by score, and equal scores keep catalog order |
| Emotions.RecommendationIsBest | servers/emotional_geography_server.py:385-393 | the recommended place scores at least as high as every match |
| Emotions.ThresholdMonotone | servers/emotional_geography_server.py:373 | raising the minimum intensity never adds a match |
| Emotions.NonPositiveThresholdMatchesAll | servers/emotional_geography_server.py:369-373 | a threshold of 0 or less matches every place, in catalog order |
| Emotions.PointOf | servers/emotional_geography_server.py:416-428 | with a filter, the intensity is that emotion's score and only that emotion is listed; without one, the intensity is the mean of all scores, between the place's extremes, and all emotions are listed; the point carries the name and coordinates |
| Emotions.KnownNames | servers/emotional_geography_server.py:412-415 | a requested name occurs in the result exactly as often as it was requested when it is an exact key, and never otherwise |
| Emotions.KnownNamesAppend | servers/emotional_geography_server.py:412-415 | the names of a concatenated request are the names of each part, concatenated, so request order is kept |
| Emotions.KnownNamesOne | servers/emotional_geography_server.py:412-415 | one requested name is kept exactly when it is an exact key |
| Emotions.HeatPoints | servers/emotional_geography_server.py:412-428 | the `i`-th point belongs to the `i`-th known requested name, with that place's point for the filter, and there are exactly as many points as known names |
| Emotions.HeatPointsSnoc | servers/emotional_geography_server.py:412-428 | one more requested name adds its place's point at the end when it is an exact key, and nothing otherwise |
| Emotions.StatsOf | servers/emotional_geography_server.py:431-440 | no statistics exactly when there are no points; otherwise the maximum and minimum of the intensities, both attained, their mean as the average (between the two), and the range as maximum minus minimum |
| Emotions.GetEmotionalHeatmap | servers/emotional_geography_server.py:398-450 | the loop builds exactly the specified points, the statistics of those points, and the filter name or "overall" |
| Emotions.Beirut | servers/emotional_geography_server.py:57-73 | every score of the catalog entry lies in 0..100 |
| Emotions.Gemmayzeh | servers/emotional_geography_server.py:74-91 | every score of the catalog entry lies in 0..100 |
| Emotions.AubCampus | servers/emotional_geography_server.py:92-109 | every score of the catalog entry lies in 0..100 |
| Emotions.Hamra | servers/emotional_geography_server.py:110-126 | every score of the catalog entry lies in 0..100 |
| Emotions.AubMainGate | servers/emotional_geography_server.py:127-144 | every score of the catalog entry lies in 0..100 |
| Emotions.Byblos | servers/emotional_geography_server.py:145-162 | every score of the catalog entry lies in 0..100 |
| Emotions.ParisFrance | servers/emotional_geography_server.py:163-179 | every score of the catalog entry lies in 0..100 |
| Emotions.TokyoJapan | servers/emotional_geography_server.py:180-196 | every score of the catalog entry lies in 0..100 |
| Emotions.ReykjavikIceland | servers/emotional_geography_server.py:197-213 | every score of the catalog entry lies in 0..100 |
| Emotions.NewYorkCityUsa | servers/emotional_geography_server.py:214-230 | every score of the catalog entry lies in 0..100 |
| Emotions.KyotoJapan | servers/emotional_geography_server.py:231-247 | every score of the catalog entry lies in 0..100 |
| Navigation.FindRouteFrom | servers/quantum_navigation_server.py:500-503 | the first pair, from a position on, whose two names occur (ignoring case) in origin and destination, in either orientation |
| Navigation.FindRouteKey | servers/quantum_navigation_server.py:498-504 | `_find_route_key`: `None` exactly when no pair matches; otherwise the first matching pair |
| Navigation.FindRouteKeySymmetric | servers/quantum_navigation_server.py:499-503 | swapping origin and destination finds the same pair |
| Navigation.AvailableRoutePairs | servers/quantum_navigation_server.py:506-508 | one "from ↔ to" label per pair, in catalog order |
| Navigation.TimeScore | servers/quantum_navigation_server.py:517 | `100 / (1 + t / scale)` lies in (0, 100] for a non-negative time |
| Navigation.TimeScoreAntitone | servers/quantum_navigation_server.py:517 | a longer base time never gives a higher time score |
| Navigation.ScoreRanges | servers/quantum_navigation_server.py:510-533 | bounds of each mode's score for a valid route: non-negative, "fastest" at most 100, "safest" at most 120, scenic routes at least 20, any other mode in (0, 150] |
| Navigation.ScoreIgnoresRiskTolerance | servers/quantum_navigation_server.py:510-533 | the risk tolerance never changes the score, and every unknown mode scores like "efficient" |
| Navigation.ScoreFollowsConfidence | servers/quantum_navigation_server.py:510-533 | raising confidence never lowers the score except in "adventurous" mode, where it never raises it |
| Navigation.ScoreFollowsTime | servers/quantum_navigation_server.py:514-533 | in "fastest" and "efficient" modes a longer base time never raises the score |
| Navigation.TimeVariance | servers/quantum_navigation_server.py:535-539 | the truncated variance of a valid route is non-negative, below the base time, and at most 45% of it |
| Navigation.QuantumState | servers/quantum_navigation_server.py:541-550 | each of the four state strings is given exactly in its band: from 0.9, in [0.8, 0.9), in [0.7, 0.8), and below 0.7 |
| Navigation.GetRiskLevel | servers/quantum_navigation_server.py:571-578 | LOW exactly from 0.85, MODERATE exactly in [0.75, 0.85), ELEVATED exactly below 0.75 |
| Navigation.RiskLevelMonotone | servers/quantum_navigation_server.py:571-578 | higher confidence never raises the risk level |
| Navigation.AnalyzeConditions | servers/quantum_navigation_server.py:592-599 | HIGH exactly for 3 or more conditions, MODERATE for exactly 2, LOW for at most 1 |
| Navigation.SuccessProbability | servers/quantum_navigation_server.py:567-569 | for a valid route with at most 33 factors, the probability lies between 0 and the route's confidence |
| Navigation.MitigationsSpec | servers/quantum_navigation_server.py:580-590 | the list is never empty: the per-factor advice when any applies, else the two defaults |
| Navigation.FactorMitigationsAdvice | servers/quantum_navigation_server.py:582-589 | every per-factor entry is one of the three fixed pieces of advice |
| Navigation.TrafficAdvice | servers/quantum_navigation_server.py:584-585 | the traffic advice appears exactly when some factor mentions "traffic", ignoring case |
| Navigation.SuggestMitigations | servers/quantum_navigation_server.py:580-590 | the loop builds exactly the specified mitigation list |
| Navigation.AddFactorMitigations | servers/quantum_navigation_server.py:582-589 | the three checks on one factor append exactly that factor's advice, in the order traffic, weather, construction |
| Navigation.AdjustedConfidenceSpec | servers/quantum_navigation_server.py:601-611 | the adjusted confidence lies in [0.4, 1.0], no conditions leave a valid confidence unchanged, and one more condition never raises it |
| Navigation.AdjustConfidence | servers/quantum_navigation_server.py:601-611 | the nested loops subtract 0.1 per (condition, factor) hit and clamp the result to [0.4, 1.0] |
| Navigation.MatchingFactors | servers/quantum_navigation_server.py:618-620 | the count of conditions that occur in some factor, never more than the number of conditions |
| Navigation.ConditionImpact | servers/quantum_navigation_server.py:613-633 | "significant" exactly from 2 matching conditions with a delay of `int(base * 0.25)`, "moderate" exactly for 1 with `int(base * 0.1)`, "minimal" exactly for none with no delay; the delay lies between 0 and a quarter of the base time |
| Navigation.ScoreRoute | servers/quantum_navigation_server.py:323-344 | the optimistic, expected and pessimistic times are ordered around the base time, and the scores are the route's score and confidence |
| Navigation.ScoreAll | servers/quantum_navigation_server.py:323-344 | one scored entry per route, in catalog order |
| Navigation.RouteRecommendationAsWritten | servers/quantum_navigation_server.py:552-556 | the "% suitability" figure shown is the route's confidence, as the code prints it |
| Navigation.RecommendationFigureMismatch | servers/quantum_navigation_server.py:347-357 | for Beirut to Byblos in "safest" mode the best-ranked route is the Mountain Route with suitability 102, yet the written figure is its confidence 0.85 |
| Navigation.BeirutByblosIsFirstPair | servers/quantum_navigation_server.py:498-504 | the query Beirut to Byblos finds the first pair of the network, whose routes are the coastal and mountain routes |
| Navigation.SafestScore | servers/quantum_navigation_server.py:524-526 | the "safest" score is the confidence times 120 |
| Navigation.RouteRecommendation | servers/quantum_navigation_server.py:552-556 | the corrected recommendation shows the suitability score as the suitability figure and the confidence as the confidence figure |
| Navigation.CalculateQuantumRoutes | servers/quantum_navigation_server.py:294-364 | no routes (with the error and all pair labels) exactly when no pair matches; otherwise every route scored, sorted by suitability, their count, and the recommendation for the first, which is the as-written recommendation with the suitability score in place of the confidence as the suitability figure |
| Navigation.RankedRoutesAreScored | servers/quantum_navigation_server.py:323-347 | the ranked list holds exactly the pair's scored routes |
| Navigation.RecommendedRouteIsBest | servers/quantum_navigation_server.py:347-357 | the recommended route's suitability is at least every route's score |
| Navigation.RouteNames | servers/quantum_navigation_server.py:398 | the names of the pair's routes, in order |
| Navigation.EvaluateRouteConfidence | servers/quantum_navigation_server.py:366-428 | "Route not found" exactly when no pair matches; a route-not-found error with the route names exactly when no route name matches ignoring case; otherwise the evaluation of the first matching route |
| Navigation.EvaluationOf | servers/quantum_navigation_server.py:402-426 | the route's name, endpoints, confidence and factors, its success probability, risk level, mitigations and time variance; on-time probability `0.9 * confidence` and delay likelihood `1 - confidence`, so for a valid route on-time is at most the confidence and the two sum to at most 1 |
| Navigation.EvaluationStep | servers/quantum_navigation_server.py:402-426 | the dictionary built field by field is the evaluation of the route |
| Navigation.AdaptationAdvice | servers/quantum_navigation_server.py:635-643 | "continue" exactly from 0.8, "usable with delays" (with the impact's delay) exactly in [0.65, 0.8), "consider an alternative" below 0.65 |
| Navigation.Adapt | servers/quantum_navigation_server.py:458-477 | the adjusted confidence is the conditions' adjustment of the confidence, in [0.4, 1.0]; the change is adjusted minus original; the impact is the route's condition impact; the estimated time is the base time plus the impact's delay, at most a quarter above it; the advice follows the adjusted confidence |
| Navigation.AdaptStep | servers/quantum_navigation_server.py:458-477 | the entry the loop appends for a route is its adaptation |
| Navigation.AdaptAll | servers/quantum_navigation_server.py:458-477 | one adapted entry per route, in catalog order |
| Navigation.MaxShift | servers/quantum_navigation_server.py:492 | the largest absolute confidence change, attained by some route |
| Navigation.AdaptiveReroute | servers/quantum_navigation_server.py:430-496 | the fixed error exactly when no pair matches; otherwise the severity, the adapted routes sorted by adjusted confidence, the first as best option, and the largest shift |
| Navigation.BestOptionIsMostConfident | servers/quantum_navigation_server.py:480-489 | the best option's adjusted confidence is at least every route's, and every route appears among the options |
| Navigation.RouteNetworkValid | servers/quantum_navigation_server.py:65-254 | every pair has routes, and every route has confidence in [0, 1] and non-negative time and distance |
| Weather.WeatherKeysAreNormal | servers/weather_server.py:19-90 | every catalog key is non-empty, lower case, and has no surrounding whitespace |
| Weather.NormalizeOfNormalKey | servers/weather_server.py:292 | a key in normal form is unchanged by `lower().strip()` |
| Weather.PaddedKeyIsFound | servers/weather_server.py:292-294 | any spelling whose lower case is a catalog key, padded with whitespace, normalises to that key and is found |
| Weather.BlankIsNoLocation | servers/weather_server.py:292-294 | empty and whitespace-only input normalises to "" and is never a location |
| Weather.Choice | servers/weather_server.py:201-206 | `random.choice(pool)` returns an element of the pool |
| Weather.ChoiceCoversPool | servers/weather_server.py:201-206 | every element of a pool can be drawn |
| Weather.RandInt | servers/weather_server.py:264-267 | `random.randint(lo, hi)` lies in `[lo, hi]` |
| Weather.RandIntCoversRange | servers/weather_server.py:264-267 | every value of the range can be drawn |
| Weather.ConditionPool | servers/weather_server.py:201-206 | the pool is never empty and holds only known conditions |
| Weather.RainNeedsMiddleElevation | servers/weather_server.py:201-206 | rain or a thunderstorm can be drawn only for elevations from 100 m to 1000 m |
| Weather.GenerateCurrentWeather | servers/weather_server.py:181-220 | the report carries the place's own name, coordinates, elevation and climate zone, and a condition from its elevation's pool |
| Weather.GetCurrentWeather | servers/weather_server.py:290-304 | found exactly when the normalised key is catalogued; otherwise the error naming the raw input, all keys and the suggestion |
| Weather.ForecastDayOf | servers/weather_server.py:245-253 | a forecast day's condition is one of the known conditions |
| Weather.ForecastDays | servers/weather_server.py:227-255 | exactly `days` entries, day `d` built from the `d`-th draw |
| Weather.GenerateForecast | servers/weather_server.py:224-255 | the loop appends exactly the specified days |
| Weather.GetWeatherForecast | servers/weather_server.py:306-326 | found exactly when the key is catalogued; then the day count is the request clamped to 1..5, with that many entries; otherwise the error and all keys |
| Weather.GenerateSkiConditions | servers/weather_server.py:257-288 | in season (December to March): "Open", 4 to 8 of 8 lifts, 50 to 200 cm of snow; off season: "Closed" with zero snow and lifts |
| Weather.ResortsAreMountains | servers/weather_server.py:332 | both resorts are catalogued, above 1000 m |
| Weather.GetSkiConditions | servers/weather_server.py:328-343 | a report exactly when the normalised name is "faraya" or "cedars"; otherwise the error, the two resorts and the suggestion |
| Weather.SkiSeasonGating | servers/weather_server.py:261-285 | a report is open, and has lifts running, exactly in season |
| Weather.Recommendation.Text | servers/weather_server.py:376-385 | the recommendation text is never empty |
| Weather.Recommend | servers/weather_server.py:376-385 | "warmer" exactly when the temperatures differ by more than 5, naming the warmer place; the mountain verdict exactly otherwise when the first place is above 1000 m and the second below 500 m |
| Weather.WarmerVerdictIgnoresOrder | servers/weather_server.py:378-381 | when one place is more than 5 degrees warmer, the order of the two places does not change the verdict |
| Weather.MountainVerdictIsOneWay | servers/weather_server.py:382-383 | swapping the places of a mountain verdict gives "similar" |
| Weather.Compare | servers/weather_server.py:358-371 | the temperature difference is non-negative, and the elevation difference is 0 exactly for equal elevations |
| Weather.CompareIsSymmetric | servers/weather_server.py:358-371 | the differences do not depend on the order of the two places |
| Weather.CompareLocations | servers/weather_server.py:345-374 | fails exactly when either key is unknown, naming the first location when it is unknown and the second otherwise; else both reports, their differences and the recommendation |
| Weather.ElevationDiffOfComparison | servers/weather_server.py:359 | two spellings of one place are 0 m apart, and swapping the places keeps the differences |
| Weather.HandleRequest | servers/weather_server.py:387-401 | an "Unknown method" error exactly for the names other than the four handlers; for each handler, a failure exactly when its arguments are missing, extra or ill-typed, and otherwise that handler's answer for the given arguments; a forecast `days` clamped as `ClampedDays`, and a float `days` strictly between 1 and 5 answers not-found for an unknown place and fails for a known one |
| Weather.ClampedDays | servers/weather_server.py:309 | `max(1, min(days, 5))`: an integer lands in 1..5 and is kept when already there; a float above 5 becomes 5, a float at most 1 becomes 1, and a float inside (1, 5] stays a float |
| Weather.DefaultForecastIsFiveDays | servers/weather_server.py:306 | a forecast request for a known place without `days` gets five days |

## Left out

- Python's floats are modelled as exact reals. `round(..., n)` is not applied, so sorting uses the unrounded scores. The source sorts on values rounded to two places: the suitability score is rounded at servers/quantum_navigation_server.py:340 and sorted at 347, and the adjusted confidence is rounded at 470 and sorted at 480. Ties created by rounding are not modelled.
- Navigation.AdjustConfidence subtracts exactly 0.1 per hit. Float accumulation of the repeated 0.1 is not modelled.
- Randomness and the clock (`random.*`, `datetime.now()`) are parameters:
  - the weather readings, forecast draws and ski draws;
  - the month.
- The seasonal temperature formulas of the weather service are not modelled. Each temperature arrives with its reading.
- `_analyze_confidence_factors` (servers/quantum_navigation_server.py:558-565) is random and is not modelled.
- Percentage and decimal formatting in recommendation strings is represented by the figures that would be formatted. This covers `:.0f`, `:.0%`, the route advice at servers/quantum_navigation_server.py:554-556 and the confidence shift at 492.
- Weather.HandleRequest does not model the text of a raised exception. Such a request gives `HandlerFailed`. Booleans passed as `days` count as ill-typed, whereas Python would accept them as the integers 0 and 1.
- Default arguments of the handlers are not modelled, except the forecast's `days=5`. The caller always passes `min_intensity` (default 70, servers/emotional_geography_server.py:345), `mode` (default "efficient") and `risk_tolerance` (default 0.5, servers/quantum_navigation_server.py:295-296).
- Navigation.CalculateQuantumRoutes returns the corrected recommendation, whose suitability figure is the suitability score. The code as written shows the confidence there; that form is Navigation.RouteRecommendationAsWritten, and the ensures relates the two (see "Findings").
- `str.lower()`, `str.strip()` and `str.split()` are modelled for ASCII only. There is no Unicode case folding or Unicode whitespace.
- Weather.GenerateCurrentWeather and Weather.GenerateSkiConditions take ranges and fields other than condition, lifts, snow and rating from their draws as given. Humidity, wind, pressure, visibility, UV index and the runs figure are examples.
- The unused valley weather pattern is not modelled. `typical_temp_range` is never returned, so it is not modelled either.
- Emotions: the constant `emotion_categories` block returned with a profile is not modelled. Neither is `visualization_ready`.
- `get_server_info` is not modelled in any server. The same goes for the `create_*_tools` schema factories, the `__main__` demos and the busy-wait `main()` loops.
- app.py (HTTP routes and a chat loop), agent_integration.py and fetch_server.py are not part of this model.
- TimeTravel.HistoricalDatabase and Emotions.EmotionalDatabase: validity is proved one catalog entry at a time, by the ensures of each history and place function. There is no lemma over the whole literal table, because its descriptive text makes that proof too large for the solver. The handlers take the catalog as a parameter and state what they need of it as a `requires`.
- The suggestion text offered with an unknown weather location is modelled as its literal. There is no lemma that it names all ten places.

## Findings

| source | as written | input that shows it | evidently intended | confidence | as-written member | corrected member |
|---|---|---|---|---|---|---|
| servers/quantum_navigation_server.py:552-556 | the recommendation shows `confidence_score` as the "% suitability" figure | Beirut to Byblos in "safest" mode: the first-ranked route is the "Mountain Route", suitability score 102, figure shown 0.85 (printed as "1% suitability") | show `suitability_score` as the suitability figure | not executed | Navigation.RouteRecommendationAsWritten, Navigation.RecommendationFigureMismatch | Navigation.RouteRecommendation, Navigation.RecommendedRouteIsBest |
