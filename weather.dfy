/** The Lebanese weather service: a read-only catalog of ten places (name,
    coordinates, elevation, climate zone), current conditions, a forecast of
    one to five days, ski conditions for the two resorts, a comparison of two
    places, and the request dispatcher. Every random draw and the month come
    in as parameters, so what is modelled is the deterministic frame around
    them: key normalisation, validation, clamping, pools and season gating. */
module Weather {
  import opened Common
  import opened Text
  import opened Numeric

  datatype Coordinates = Coordinates(lat: real, lon: real)

  datatype Location = Location(name: string, coordinates: Coordinates, elevation: int, climate: string)

  type Catalog = seq<(string, Location)>

  /** The ten catalogued places, in catalog order. */
  function WeatherData(): (db: Catalog)
    ensures |db| == 10
  {
    [ ("beirut", Location("Beirut", Coordinates(33.8886, 35.4955), 34, "Mediterranean")),
      ("faraya", Location("Faraya (Ski Resort)", Coordinates(33.9833, 35.8167), 1850, "Mountain Mediterranean")),
      ("tripoli", Location("Tripoli", Coordinates(34.4367, 35.8497), 0, "Mediterranean")),
      ("zahle", Location("Zahle (Bekaa Valley)", Coordinates(33.8469, 35.9019), 945, "Continental Mediterranean")),
      ("byblos", Location("Byblos (Jbeil)", Coordinates(34.1208, 35.6481), 20, "Mediterranean")),
      ("sidon", Location("Sidon (Saida)", Coordinates(33.5633, 35.3714), 25, "Mediterranean")),
      ("tyre", Location("Tyre (Sour)", Coordinates(33.2733, 35.2039), 15, "Mediterranean")),
      ("baalbek", Location("Baalbek", Coordinates(34.0067, 36.2183), 1150, "Continental")),
      ("cedars", Location("The Cedars (Bcharre)", Coordinates(34.2833, 36.0167), 2000, "Alpine Mediterranean")),
      ("aub", Location("AUB Campus (Hamra)", Coordinates(33.8972, 35.4795), 50, "Mediterranean")) ]
  }

  /** Every condition the service can report. */
  const Conditions: seq<string> :=
    ["clear", "partly_cloudy", "cloudy", "light_rain", "rain", "thunderstorm", "fog", "windy", "humid", "dry"]

  const CoastalPattern: seq<string> := ["clear", "partly_cloudy", "humid", "windy"]

  const MountainPattern: seq<string> := ["clear", "cloudy", "light_rain", "fog"]

  const LocationSuggestion: string :=
    "Try: beirut, faraya, tripoli, zahle, aub, cedars, baalbek, byblos, sidon, or tyre"

  // ---------------------------------------------------------------------------
  // Keys

  /** `s.lower().strip()`: how every handler turns its input into a key. */
  function Normalize(s: string): string
  {
    Strip(Lower(s))
  }

  /** A key that normalisation leaves unchanged: non-empty, lower case, and
      neither starting nor ending with whitespace. */
  predicate NormalKey(k: string)
  {
    k != [] && IsLower(k) && !IsSpace(k[0]) && !IsSpace(k[|k| - 1])
  }

  function KeyOf(location: string): Option<nat>
  {
    KeyIndex(WeatherData(), Normalize(location))
  }

  /** Every catalog key is in normal form, so each can be reached. */
  lemma WeatherKeysAreNormal()
    ensures forall i :: 0 <= i < |WeatherData()| ==> NormalKey(WeatherData()[i].0)
  {
    FrontKeysAreNormal();
    BackKeysAreNormal();
  }

  lemma FrontKeysAreNormal()
    ensures forall i :: 0 <= i < 5 ==> NormalKey(WeatherData()[i].0)
  {
    var db := WeatherData();
    assert NormalKey(db[0].0) && NormalKey(db[1].0) && NormalKey(db[2].0);
    assert NormalKey(db[3].0) && NormalKey(db[4].0);
  }

  lemma BackKeysAreNormal()
    ensures forall i :: 5 <= i < 10 ==> NormalKey(WeatherData()[i].0)
  {
    var db := WeatherData();
    assert NormalKey(db[5].0) && NormalKey(db[6].0) && NormalKey(db[7].0);
    assert NormalKey(db[8].0) && NormalKey(db[9].0);
  }

  lemma NormalizeOfNormalKey(k: string)
    requires NormalKey(k)
    ensures Normalize(k) == k
  {
    LowerOfLower(k);
    StripOfStripped(k);
  }

  /** Case and surrounding whitespace do not matter: any spelling of a
      catalog key whose `lower()` is the key, padded with whitespace on
      either side, normalises to that key and is found. */
  lemma PaddedKeyIsFound(i: nat, pre: string, w: string, post: string)
    requires i < |WeatherData()|
    requires AllSpace(pre) && AllSpace(post) && Lower(w) == WeatherData()[i].0
    ensures Normalize(pre + w + post) == WeatherData()[i].0
    ensures KeyOf(pre + w + post).Some?
  {
    var k := WeatherData()[i].0;
    WeatherKeysAreNormal();
    assert NormalKey(k);
    LowerConcat(pre + w, post);
    LowerConcat(pre, w);
    LowerOfSpace(pre);
    LowerOfSpace(post);
    assert Lower(pre + w + post) == pre + k + post;
    StripOfPadded(pre, k, post);
    assert WeatherData()[i].0 == k;
  }

  /** Empty and whitespace-only input is never a location. */
  lemma BlankIsNoLocation(s: string)
    requires AllSpace(s)
    ensures Normalize(s) == ""
    ensures KeyOf(s).None?
  {
    LowerOfSpace(s);
    StripOfBlank(s);
    WeatherKeysAreNormal();
  }

  // ---------------------------------------------------------------------------
  // Random draws

  /** `random.choice(pool)`, with the draw passed in as a number. */
  function Choice<T>(pool: seq<T>, pick: nat): (c: T)
    requires pool != []
    ensures c in pool
  {
    pool[pick % |pool|]
  }

  /** `random.randint(lo, hi)`, with the draw passed in as a number. */
  function RandInt(lo: int, hi: int, pick: nat): (r: int)
    requires lo <= hi
    ensures lo <= r <= hi
  {
    lo + pick % (hi - lo + 1)
  }

  /** Every element of the pool can be drawn. */
  lemma ChoiceCoversPool<T>(pool: seq<T>)
    requires pool != []
    ensures forall i :: 0 <= i < |pool| ==> Choice(pool, i) == pool[i]
  {
  }

  /** Every value of the range can be drawn. */
  lemma RandIntCoversRange(lo: int, hi: int, k: nat)
    requires lo <= hi && k <= hi - lo
    ensures RandInt(lo, hi, k) == lo + k
  {
  }

  /** The pool current conditions are drawn from: the mountain pool above
      1000 m, the coastal pool below 100 m, otherwise every condition. */
  function ConditionPool(elevation: int): (pool: seq<string>)
    ensures pool != []
    ensures forall c :: c in pool ==> c in Conditions
  {
    if elevation > 1000 then MountainPattern
    else if elevation < 100 then CoastalPattern
    else Conditions
  }

  /** Neither the mountains nor the coast ever report rain or a
      thunderstorm; only places between 100 m and 1000 m can. */
  lemma RainNeedsMiddleElevation(elevation: int, pick: nat)
    requires Choice(ConditionPool(elevation), pick) in ["rain", "thunderstorm"]
    ensures 100 <= elevation <= 1000
  {
  }

  // ---------------------------------------------------------------------------
  // Current weather

  /** The values the current-conditions generator draws at random or reads
      from the clock. */
  datatype Reading = Reading(temperature: real, conditionPick: nat, humidity: int, windSpeed: int,
                             windDirection: string, pressure: int, visibility: int, uvIndex: int,
                             timestamp: string)

  datatype CurrentWeather = CurrentWeather(location: string, coordinates: Coordinates, temperature: real,
                                           condition: string, humidity: int, windSpeed: int,
                                           windDirection: string, pressure: int, visibility: int,
                                           uvIndex: int, timestamp: string, elevation: int,
                                           climateZone: string)

  /** The current conditions of one place: its own name, position, elevation
      and climate zone, and a condition drawn from its elevation's pool. */
  function GenerateCurrentWeather(loc: Location, r: Reading): (w: CurrentWeather)
    ensures w.location == loc.name && w.coordinates == loc.coordinates
    ensures w.elevation == loc.elevation && w.climateZone == loc.climate
    ensures w.condition in ConditionPool(loc.elevation) && w.condition in Conditions
  {
    CurrentWeather(loc.name, loc.coordinates, r.temperature, Choice(ConditionPool(loc.elevation), r.conditionPick),
                   r.humidity, r.windSpeed, r.windDirection, r.pressure, r.visibility, r.uvIndex,
                   r.timestamp, loc.elevation, loc.climate)
  }

  function NotFound(location: string): string
  {
    "Location '" + location + "' not found"
  }

  datatype CurrentResult =
    | Current(weather: CurrentWeather)
    | CurrentNotFound(error: string, availableLocations: seq<string>, suggestion: string)

  function GetCurrentWeather(location: string, r: Reading): (res: CurrentResult)
    ensures res.Current? <==> KeyOf(location).Some?
    ensures res.Current? ==>
      res.weather == GenerateCurrentWeather(WeatherData()[KeyOf(location).value].1, r)
    ensures res.CurrentNotFound? ==>
      res.error == NotFound(location) && res.availableLocations == Keys(WeatherData()) &&
      res.suggestion == LocationSuggestion
  {
    match KeyOf(location)
    case None => CurrentNotFound(NotFound(location), Keys(WeatherData()), LocationSuggestion)
    case Some(i) => Current(GenerateCurrentWeather(WeatherData()[i].1, r))
  }

  // ---------------------------------------------------------------------------
  // Forecast

  /** The values one forecast day draws at random or reads from the clock. */
  datatype DayReading = DayReading(date: string, dayName: string, tempHigh: real, tempLow: real,
                                   conditionPick: nat, precipitationChance: int, windSpeed: int)

  datatype ForecastDay = ForecastDay(date: string, dayName: string, tempHigh: real, tempLow: real,
                                     condition: string, precipitationChance: int, windSpeed: int)

  /** One forecast day; its condition comes from the full list whatever the
      elevation. */
  function ForecastDayOf(r: DayReading): (d: ForecastDay)
    ensures d.condition in Conditions
  {
    ForecastDay(r.date, r.dayName, r.tempHigh, r.tempLow, Choice(Conditions, r.conditionPick),
                r.precipitationChance, r.windSpeed)
  }

  /** The forecast for `days` days: day `d` (counted from today) is built
      from the `d`-th draw. */
  function ForecastDays(days: nat, draw: nat -> DayReading): (f: seq<ForecastDay>)
    ensures |f| == days
    ensures forall d :: 0 <= d < days ==> f[d] == ForecastDayOf(draw(d))
    ensures forall d :: 0 <= d < days ==> f[d].condition in Conditions
  {
    seq(days, d requires 0 <= d < days => ForecastDayOf(draw(d)))
  }

  /** `_generate_forecast`: one entry appended per day. */
  method GenerateForecast(days: nat, draw: nat -> DayReading) returns (forecast: seq<ForecastDay>)
    ensures forecast == ForecastDays(days, draw)
  {
    forecast := [];
    var day := 0;
    while day < days
      invariant 0 <= day <= days
      invariant |forecast| == day
      invariant forall d :: 0 <= d < day ==> forecast[d] == ForecastDayOf(draw(d))
    {
      forecast := forecast + [ForecastDayOf(draw(day))];
      day := day + 1;
    }
  }

  datatype ForecastResult =
    | Forecast(location: string, coordinates: Coordinates, forecastDays: int, forecast: seq<ForecastDay>)
    | ForecastNotFound(error: string, availableLocations: seq<string>)

  /** The requested number of days is clamped to 1..5 whatever the location;
      a known location gets exactly that many days, in order. */
  function GetWeatherForecast(location: string, days: int, draw: nat -> DayReading): (res: ForecastResult)
    ensures res.Forecast? <==> KeyOf(location).Some?
    ensures res.Forecast? ==>
      var loc := WeatherData()[KeyOf(location).value].1;
      res.location == loc.name && res.coordinates == loc.coordinates &&
      1 <= res.forecastDays <= 5 && |res.forecast| == res.forecastDays &&
      (1 <= days <= 5 ==> res.forecastDays == days) &&
      (days < 1 ==> res.forecastDays == 1) && (days > 5 ==> res.forecastDays == 5) &&
      res.forecast == ForecastDays(res.forecastDays, draw)
    ensures res.ForecastNotFound? ==>
      res.error == NotFound(location) && res.availableLocations == Keys(WeatherData())
  {
    var n := if 5 < days then 5 else if days < 1 then 1 else days;
    match KeyOf(location)
    case None => ForecastNotFound(NotFound(location), Keys(WeatherData()))
    case Some(i) =>
      var loc := WeatherData()[i].1;
      Forecast(loc.name, loc.coordinates, n, ForecastDays(n, draw))
  }

  // ---------------------------------------------------------------------------
  // Ski conditions

  const SkiResorts: seq<string> := ["faraya", "cedars"]

  /** December to March. */
  predicate InSkiSeason(month: int)
  {
    month in [12, 1, 2, 3]
  }

  /** The values the ski report draws at random or reads from the clock. */
  datatype SkiDraw = SkiDraw(snowDepthPick: nat, ratingPick: nat, liftsPick: nat, newSnowPick: nat,
                             temperature: real, runsPick: nat, visibilityPick: nat, timestamp: string)

  datatype SkiConditions = SkiConditions(resort: string, elevation: int, coordinates: Coordinates,
                                         snowDepthCm: int, newSnow24hCm: int, conditionsRating: string,
                                         temperature: real, liftsOpen: int, totalLifts: int,
                                         runsOpen: string, seasonStatus: string, visibility: string,
                                         timestamp: string)

  const TotalLifts := 8

  /** In season the resort is open with 4 to 8 of its 8 lifts running and
      50 to 200 cm of snow; out of season everything is shut and every
      snow and lift figure is zero. */
  function GenerateSkiConditions(loc: Location, month: int, draw: SkiDraw): (c: SkiConditions)
    ensures c.resort == loc.name && c.elevation == loc.elevation && c.totalLifts == TotalLifts
    ensures InSkiSeason(month) ==>
      c.seasonStatus == "Open" && 4 <= c.liftsOpen <= c.totalLifts &&
      50 <= c.snowDepthCm <= 200 && 0 <= c.newSnow24hCm <= 30 &&
      c.conditionsRating in ["Excellent", "Good", "Fair"]
    ensures !InSkiSeason(month) ==>
      c.seasonStatus == "Closed" && c.liftsOpen == 0 && c.snowDepthCm == 0 && c.newSnow24hCm == 0 &&
      c.conditionsRating == "Closed - Off Season" && c.runsOpen == "0/25" && c.visibility == "N/A"
  {
    if InSkiSeason(month) then
      SkiConditions(loc.name, loc.elevation, loc.coordinates,
                    RandInt(50, 200, draw.snowDepthPick), RandInt(0, 30, draw.newSnowPick),
                    Choice(["Excellent", "Good", "Fair"], draw.ratingPick), draw.temperature,
                    RandInt(4, 8, draw.liftsPick), TotalLifts,
                    IntToString(RandInt(10, 25, draw.runsPick)) + "/25", "Open",
                    Choice(["Excellent", "Good", "Moderate", "Poor"], draw.visibilityPick), draw.timestamp)
    else
      SkiConditions(loc.name, loc.elevation, loc.coordinates, 0, 0, "Closed - Off Season",
                    draw.temperature, 0, TotalLifts, "0/25", "Closed", "N/A", draw.timestamp)
  }

  lemma FarayaIndex()
    ensures KeyIndex(WeatherData(), "faraya") == Some(1)
  {
    var db := WeatherData();
    assert db[0].0[0] == 'b';
    KeyIndexAt(db, "faraya", 1);
  }

  lemma CedarsIndex()
    ensures KeyIndex(WeatherData(), "cedars") == Some(8)
  {
    var db := WeatherData();
    // no key before "cedars" starts with its letter
    assert db[0].0[0] == 'b' && db[1].0[0] == 'f' && db[2].0[0] == 't' && db[3].0[0] == 'z';
    assert db[4].0[0] == 'b' && db[5].0[0] == 's' && db[6].0[0] == 't' && db[7].0[0] == 'b';
    KeyIndexAt(db, "cedars", 8);
  }

  /** Both resorts are catalogued, and both are mountain places. */
  lemma ResortsAreMountains()
    ensures forall r :: r in SkiResorts ==> KeyIndex(WeatherData(), r).Some?
    ensures forall r :: r in SkiResorts ==>
      WeatherData()[KeyIndex(WeatherData(), r).value].1.elevation > 1000
  {
    forall r | r in SkiResorts
      ensures KeyIndex(WeatherData(), r).Some?
      ensures WeatherData()[KeyIndex(WeatherData(), r).value].1.elevation > 1000
    {
      assert r == SkiResorts[0] || r == SkiResorts[1];
      if r == SkiResorts[0] {
        FarayaIndex();
        assert KeyIndex(WeatherData(), r) == Some(1);
      } else {
        CedarsIndex();
        assert KeyIndex(WeatherData(), r) == Some(8);
      }
    }
  }

  datatype SkiResult =
    | Ski(conditions: SkiConditions)
    | ResortNotFound(error: string, availableResorts: seq<string>, suggestion: string)

  function GetSkiConditions(resort: string, month: int, draw: SkiDraw): (res: SkiResult)
    ensures res.Ski? <==> Normalize(resort) in SkiResorts
    ensures res.Ski? ==>
      KeyIndex(WeatherData(), Normalize(resort)).Some? &&
      res.conditions == GenerateSkiConditions(WeatherData()[KeyIndex(WeatherData(), Normalize(resort)).value].1,
                                              month, draw)
    ensures res.ResortNotFound? ==>
      res.error == "Ski resort '" + resort + "' not found" && res.availableResorts == SkiResorts &&
      res.suggestion == "Try: faraya or cedars"
  {
    var key := Normalize(resort);
    if key !in SkiResorts then
      ResortNotFound("Ski resort '" + resort + "' not found", SkiResorts, "Try: faraya or cedars")
    else
      ResortsAreMountains();
      Ski(GenerateSkiConditions(WeatherData()[KeyIndex(WeatherData(), key).value].1, month, draw))
  }

  /** Whatever the spelling, a ski report that is open has at least four
      lifts running, and outside December to March no report is open. */
  lemma SkiSeasonGating(resort: string, month: int, draw: SkiDraw)
    requires GetSkiConditions(resort, month, draw).Ski?
    ensures var c := GetSkiConditions(resort, month, draw).conditions;
      (c.seasonStatus == "Open" <==> InSkiSeason(month)) &&
      (c.liftsOpen > 0 <==> InSkiSeason(month))
  {
  }

  // ---------------------------------------------------------------------------
  // Comparing two places

  datatype Differences = Differences(temperatureDiff: real, elevationDiff: nat, humidityDiff: nat,
                                     windSpeedDiff: nat)

  /** The comparison's verdict, in priority order: a place warmer by more
      than 5 degrees (the first place checked first), then a mountain first
      place against a low second place, then "similar". */
  datatype Recommendation =
    | Warmer(location: string)
    | MountainAndCoast(mountain: string, coast: string)
    | Similar
  {
    function Text(): (t: string)
      ensures |t| > 0
    {
      match this
      case Warmer(l) => l + " is significantly warmer"
      case MountainAndCoast(m, c) => m + " offers cooler mountain climate, " + c + " has coastal conditions"
      case Similar => "Both locations have similar weather conditions"
    }
  }

  function Recommend(w1: CurrentWeather, w2: CurrentWeather): (r: Recommendation)
    ensures r.Warmer? <==> AbsReal(w1.temperature - w2.temperature) > 5.0
    ensures r.Warmer? ==>
      (r.location == w1.location && w1.temperature > w2.temperature) ||
      (r.location == w2.location && w2.temperature > w1.temperature)
    ensures r.MountainAndCoast? <==>
      AbsReal(w1.temperature - w2.temperature) <= 5.0 && w1.elevation > 1000 && w2.elevation < 500
    ensures r.MountainAndCoast? ==> r.mountain == w1.location && r.coast == w2.location
  {
    if w1.temperature > w2.temperature + 5.0 then Warmer(w1.location)
    else if w2.temperature > w1.temperature + 5.0 then Warmer(w2.location)
    else if w1.elevation > 1000 && w2.elevation < 500 then MountainAndCoast(w1.location, w2.location)
    else Similar
  }

  /** When one place is more than 5 degrees warmer, the order in which the
      two are given does not change the verdict. */
  lemma WarmerVerdictIgnoresOrder(w1: CurrentWeather, w2: CurrentWeather)
    requires AbsReal(w1.temperature - w2.temperature) > 5.0
    ensures Recommend(w1, w2) == Recommend(w2, w1)
  {
  }

  /** The mountain verdict is one-way: swapping the two places turns it into
      "similar". */
  lemma MountainVerdictIsOneWay(w1: CurrentWeather, w2: CurrentWeather)
    requires Recommend(w1, w2).MountainAndCoast?
    ensures Recommend(w2, w1) == Similar
  {
  }

  function Compare(w1: CurrentWeather, w2: CurrentWeather): (d: Differences)
    ensures d.temperatureDiff >= 0.0
    ensures d.elevationDiff == 0 <==> w1.elevation == w2.elevation
  {
    Differences(AbsReal(w1.temperature - w2.temperature), Abs(w1.elevation - w2.elevation),
                Abs(w1.humidity - w2.humidity), Abs(w1.windSpeed - w2.windSpeed))
  }

  /** The differences do not depend on the order of the two places. */
  lemma CompareIsSymmetric(w1: CurrentWeather, w2: CurrentWeather)
    ensures Compare(w1, w2) == Compare(w2, w1)
  {
  }

  datatype ComparisonResult =
    | Compared(location1: CurrentWeather, location2: CurrentWeather, differences: Differences,
               recommendation: string)
    | ComparisonFailed(error: string)

  /** The first location is validated before the second, so when both are
      unknown the error names the first. */
  function CompareLocations(location1: string, location2: string, r1: Reading, r2: Reading): (res: ComparisonResult)
    ensures res.Compared? <==> KeyOf(location1).Some? && KeyOf(location2).Some?
    ensures KeyOf(location1).None? ==> res == ComparisonFailed(NotFound(location1))
    ensures KeyOf(location1).Some? && KeyOf(location2).None? ==> res == ComparisonFailed(NotFound(location2))
    ensures res.Compared? ==>
      res.location1 == GenerateCurrentWeather(WeatherData()[KeyOf(location1).value].1, r1) &&
      res.location2 == GenerateCurrentWeather(WeatherData()[KeyOf(location2).value].1, r2) &&
      res.differences == Compare(res.location1, res.location2) &&
      res.recommendation == Recommend(res.location1, res.location2).Text()
  {
    match KeyOf(location1)
    case None => ComparisonFailed(NotFound(location1))
    case Some(i) =>
      match KeyOf(location2)
      case None => ComparisonFailed(NotFound(location2))
      case Some(j) =>
        var w1 := GenerateCurrentWeather(WeatherData()[i].1, r1);
        var w2 := GenerateCurrentWeather(WeatherData()[j].1, r2);
        Compared(w1, w2, Compare(w1, w2), Recommend(w1, w2).Text())
  }

  /** Two spellings of the same place are zero metres apart, and two
      different places' elevation gap does not depend on their order. */
  lemma ElevationDiffOfComparison(location1: string, location2: string, r1: Reading, r2: Reading)
    requires CompareLocations(location1, location2, r1, r2).Compared?
    ensures Normalize(location1) == Normalize(location2) ==>
      CompareLocations(location1, location2, r1, r2).differences.elevationDiff == 0
    ensures CompareLocations(location2, location1, r2, r1).Compared?
    ensures CompareLocations(location1, location2, r1, r2).differences ==
            CompareLocations(location2, location1, r2, r1).differences
  {
    var a := CompareLocations(location1, location2, r1, r2);
    var b := CompareLocations(location2, location1, r2, r1);
    assert b.location1 == a.location2 && b.location2 == a.location1;
    assert AbsReal(a.location1.temperature - a.location2.temperature) ==
           AbsReal(a.location2.temperature - a.location1.temperature);
  }

  // ---------------------------------------------------------------------------
  // Dispatch

  /** A JSON argument: a string, an integer, a number with a fractional
      part or exponent (a Python float), or anything else. */
  datatype ParamValue = Str(s: string) | Int(i: int) | Float(x: real) | Other

  datatype Response =
    | CurrentResponse(current: CurrentResult)
    | ForecastResponse(forecast: ForecastResult)
    | SkiResponse(ski: SkiResult)
    | ComparisonResponse(comparison: ComparisonResult)
    | UnknownMethod(error: string)
    /** The handler raised (missing, unexpected or ill-typed arguments); the
        exception's text is not modelled. */
    | HandlerFailed

  /** Calling a handler with `**params` binds: every required parameter is
      given, and nothing but the handler's own parameters. */
  predicate Binds(params: map<string, ParamValue>, required: set<string>, optional: set<string>)
  {
    required <= params.Keys <= required + optional
  }

  predicate IsStr(params: map<string, ParamValue>, name: string)
  {
    name in params && params[name].Str?
  }

  const Handlers: seq<string> := ["get_current_weather", "get_weather_forecast", "get_ski_conditions",
                                  "compare_locations"]

  /** `days` after `max(1, min(days, 5))`: an integer stays an integer; a
      float outside `(1, 5]` is replaced by the integer bound, while a float
      inside it stays a float, which `range()` then rejects. */
  function ClampedDays(v: ParamValue): (d: Option<int>)
    requires v.Int? || v.Float?
    ensures v.Int? ==> d.Some? && 1 <= d.value <= 5
    ensures v.Int? && 1 <= v.i <= 5 ==> d == Some(v.i)
    ensures v.Float? ==> (d.None? <==> 1.0 < v.x <= 5.0)
    ensures v.Float? && v.x > 5.0 ==> d == Some(5)
    ensures v.Float? && v.x <= 1.0 ==> d == Some(1)
  {
    if v.Int? then Some(if 5 < v.i then 5 else if v.i < 1 then 1 else v.i)
    else if 5.0 < v.x then Some(5)
    else if 1.0 < v.x then None
    else Some(1)
  }

  predicate ForecastArgs(params: map<string, ParamValue>)
  {
    Binds(params, {"location"}, {"days"}) && IsStr(params, "location") &&
    ("days" in params ==> params["days"].Int? || params["days"].Float?)
  }

  /** The four method names go to their handlers, with the forecast's
      `days` defaulting to 5; any other name is an "Unknown method" error. */
  function HandleRequest(m: string, params: map<string, ParamValue>, r1: Reading, r2: Reading,
                         forecastDraw: nat -> DayReading, month: int, skiDraw: SkiDraw): (resp: Response)
    ensures m !in Handlers <==> resp.UnknownMethod?
    ensures resp.UnknownMethod? ==> resp.error == "Unknown method: " + m
    ensures resp.CurrentResponse? ==> m == "get_current_weather"
    ensures resp.ForecastResponse? ==> m == "get_weather_forecast"
    ensures resp.SkiResponse? ==> m == "get_ski_conditions"
    ensures resp.ComparisonResponse? ==> m == "compare_locations"
    ensures resp.HandlerFailed? ==> m in Handlers
    ensures m == "get_current_weather" ==>
      (Binds(params, {"location"}, {}) && IsStr(params, "location") <==> !resp.HandlerFailed?) &&
      (!resp.HandlerFailed? ==> resp == CurrentResponse(GetCurrentWeather(params["location"].s, r1)))
    ensures m == "get_weather_forecast" && ForecastArgs(params) && "days" !in params ==>
      resp == ForecastResponse(GetWeatherForecast(params["location"].s, 5, forecastDraw))
    ensures m == "get_weather_forecast" && ForecastArgs(params) && "days" in params &&
            ClampedDays(params["days"]).Some? ==>
      resp == ForecastResponse(GetWeatherForecast(params["location"].s, ClampedDays(params["days"]).value,
                                                  forecastDraw))
    ensures m == "get_weather_forecast" && ForecastArgs(params) && "days" in params &&
            ClampedDays(params["days"]).None? ==>
      (resp.HandlerFailed? <==> KeyOf(params["location"].s).Some?) &&
      (!resp.HandlerFailed? ==> resp.ForecastResponse? && resp.forecast.ForecastNotFound?)
    ensures m == "get_weather_forecast" && !ForecastArgs(params) ==> resp.HandlerFailed?
    ensures m == "get_ski_conditions" ==>
      (Binds(params, {"resort"}, {}) && IsStr(params, "resort") <==> !resp.HandlerFailed?) &&
      (!resp.HandlerFailed? ==> resp == SkiResponse(GetSkiConditions(params["resort"].s, month, skiDraw)))
    ensures m == "compare_locations" ==>
      ((Binds(params, {"location1", "location2"}, {}) && IsStr(params, "location1") &&
        IsStr(params, "location2")) <==> !resp.HandlerFailed?) &&
      (!resp.HandlerFailed? ==>
         resp == ComparisonResponse(CompareLocations(params["location1"].s, params["location2"].s, r1, r2)))
  {
    if m == "get_current_weather" then
      if Binds(params, {"location"}, {}) && IsStr(params, "location") then
        CurrentResponse(GetCurrentWeather(params["location"].s, r1))
      else HandlerFailed
    else if m == "get_weather_forecast" then
      if ForecastArgs(params) then
        var location := params["location"].s;
        var days := if "days" in params then ClampedDays(params["days"]) else Some(5);
        if days.Some? then ForecastResponse(GetWeatherForecast(location, days.value, forecastDraw))
        // the lookup runs first; only a known place reaches `range(days)`
        else if KeyOf(location).None? then
          ForecastResponse(ForecastNotFound(NotFound(location), Keys(WeatherData())))
        else HandlerFailed
      else HandlerFailed
    else if m == "get_ski_conditions" then
      if Binds(params, {"resort"}, {}) && IsStr(params, "resort") then
        SkiResponse(GetSkiConditions(params["resort"].s, month, skiDraw))
      else HandlerFailed
    else if m == "compare_locations" then
      if Binds(params, {"location1", "location2"}, {}) && IsStr(params, "location1") &&
         IsStr(params, "location2") then
        ComparisonResponse(CompareLocations(params["location1"].s, params["location2"].s, r1, r2))
      else HandlerFailed
    else UnknownMethod("Unknown method: " + m)
  }

  /** A forecast request naming a known place and no `days` gets five days. */
  lemma DefaultForecastIsFiveDays(location: string, r1: Reading, r2: Reading,
                                  forecastDraw: nat -> DayReading, month: int, skiDraw: SkiDraw)
    requires KeyOf(location).Some?
    ensures var resp := HandleRequest("get_weather_forecast", map["location" := Str(location)],
                                      r1, r2, forecastDraw, month, skiDraw);
      resp.ForecastResponse? && resp.forecast.Forecast? && |resp.forecast.forecast| == 5
  {
    var params := map["location" := Str(location)];
    assert params.Keys == {"location"};
  }
}
