/**
 * The lookup-and-normalisation pipeline of src/services/weatherApi.ts:
 * the WMO weather-code description table, the ordered icon buckets,
 * `Math.round` on temperatures, and the assembly of a `WeatherResponse`
 * from a geocoding answer and a forecast answer, with every failure
 * collapsed into one user-facing message.
 *
 * The two HTTP calls are inputs: the geocoding answer is a value, and the
 * forecast call is a function of the coordinates it is asked for. The
 * conversion of a forecast date string into epoch seconds is a function
 * parameter `toEpoch`.
 */
module WeatherApi {
  import opened Wrappers
  import opened WeatherTypes

  // ---------------------------------------------------------------------
  // Weather descriptions (WMO weather interpretation codes, WW)
  // ---------------------------------------------------------------------

  /** The description given to every code the table does not list. */
  const UnknownWeather: string := "未知天气"

  /** The description table, keyed by WMO code. */
  const DescriptionTable: map<int, string> := map[
    0 := "晴天",
    1 := "晴间多云",
    2 := "多云",
    3 := "阴天",
    45 := "雾",
    48 := "雾凇",
    51 := "小毛毛雨",
    53 := "毛毛雨",
    55 := "大毛毛雨",
    56 := "冻毛毛雨",
    57 := "强冻毛毛雨",
    61 := "小雨",
    63 := "中雨",
    65 := "大雨",
    66 := "冻雨",
    67 := "强冻雨",
    71 := "小雪",
    73 := "中雪",
    75 := "大雪",
    77 := "雪粒",
    80 := "小阵雨",
    81 := "中阵雨",
    82 := "大阵雨",
    85 := "小阵雪",
    86 := "大阵雪",
    95 := "雷暴",
    96 := "雷暴伴有冰雹",
    99 := "大雷暴伴有冰雹"
  ]

  /** The codes that have a description of their own. */
  const KnownCodes: set<int> :=
    {0, 1, 2, 3, 45, 48, 51, 53, 55, 56, 57, 61, 63, 65, 66, 67,
     71, 73, 75, 77, 80, 81, 82, 85, 86, 95, 96, 99}

  /**
   * `getWeatherDescription`: the table entry, or the fallback. A missing
   * key reads as `undefined` and an empty entry would be falsy too; either
   * makes `||` choose the fallback.
   */
  function Description(code: int): (r: string)
    ensures r != ""
    ensures r == UnknownWeather || r in DescriptionTable.Values
    ensures code in DescriptionTable && DescriptionTable[code] != "" ==> r == DescriptionTable[code]
    ensures code !in DescriptionTable ==> r == UnknownWeather
  {
    var entry := if code in DescriptionTable then DescriptionTable[code] else "";
    if entry != "" then entry else UnknownWeather
  }

  /** The table has an entry for exactly the known codes. */
  lemma TableKeys()
    ensures DescriptionTable.Keys == KnownCodes
  {
  }

  /** Every entry of the table is non-empty and differs from the fallback. */
  lemma TableEntries()
    ensures forall c :: c in DescriptionTable ==> DescriptionTable[c] != "" && DescriptionTable[c] != UnknownWeather
  {
    forall c | c in DescriptionTable
      ensures DescriptionTable[c] != "" && DescriptionTable[c] != UnknownWeather
    {
      EntryReadable(c);
    }
  }

  /** No entry starts with the fallback's first character (checked a few keys at a time). */
  lemma EntryReadable(c: int)
    requires c in DescriptionTable
    ensures DescriptionTable[c] != "" && DescriptionTable[c][0] != UnknownWeather[0]
  {
    if c < 45 {
    } else if c < 50 {
    } else if c < 60 {
    } else if c < 75 {
    } else if c < 90 {
    } else {
    }
  }

  /**
   * The fallback fires exactly for the codes missing from the table: a known
   * code gets its own entry, and no entry reads like the fallback.
   */
  lemma DescriptionKnownIff(code: int)
    ensures code in KnownCodes ==> Description(code) == DescriptionTable[code]
    ensures Description(code) == UnknownWeather <==> code !in KnownCodes
  {
    TableKeys();
    TableEntries();
  }

  // ---------------------------------------------------------------------
  // Icons
  // ---------------------------------------------------------------------

  const IconClear: string := "01d"
  const IconPartlyCloudy: string := "02d"
  const IconOvercast: string := "03d"
  const IconRain: string := "10d"
  const IconSnow: string := "13d"
  const IconFog: string := "50d"
  const IconThunderstorm: string := "11d"

  /** The seven icon ids the pipeline ever produces. */
  const IconIds: set<string> :=
    {IconClear, IconPartlyCloudy, IconOvercast, IconRain, IconSnow, IconFog, IconThunderstorm}

  /**
   * `getWeatherIcon`: an ordered chain of range tests where the first match
   * wins. The contract gives each named bucket as an order-free condition on
   * the code; every code outside them falls to the clear-sky icon.
   */
  function Icon(code: int): (r: string)
    ensures r in IconIds
    ensures r == IconPartlyCloudy <==> code == 1 || code == 2
    ensures r == IconOvercast <==> code == 3
    ensures r == IconRain <==> 51 <= code <= 67
    ensures r == IconSnow <==> 71 <= code <= 77
    ensures r == IconFog <==> code == 45 || code == 48
    ensures r == IconThunderstorm <==> code >= 95
  {
    if code == 0 then IconClear
    else if code == 1 || code == 2 then IconPartlyCloudy
    else if code == 3 then IconOvercast
    else if code >= 51 && code <= 67 then IconRain
    else if code >= 71 && code <= 77 then IconSnow
    else if code == 45 || code == 48 then IconFog
    else if code >= 95 then IconThunderstorm
    else IconClear
  }

  /** Code 0 and every code in no named bucket (showers 80-86, negatives, gaps) get the clear-sky icon. */
  lemma DefaultIcon(code: int)
    ensures Icon(code) == IconClear <==>
      code == 0 ||
      (code < 95 && code !in {1, 2, 3, 45, 48} && !(51 <= code <= 67) && !(71 <= code <= 77))
  {
  }

  /**
   * Range order decides the bucket where the code table and the icon
   * buckets disagree: freezing rain (66) is rain, and the snow codes without
   * a description (72, 74, 76) still get the snow icon.
   */
  lemma BucketsWithoutDescriptions()
    ensures Icon(66) == IconRain && Description(66) == "冻雨"
    ensures forall c :: c in {72, 74, 76} ==> Icon(c) == IconSnow && Description(c) == UnknownWeather
  {
  }

  // ---------------------------------------------------------------------
  // Rounding
  // ---------------------------------------------------------------------

  /**
   * `Math.round` on a finite number: the nearest integer, with halves
   * rounded toward positive infinity.
   */
  function Round(x: real): (r: int)
    ensures x - 0.5 < r as real <= x + 0.5
  {
    (x + 0.5).Floor
  }

  /** Rounding keeps order, so a day's rounded minimum never exceeds its rounded maximum. */
  lemma RoundMonotone(x: real, y: real)
    requires x <= y
    ensures Round(x) <= Round(y)
  {
  }

  // ---------------------------------------------------------------------
  // Provider answers
  // ---------------------------------------------------------------------

  /** An awaited HTTP call: the response body, or a rejected request (transport or non-2xx). */
  datatype Http<T> = Ok(body: T) | RequestError

  /** One geocoding match; `country` is optional in the provider's answer. */
  datatype GeoResult = GeoResult(name: string, country: Option<string>, latitude: real, longitude: real)

  /** The geocoding body; `results` may be missing altogether. */
  datatype GeoBody = GeoBody(results: Option<seq<GeoResult>>)

  /** The forecast's `daily` block: index-aligned series, one element per day. */
  datatype DailyPayload = DailyPayload(
    time: seq<string>,
    weathercode: seq<int>,
    temperatureMax: seq<real>,
    temperatureMin: seq<real>)

  /** The forecast body; a body without `daily` makes the assembly throw. */
  datatype ForecastBody = ForecastBody(daily: Option<DailyPayload>)

  /** Why a lookup failed, before the failure is collapsed for the caller. */
  datatype Failure = CityNotFound | RequestFailed | MalformedForecast

  /** The one message every failure reaches the caller with. */
  const FetchFailedMessage: string := "获取天气数据失败，请检查城市名称是否正确"

  /** The country used when the geocoder gives none. */
  const DefaultCountry: string := "CN"

  /** Every series the assembly reads at index i has an element there. */
  predicate Covers(d: DailyPayload) {
    && |d.time| <= |d.weathercode|
    && |d.time| <= |d.temperatureMax|
    && |d.time| <= |d.temperatureMin|
  }

  /** A forecast answer whose `daily` block, when present, can be assembled. */
  predicate Assemblable(forecast: Http<ForecastBody>) {
    forecast.Ok? && forecast.body.daily.Some? ==> Covers(forecast.body.daily.value)
  }

  // ---------------------------------------------------------------------
  // Assembly
  // ---------------------------------------------------------------------

  /** The record built for one day from that day's date, code and temperatures. */
  function Day(date: string, code: int, max: real, min: real, toEpoch: string -> int): (w: WeatherData)
  {
    WeatherData(
      toEpoch(date),
      Temp(Round(max), Round(min), Round(max)),
      [Condition(Description(code), Description(code), Icon(code))],
      0,
      0)
  }

  /** What every assembled day looks like. */
  lemma DayShape(date: string, code: int, max: real, min: real, toEpoch: string -> int)
    ensures var w := Day(date, code, max, min, toEpoch);
      && w.dt == toEpoch(date)
      && w.temp.day == w.temp.max == Round(max)
      && w.temp.min == Round(min)
      && (min <= max ==> w.temp.min <= w.temp.max)
      && |w.weather| == 1
      && w.weather[0].main == w.weather[0].description == Description(code)
      && w.weather[0].icon == Icon(code) && w.weather[0].icon in IconIds
      && w.humidity == 0 && w.windSpeed == 0
  {
    if min <= max {
      RoundMonotone(min, max);
    }
  }

  /** The payload with its first day removed. */
  function Later(d: DailyPayload): (e: DailyPayload)
    requires |d.time| > 0 && Covers(d)
    ensures Covers(e) && |e.time| == |d.time| - 1
  {
    DailyPayload(d.time[1..], d.weathercode[1..], d.temperatureMax[1..], d.temperatureMin[1..])
  }

  /**
   * `daily.time.map((date, index) => ...)`: one record per date, in order,
   * the i-th built from index i of every series.
   */
  function DailyForecasts(d: DailyPayload, toEpoch: string -> int): (r: seq<WeatherData>)
    requires Covers(d)
    ensures |r| == |d.time|
    ensures forall i :: 0 <= i < |r| ==>
      r[i] == Day(d.time[i], d.weathercode[i], d.temperatureMax[i], d.temperatureMin[i], toEpoch)
    decreases |d.time|
  {
    if |d.time| == 0 then []
    else
      [Day(d.time[0], d.weathercode[0], d.temperatureMax[0], d.temperatureMin[0], toEpoch)]
      + DailyForecasts(Later(d), toEpoch)
  }

  /** Dates that convert to increasing instants give days in increasing `dt` order. */
  lemma DailySorted(d: DailyPayload, toEpoch: string -> int)
    requires Covers(d)
    requires forall i, j :: 0 <= i < j < |d.time| ==> toEpoch(d.time[i]) < toEpoch(d.time[j])
    ensures var r := DailyForecasts(d, toEpoch);
      forall i, j :: 0 <= i < j < |r| ==> r[i].dt < r[j].dt
  {
  }

  /** `location.country || 'CN'`: a present, non-empty country, else the default. */
  function CountryOrDefault(country: Option<string>): (c: string)
    ensures c != ""
    ensures country.Some? && country.value != "" ==> c == country.value
    ensures country.None? || country.value == "" ==> c == DefaultCountry
  {
    if country.Some? && country.value != "" then country.value else DefaultCountry
  }

  /** The geocoding step: the first match, or why there is none. */
  function Locate(geo: Http<GeoBody>): (r: Result<GeoResult, Failure>)
    ensures r.Success? <==> geo.Ok? && geo.body.results.Some? && |geo.body.results.value| > 0
    ensures r.Success? ==> r.value == geo.body.results.value[0]
    ensures geo.RequestError? ==> r == Failure(RequestFailed)
    ensures geo.Ok? && r.Failure? ==> r.error == CityNotFound
  {
    match geo
    case RequestError => Failure(RequestFailed)
    case Ok(body) =>
      if body.results.None? || |body.results.value| == 0 then Failure(CityNotFound)
      else Success(body.results.value[0])
  }

  /** The forecast call made for the first geocoding match has an assemblable answer. */
  predicate ForecastAssemblable(geo: Http<GeoBody>, fetchForecast: (real, real) -> Http<ForecastBody>) {
    Locate(geo).Success? ==>
      Assemblable(fetchForecast(Locate(geo).value.latitude, Locate(geo).value.longitude))
  }

  /**
   * The body of the `try` in `getWeatherData`: geocode, fetch the forecast
   * for the first match's coordinates, and assemble the response, keeping
   * the reason of a failure.
   */
  function FetchWeather(geo: Http<GeoBody>, fetchForecast: (real, real) -> Http<ForecastBody>, toEpoch: string -> int)
    : (r: Result<WeatherResponse, Failure>)
    requires ForecastAssemblable(geo, fetchForecast)
    ensures r.Success? <==>
      && geo.Ok? && geo.body.results.Some? && |geo.body.results.value| > 0
      && var loc := geo.body.results.value[0];
         var f := fetchForecast(loc.latitude, loc.longitude);
         f.Ok? && f.body.daily.Some?
    ensures r.Success? ==>
      var loc := geo.body.results.value[0];
      var d := fetchForecast(loc.latitude, loc.longitude).body.daily.value;
      && Covers(d)
      && r.value.city == City(loc.name, CountryOrDefault(loc.country))
      && |r.value.daily| == |d.time|
      && r.value.daily == DailyForecasts(d, toEpoch)
    ensures geo.RequestError? ==> r == Failure(RequestFailed)
    ensures geo.Ok? && (geo.body.results.None? || geo.body.results.value == []) ==> r == Failure(CityNotFound)
  {
    match Locate(geo)
    case Failure(e) => Failure(e)
    case Success(location) =>
      match fetchForecast(location.latitude, location.longitude)
      case RequestError => Failure(RequestFailed)
      case Ok(body) =>
        match body.daily
        case None => Failure(MalformedForecast)
        case Some(d) =>
          Success(WeatherResponse(
            DailyForecasts(d, toEpoch),
            City(location.name, CountryOrDefault(location.country))))
  }

  /**
   * `getWeatherData`: the pipeline as the caller sees it. A success is
   * passed through whole; every failure, whatever its reason, becomes the
   * same fixed message.
   */
  function GetWeatherData(geo: Http<GeoBody>, fetchForecast: (real, real) -> Http<ForecastBody>, toEpoch: string -> int)
    : (r: Result<WeatherResponse, string>)
    requires ForecastAssemblable(geo, fetchForecast)
    ensures r.Failure? ==> r.error == FetchFailedMessage
    ensures r.Success? <==> FetchWeather(geo, fetchForecast, toEpoch).Success?
    ensures r.Success? ==> r.value == FetchWeather(geo, fetchForecast, toEpoch).value
  {
    match FetchWeather(geo, fetchForecast, toEpoch)
    case Success(response) => Success(response)
    case Failure(_) => Failure(FetchFailedMessage)
  }

  /** A missing or empty `results` fails the whole call with the fixed message. */
  lemma NoMatchFails(geo: Http<GeoBody>, fetchForecast: (real, real) -> Http<ForecastBody>, toEpoch: string -> int)
    requires geo.Ok? && (geo.body.results.None? || geo.body.results.value == [])
    ensures ForecastAssemblable(geo, fetchForecast)
    ensures GetWeatherData(geo, fetchForecast, toEpoch) == Failure(FetchFailedMessage)
  {
  }

  /**
   * The caller cannot tell failures apart: "city not found", a rejected
   * request and a malformed forecast all give the same result, although
   * the pipeline distinguished them before collapsing them.
   */
  lemma FailuresIndistinguishable(
    geo1: Http<GeoBody>, fetch1: (real, real) -> Http<ForecastBody>,
    geo2: Http<GeoBody>, fetch2: (real, real) -> Http<ForecastBody>,
    toEpoch: string -> int)
    requires ForecastAssemblable(geo1, fetch1) && ForecastAssemblable(geo2, fetch2)
    requires FetchWeather(geo1, fetch1, toEpoch).Failure? && FetchWeather(geo2, fetch2, toEpoch).Failure?
    ensures GetWeatherData(geo1, fetch1, toEpoch) == GetWeatherData(geo2, fetch2, toEpoch)
  {
  }

  /**
   * A successful call never carries a partial forecast: day i of the answer
   * is assembled from day i of the provider's series, for every i.
   */
  lemma SuccessIsComplete(geo: Http<GeoBody>, fetchForecast: (real, real) -> Http<ForecastBody>, toEpoch: string -> int, i: int)
    requires ForecastAssemblable(geo, fetchForecast)
    requires GetWeatherData(geo, fetchForecast, toEpoch).Success?
    ensures var loc := geo.body.results.value[0];
      var d := fetchForecast(loc.latitude, loc.longitude).body.daily.value;
      var daily := GetWeatherData(geo, fetchForecast, toEpoch).value.daily;
      && |daily| == |d.time|
      && (0 <= i < |daily| ==>
            && daily[i].dt == toEpoch(d.time[i])
            && daily[i].temp == Temp(Round(d.temperatureMax[i]), Round(d.temperatureMin[i]), Round(d.temperatureMax[i]))
            && daily[i].weather == [Condition(Description(d.weathercode[i]), Description(d.weathercode[i]), Icon(d.weathercode[i]))]
            && daily[i].humidity == 0 && daily[i].windSpeed == 0)
  {
  }
}
