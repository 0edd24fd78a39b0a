/**
 * Weather decoding of `src/lib/weather.ts`: WMO weather-code
 * interpretation, the index-wise zip of Open-Meteo's daily arrays into
 * forecast records, and the place-name fallback chain of the Nominatim
 * reverse geocoder.
 *
 * The HTTP requests are not modelled: responses arrive as already-parsed
 * records, and temperatures are whole degrees.
 */
module WeatherDecoding {
  import opened Wrappers
  import opened Text

  /** The interpretation table of the WMO weather codes the application knows. */
  const WeatherCodeMap: map<int, string> := map[
    0 := "Clear sky",
    1 := "Mainly clear",
    2 := "Partly cloudy",
    3 := "Overcast",
    45 := "Foggy",
    48 := "Depositing rime fog",
    51 := "Light drizzle",
    53 := "Moderate drizzle",
    55 := "Dense drizzle",
    61 := "Slight rain",
    63 := "Moderate rain",
    65 := "Heavy rain",
    71 := "Slight snow",
    73 := "Moderate snow",
    75 := "Heavy snow",
    80 := "Slight rain showers",
    81 := "Moderate rain showers",
    82 := "Violent rain showers",
    95 := "Thunderstorm"
  ]

  /** `weatherCodeMap[code] || "Sunny"`: the table text, or "Sunny" for a missing (or empty) entry. */
  function Condition(code: int): (r: string)
    ensures code in WeatherCodeMap ==> r == WeatherCodeMap[code]
    ensures code !in WeatherCodeMap ==> r == "Sunny"
    ensures r != ""
  {
    if code in WeatherCodeMap && WeatherCodeMap[code] != "" then WeatherCodeMap[code] else "Sunny"
  }

  /** `text.toLowerCase().includes("rain")`. */
  predicate MentionsRain(text: string)
  {
    Contains(Lower(text), "rain")
  }

  /** The four characters at an occurrence of "rain" in lowered text. */
  lemma RainAt(s: string, i: int)
    requires 0 <= i <= |s| - 4 && At(Lower(s), "rain", i)
    ensures LowerChar(s[i]) == 'r' && LowerChar(s[i + 1]) == 'a'
    ensures LowerChar(s[i + 2]) == 'i' && LowerChar(s[i + 3]) == 'n'
  {
    AtChars(Lower(s), "rain", i, 0);
    AtChars(Lower(s), "rain", i, 1);
    AtChars(Lower(s), "rain", i, 2);
    AtChars(Lower(s), "rain", i, 3);
  }

  /** A text without the letters r, a, i, n in a row (in either case) does not mention rain. */
  lemma NoRain(s: string)
    requires forall i :: 0 <= i <= |s| - 4 ==>
      !(LowerChar(s[i]) == 'r' && LowerChar(s[i + 1]) == 'a' && LowerChar(s[i + 2]) == 'i' && LowerChar(s[i + 3]) == 'n')
    ensures !MentionsRain(s)
  {
    if MentionsRain(s) {
      var i :| 0 <= i <= |s| - 4 && At(Lower(s), "rain", i);
      RainAt(s, i);
      assert false;
    }
  }

  /** The codes whose condition mentions rain. */
  const RainCodes: set<int> := {61, 63, 65, 80, 81, 82}

  /** The clear and cloudy conditions and the fallback do not mention rain. */
  lemma ClearIsDry()
    ensures !MentionsRain("Sunny") && !MentionsRain("Clear sky") && !MentionsRain("Mainly clear")
    ensures !MentionsRain("Partly cloudy") && !MentionsRain("Overcast")
  {
    NoRain("Sunny");
    NoRain("Clear sky");
    NoRain("Mainly clear");
    NoRain("Partly cloudy");
    NoRain("Overcast");
  }

  /** Fog and drizzle do not mention rain. */
  lemma DrizzleIsDry()
    ensures !MentionsRain("Foggy") && !MentionsRain("Depositing rime fog")
    ensures !MentionsRain("Light drizzle") && !MentionsRain("Moderate drizzle") && !MentionsRain("Dense drizzle")
  {
    NoRain("Foggy");
    NoRain("Depositing rime fog");
    NoRain("Light drizzle");
    NoRain("Moderate drizzle");
    NoRain("Dense drizzle");
  }

  /** Snow and thunderstorms do not mention rain. */
  lemma SnowIsDry()
    ensures !MentionsRain("Slight snow") && !MentionsRain("Moderate snow") && !MentionsRain("Heavy snow")
    ensures !MentionsRain("Thunderstorm")
  {
    NoRain("Slight snow");
    NoRain("Moderate snow");
    NoRain("Heavy snow");
    NoRain("Thunderstorm");
  }

  /** The rain and rain-shower conditions mention rain. */
  lemma RainIsWet()
    ensures MentionsRain("Slight rain") && MentionsRain("Moderate rain") && MentionsRain("Heavy rain")
    ensures MentionsRain("Slight rain showers") && MentionsRain("Moderate rain showers")
    ensures MentionsRain("Violent rain showers")
  {
    assert At(Lower("Slight rain"), "rain", 7);
    assert At(Lower("Moderate rain"), "rain", 9);
    assert At(Lower("Heavy rain"), "rain", 6);
    assert At(Lower("Slight rain showers"), "rain", 7);
    assert At(Lower("Moderate rain showers"), "rain", 9);
    assert At(Lower("Violent rain showers"), "rain", 8);
  }

  /**
   * The conditions that mention rain are exactly those of codes 61, 63, 65
   * and 80 to 82; drizzle, snow, thunderstorm and the "Sunny" fallback do not.
   */
  lemma RainConditions(code: int)
    ensures MentionsRain(Condition(code)) <==> code in RainCodes
  {
    ClearIsDry();
    DrizzleIsDry();
    SnowIsDry();
    RainIsWet();
  }

  /** One day of the forecast. */
  datatype DailyForecast = DailyForecast(date: string, tempMax: int, weatherCode: int, condition: string)

  /** Today's weather and the days ahead. */
  datatype WeatherData = WeatherData(
    temp: int,
    condition: string,
    location: string,
    isDay: bool,
    weatherCode: int,
    forecast: seq<DailyForecast>)

  /** The `daily` block of an Open-Meteo response: parallel arrays indexed by day. */
  datatype DailyResponse = DailyResponse(time: seq<string>, temperatureMax: seq<int>, weatherCode: seq<int>)

  /** The `current` block of an Open-Meteo response. */
  datatype CurrentResponse = CurrentResponse(temperature: int, isDay: int, weatherCode: int)

  /** The outcome of the forecast request: a non-OK status or a parsed body. */
  datatype WeatherResponse =
    | WeatherHttpError
    | WeatherBody(current: CurrentResponse, daily: DailyResponse)

  /** The daily arrays have a value for every listed day. */
  predicate WellFormed(daily: DailyResponse)
  {
    |daily.temperatureMax| >= |daily.time| && |daily.weatherCode| >= |daily.time|
  }

  /** The forecast entry for day `i`. */
  function DayEntry(daily: DailyResponse, i: nat): DailyForecast
    requires WellFormed(daily) && i < |daily.time|
  {
    DailyForecast(daily.time[i], daily.temperatureMax[i], daily.weatherCode[i], Condition(daily.weatherCode[i]))
  }

  /** `daily.time.map(...)` from day `i` on. */
  function ForecastFrom(daily: DailyResponse, i: nat): (r: seq<DailyForecast>)
    requires WellFormed(daily) && i <= |daily.time|
    ensures |r| == |daily.time| - i
    ensures forall k :: 0 <= k < |r| ==> r[k] == DayEntry(daily, i + k)
    decreases |daily.time| - i
  {
    if i == |daily.time| then [] else [DayEntry(daily, i)] + ForecastFrom(daily, i + 1)
  }

  /** The forecast: one entry per day of `daily.time`, in order, each decoded from that day's values. */
  function Forecast(daily: DailyResponse): (r: seq<DailyForecast>)
    requires WellFormed(daily)
    ensures |r| == |daily.time|
    ensures forall k :: 0 <= k < |r| ==>
      r[k].date == daily.time[k] && r[k].tempMax == daily.temperatureMax[k] &&
      r[k].weatherCode == daily.weatherCode[k] && r[k].condition == Condition(daily.weatherCode[k])
  {
    ForecastFrom(daily, 0)
  }

  /** The forecast dates are the response's dates, so decoding loses no day. */
  lemma ForecastDates(daily: DailyResponse)
    requires WellFormed(daily)
    ensures seq(|Forecast(daily)|, k requires 0 <= k < |Forecast(daily)| => Forecast(daily)[k].date) == daily.time
  {
  }

  /** The body of `fetchWeather` once the request is answered; a non-OK status rejects. */
  function DecodeWeather(resp: WeatherResponse): (r: Result<WeatherData, string>)
    requires resp.WeatherBody? ==> WellFormed(resp.daily)
    ensures resp.WeatherHttpError? <==> r.Failure?
    ensures r.Failure? ==> r.error == "Weather fetch failed"
    ensures r.Success? ==>
      && r.value.location == "Current Location"
      && (r.value.isDay <==> resp.current.isDay == 1)
      && r.value.temp == resp.current.temperature
      && r.value.weatherCode == resp.current.weatherCode
      && r.value.condition == Condition(resp.current.weatherCode)
      && r.value.forecast == Forecast(resp.daily)
  {
    match resp
    case WeatherHttpError => Failure("Weather fetch failed")
    case WeatherBody(current, daily) =>
      Success(WeatherData(
        current.temperature,
        Condition(current.weatherCode),
        "Current Location",
        current.isDay == 1,
        current.weatherCode,
        Forecast(daily)))
  }

  /** The current condition mentions rain exactly for the rain codes, whatever else the response holds. */
  lemma DecodedRain(resp: WeatherResponse)
    requires resp.WeatherBody? && WellFormed(resp.daily)
    ensures MentionsRain(DecodeWeather(resp).value.condition) <==> resp.current.weatherCode in RainCodes
  {
    RainConditions(resp.current.weatherCode);
  }

  /** The `address` block of a Nominatim response; a field JSON leaves out is `None`. */
  datatype Address = Address(city: Option<string>, town: Option<string>, village: Option<string>, suburb: Option<string>)

  /** The outcome of the reverse-geocoding request. */
  datatype GeocodeResponse =
    | GeocodeHttpError
    | GeocodeBody(address: Option<Address>)
    | GeocodeThrown

  /** JavaScript truthiness of an optional string: present and not empty. */
  predicate Truthy(o: Option<string>)
  {
    o.Some? && o.value != ""
  }

  /** Position `i` holds the first truthy value. */
  predicate FirstTruthyAt(xs: seq<Option<string>>, i: int)
  {
    0 <= i < |xs| && Truthy(xs[i]) && forall j :: 0 <= j < i ==> !Truthy(xs[j])
  }

  /** `xs[0] || xs[1] || ... || fallback`. */
  function FirstTruthy(xs: seq<Option<string>>, fallback: string): (r: string)
    ensures forall i :: FirstTruthyAt(xs, i) ==> r == xs[i].value
    ensures (forall i :: 0 <= i < |xs| ==> !Truthy(xs[i])) ==> r == fallback
    ensures r == fallback || exists i :: FirstTruthyAt(xs, i)
    ensures fallback != "" ==> r != ""
  {
    if xs == [] then fallback
    else if Truthy(xs[0]) then
      assert FirstTruthyAt(xs, 0);
      xs[0].value
    else
      var r := FirstTruthy(xs[1..], fallback);
      assert forall i :: FirstTruthyAt(xs, i) ==> i > 0 && FirstTruthyAt(xs[1..], i - 1);
      assert forall i :: FirstTruthyAt(xs[1..], i) ==> FirstTruthyAt(xs, i + 1);
      r
  }

  /** The address fields in the order the name is looked for. */
  function NameFields(a: Address): seq<Option<string>>
  {
    [a.city, a.town, a.village, a.suburb]
  }

  /**
   * `reverseGeocode`: "Unknown Location" on a non-OK status; otherwise the
   * first non-empty of city, town, village and suburb, with "London, UK" as
   * the fallback. A body without an address makes the field access throw,
   * which ends in the same fallback as any other thrown error.
   */
  function LocationName(resp: GeocodeResponse): (r: string)
    ensures resp.GeocodeHttpError? ==> r == "Unknown Location"
    ensures resp.GeocodeThrown? ==> r == "London, UK"
    ensures resp.GeocodeBody? && resp.address.None? ==> r == "London, UK"
    ensures resp.GeocodeBody? && resp.address.Some? ==>
      forall i :: FirstTruthyAt(NameFields(resp.address.value), i) ==> r == NameFields(resp.address.value)[i].value
    ensures resp.GeocodeBody? && resp.address.Some? ==>
      (forall i :: 0 <= i < 4 ==> !Truthy(NameFields(resp.address.value)[i])) ==> r == "London, UK"
    ensures r != ""
  {
    match resp
    case GeocodeHttpError => "Unknown Location"
    case GeocodeThrown => "London, UK"
    case GeocodeBody(address) =>
      match address
      case None => "London, UK"
      case Some(a) => FirstTruthy(NameFields(a), "London, UK")
  }

  /** A city, when present, is always the name chosen. */
  lemma CityWins(a: Address)
    requires Truthy(a.city)
    ensures LocationName(GeocodeBody(Some(a))) == a.city.value
  {
    assert FirstTruthyAt(NameFields(a), 0);
  }

  /** With city, town and village missing or empty and a suburb present, the suburb is the name chosen. */
  lemma SuburbLast(a: Address)
    requires !Truthy(a.city) && !Truthy(a.town) && !Truthy(a.village) && Truthy(a.suburb)
    ensures LocationName(GeocodeBody(Some(a))) == a.suburb.value
  {
    assert FirstTruthyAt(NameFields(a), 3);
  }
}
