/** The seven-day forecast the application synthesises (App.tsx,
    `generateWeather`). The random draws, today's weekday and the formatted
    dates are parameters. `GenerateWeather` follows the branch chain as the
    source orders it; `GenerateWeatherIntended` orders the thresholds from
    the highest down, which the unused rain and storm branches evidently
    call for. */
module Weather {
  import opened Records

  /** The draws one day consumes, each in [0, 1): the condition draw, then
      humidity, wind and temperature, then the rain draw a cloudy or wet day
      uses. */
  datatype DayDraws = DayDraws(condition: real, humidity: real, wind: real, temp: real, rain: real)

  predicate UnitInterval(x: real) {
    0.0 <= x < 1.0
  }

  predicate ValidDraws(d: DayDraws) {
    UnitInterval(d.condition) && UnitInterval(d.humidity) && UnitInterval(d.wind)
    && UnitInterval(d.temp) && UnitInterval(d.rain)
  }

  const ForecastDays := 7
  const WeekdayNames := ["Sun", "Mon", "Tue", "Wed", "Thu", "Fri", "Sat"]

  /** `base + Math.floor(u * span)` */
  function Spread(base: int, u: real, span: int): (r: int)
    requires UnitInterval(u) && span > 0
    ensures base <= r < base + span
  {
    ScaledDrawBelowSpan(u, span);
    base + (u * span as real).Floor
  }

  /** A draw from [0, 1) scaled by a positive span stays in [0, span). */
  lemma ScaledDrawBelowSpan(u: real, span: int)
    requires UnitInterval(u) && span > 0
    ensures 0.0 <= u * span as real < span as real
  {
    var s := span as real;
    assert 0.0 <= u * s;
    assert s - u * s == (1.0 - u) * s;
    assert (1.0 - u) * s > 0.0;
  }

  /** Spraying is advised against in rain or wind. */
  predicate SpraySafe(rainChance: int, windSpeed: int) {
    rainChance < 40 && windSpeed < 18
  }

  /** The label of day `i`: "Today", then the weekday names. */
  function DayName(i: nat, weekday: nat): string {
    if i == 0 then "Today" else WeekdayNames[(weekday + i) % 7]
  }

  /** One day of the forecast, branches in the order the source tests them.
      The rain draw is turned into each branch's range up front; only the
      branch taken uses it. */
  function GenerateDay(i: nat, weekday: nat, date: string, d: DayDraws): (w: DailyWeather)
    requires ValidDraws(d)
    ensures w.day == DayName(i, weekday) && w.date == date
    ensures w.isSpraySafe == SpraySafe(w.rainChance, w.windSpeed)
  {
    var humidity := Spread(40, d.humidity, 20);
    var wind := Spread(5, d.wind, 15);
    var temp := Spread(30, d.temp, 8);
    var cloudRain, lightRain, stormRain := Spread(10, d.rain, 20), Spread(40, d.rain, 30), Spread(80, d.rain, 20);
    var (condition, rain, wind', temp', humidity') :=
      if d.condition > 0.7 then ("Partly Cloudy", cloudRain, wind, temp, humidity)
      else if d.condition > 0.85 then ("Light Rain", lightRain, wind, temp - 3, humidity + 20)
      else if d.condition > 0.95 then ("Thunderstorm", stormRain, wind + 15, temp - 5, humidity + 30)
      else ("Sunny", 0, wind, temp, humidity);
    DailyWeather(date, DayName(i, weekday), temp', condition, rain, wind', humidity', SpraySafe(rain, wind'))
  }

  /** `generateWeather` as written. */
  function GenerateWeather(draws: seq<DayDraws>, weekday: nat, dates: seq<string>): (r: seq<DailyWeather>)
    requires |draws| == ForecastDays && |dates| == ForecastDays
    requires forall i :: 0 <= i < |draws| ==> ValidDraws(draws[i])
    ensures |r| == ForecastDays
    ensures r[0].day == "Today"
    ensures forall i :: 0 <= i < |r| ==> r[i].date == dates[i] && r[i].day == DayName(i, weekday)
    ensures forall i :: 0 <= i < |r| ==> r[i].isSpraySafe == SpraySafe(r[i].rainChance, r[i].windSpeed)
  {
    seq(ForecastDays, i requires 0 <= i < ForecastDays => GenerateDay(i, weekday, dates[i], draws[i]))
  }

  /** Because `> 0.7` is compared first, the rain and storm branches can never
      run: every day is sunny and dry, or partly cloudy with a 10-29% chance
      of rain, and the usual ranges hold. */
  lemma OnlyDryDays(draws: seq<DayDraws>, weekday: nat, dates: seq<string>)
    requires |draws| == ForecastDays && |dates| == ForecastDays
    requires forall i :: 0 <= i < |draws| ==> ValidDraws(draws[i])
    ensures var r := GenerateWeather(draws, weekday, dates);
      forall i :: 0 <= i < |r| ==>
        && ((r[i].condition == "Sunny" && r[i].rainChance == 0)
            || (r[i].condition == "Partly Cloudy" && 10 <= r[i].rainChance < 30))
        && 40 <= r[i].humidity < 60 && 5 <= r[i].windSpeed < 20 && 30 <= r[i].temp < 38
  {
  }

  /** So spray safety comes down to the wind alone. */
  lemma SpraySafeIffCalm(draws: seq<DayDraws>, weekday: nat, dates: seq<string>)
    requires |draws| == ForecastDays && |dates| == ForecastDays
    requires forall i :: 0 <= i < |draws| ==> ValidDraws(draws[i])
    ensures var r := GenerateWeather(draws, weekday, dates);
      forall i :: 0 <= i < |r| ==> (r[i].isSpraySafe <==> r[i].windSpeed < 18)
  {
    OnlyDryDays(draws, weekday, dates);
  }

  /** The storm day the as-written chain never produces: a draw of 0.99
      gives a partly cloudy day. */
  lemma HighDrawIsNotStorm(weekday: nat, date: string)
    ensures GenerateDay(0, weekday, date, DayDraws(0.99, 0.0, 0.0, 0.0, 0.0)).condition == "Partly Cloudy"
  {
  }

  // ---------------------------------------------------------------------
  // Thresholds compared from the highest down
  // ---------------------------------------------------------------------

  function GenerateDayIntended(i: nat, weekday: nat, date: string, d: DayDraws): (w: DailyWeather)
    requires ValidDraws(d)
    ensures w.day == DayName(i, weekday) && w.date == date
    ensures w.isSpraySafe == SpraySafe(w.rainChance, w.windSpeed)
    ensures w.condition == "Thunderstorm" <==> d.condition > 0.95
    ensures w.condition == "Light Rain" <==> 0.85 < d.condition <= 0.95
    ensures w.condition == "Partly Cloudy" <==> 0.7 < d.condition <= 0.85
    ensures w.condition == "Sunny" <==> d.condition <= 0.7
  {
    var humidity := Spread(40, d.humidity, 20);
    var wind := Spread(5, d.wind, 15);
    var temp := Spread(30, d.temp, 8);
    var cloudRain, lightRain, stormRain := Spread(10, d.rain, 20), Spread(40, d.rain, 30), Spread(80, d.rain, 20);
    var (condition, rain, wind', temp', humidity') :=
      if d.condition > 0.95 then ("Thunderstorm", stormRain, wind + 15, temp - 5, humidity + 30)
      else if d.condition > 0.85 then ("Light Rain", lightRain, wind, temp - 3, humidity + 20)
      else if d.condition > 0.7 then ("Partly Cloudy", cloudRain, wind, temp, humidity)
      else ("Sunny", 0, wind, temp, humidity);
    DailyWeather(date, DayName(i, weekday), temp', condition, rain, wind', humidity', SpraySafe(rain, wind'))
  }

  function GenerateWeatherIntended(draws: seq<DayDraws>, weekday: nat, dates: seq<string>): (r: seq<DailyWeather>)
    requires |draws| == ForecastDays && |dates| == ForecastDays
    requires forall i :: 0 <= i < |draws| ==> ValidDraws(draws[i])
    ensures |r| == ForecastDays
    ensures r[0].day == "Today"
    ensures forall i :: 0 <= i < |r| ==> r[i].date == dates[i] && r[i].day == DayName(i, weekday)
  {
    seq(ForecastDays, i requires 0 <= i < ForecastDays => GenerateDayIntended(i, weekday, dates[i], draws[i]))
  }

  /** With the thresholds in order, rain and storm days occur and are never
      safe for spraying, while the dry days agree with the as-written
      generator. */
  lemma IntendedWetDaysUnsafe(i: nat, weekday: nat, date: string, d: DayDraws)
    requires ValidDraws(d)
    ensures var w := GenerateDayIntended(i, weekday, date, d);
      (w.condition == "Light Rain" || w.condition == "Thunderstorm") ==> !w.isSpraySafe
    ensures d.condition <= 0.7 ==> GenerateDayIntended(i, weekday, date, d) == GenerateDay(i, weekday, date, d)
  {
  }
}
