/** The weather alert of the crop guide (components/CropAdvisory.tsx): a
    decision table from the open tab and the first forecast day to a message
    and a severity, and the fallback to the first crop for an unknown crop
    id. The guides' reference text (schedules, diseases, yields) is static
    content and is reduced to id and name. */
module CropAdvisory {
  import opened Seqs
  import opened Strings
  import opened Records
  import Weather

  datatype CropGuide = CropGuide(id: string, name: string)

  const CropData := [
    CropGuide("cotton", "Cotton (Kapus)"),
    CropGuide("soybean", "Soybean"),
    CropGuide("tur", "Tur (Pigeon Pea)"),
    CropGuide("wheat", "Wheat")]

  /** The crop the page shows: the first guide with the selected id, or the
      first guide when none has it. */
  function SelectedCrop(selectedId: string): (c: CropGuide)
    ensures c in CropData
    ensures (exists i :: 0 <= i < |CropData| && CropData[i].id == selectedId) ==> c.id == selectedId
    ensures (forall i :: 0 <= i < |CropData| ==> CropData[i].id != selectedId) ==> c == CropData[0]
  {
    FindCrop(CropData, selectedId).GetOr(CropData[0])
  }

  function FindCrop(cs: seq<CropGuide>, id: string): (r: Option<CropGuide>)
    ensures r.Some? ==> r.value in cs && r.value.id == id
    ensures r.None? <==> forall i :: 0 <= i < |cs| ==> cs[i].id != id
    decreases |cs|
  {
    if |cs| == 0 then None
    else if cs[0].id == id then Some(cs[0])
    else
      var r := FindCrop(cs[1..], id);
      assert forall i :: 1 <= i < |cs| ==> cs[i] == cs[1..][i - 1];
      r
  }

  datatype Severity = Warning | Safe | Danger

  /** The alert box: `severity` is `None` where the source stores `null`. */
  datatype Alert = Alert(message: string, severity: Option<Severity>)

  const NoAlert := Alert("", None)

  /** The day the alert reads: the first forecast day, if any. */
  function CurrentWeather(forecast: seq<DailyWeather>): (r: Option<DailyWeather>)
    ensures r.None? <==> |forecast| == 0
    ensures r.Some? ==> r.value == forecast[0]
  {
    if |forecast| == 0 then None else Some(forecast[0])
  }

  const WarnSign := "\U{26A0}\U{FE0F}"
  const CheckMark := "\U{2705}"
  const InfoSign := "\U{2139}\U{FE0F}"
  const RainCloud := "\U{1F327}\U{FE0F}"

  /** Spraying: dangerous unless the day is safe to spray. */
  function SprayAlert(w: DailyWeather): (a: Alert)
    ensures a.severity == Some(Danger) <==> !w.isSpraySafe
    ensures a.severity == Some(Safe) <==> w.isSpraySafe
    ensures a.message != ""
  {
    if !w.isSpraySafe then
      Alert(WarnSign + " Warning: High winds (" + IntToString(w.windSpeed) + " km/h) or rain detected. Spraying is NOT recommended today.", Some(Danger))
    else
      Alert(CheckMark + " Weather conditions (Wind: " + IntToString(w.windSpeed) + " km/h) are favorable for spraying.", Some(Safe))
  }

  /** Sowing: a warning for too much or too little rain, safe for 20-60%. */
  function SowAlert(w: DailyWeather): (a: Alert)
    ensures a.severity == Some(Warning) <==> w.rainChance > 60 || w.rainChance < 20
    ensures a.severity == Some(Safe) <==> 20 <= w.rainChance <= 60
    ensures a.message != ""
  {
    if w.rainChance > 60 then
      Alert(WarnSign + " Heavy rain forecast (" + IntToString(w.rainChance) + "%). Delay sowing to avoid seed wash-off.", Some(Warning))
    else if w.rainChance < 20 then
      Alert(InfoSign + " Low rain chance. Ensure sufficient soil moisture before sowing.", Some(Warning))
    else
      Alert(CheckMark + " Good conditions for sowing.", Some(Safe))
  }

  /** Diseases: dangerous above 80% humidity. */
  function DiseaseAlert(w: DailyWeather): (a: Alert)
    ensures a.severity == Some(Danger) <==> w.humidity > 80
    ensures a.severity == Some(Safe) <==> w.humidity <= 80
    ensures a.message != ""
  {
    if w.humidity > 80 then
      Alert(WarnSign + " High humidity (" + IntToString(w.humidity) + "%) significantly increases fungal disease risk. Monitor crop closely.", Some(Danger))
    else
      Alert(CheckMark + " Moderate humidity. Lower risk of fungal spread today.", Some(Safe))
  }

  /** Irrigation: a note only when rain above 50% makes watering skippable. */
  function IrrigationAlert(w: DailyWeather): (a: Alert)
    ensures a.severity == Some(Safe) <==> w.rainChance > 50
    ensures a.severity.None? <==> w.rainChance <= 50
    ensures a.message != "" <==> a.severity.Some?
  {
    if w.rainChance > 50 then
      Alert(RainCloud + " Rain predicted today. You may skip irrigation to save water.", Some(Safe))
    else NoAlert
  }

  /** Every other tab: a warning only above 70% rain. */
  function HeavyRainAlert(w: DailyWeather): (a: Alert)
    ensures a.severity == Some(Warning) <==> w.rainChance > 70
    ensures a.severity.None? <==> w.rainChance <= 70
    ensures a.message != "" <==> a.severity.Some?
  {
    if w.rainChance > 70 then
      Alert(WarnSign + " Heavy rain alert today. Plan farm activities accordingly.", Some(Warning))
    else NoAlert
  }

  /** The rule for tab `tab`. */
  function TabAlert(tab: string, w: DailyWeather): (a: Alert)
    ensures a.message != "" <==> a.severity.Some?
  {
    if tab == "spray" then SprayAlert(w)
    else if tab == "sow" then SowAlert(w)
    else if tab == "disease" then DiseaseAlert(w)
    else if tab == "irrig" then IrrigationAlert(w)
    else HeavyRainAlert(w)
  }

  /** The advisory effect: no alert without forecast data; otherwise the
      rule of the open tab applied to the first forecast day. The message is
      non-empty exactly when there is a severity. */
  function Advisory(tab: string, forecast: seq<DailyWeather>): (a: Alert)
    ensures |forecast| == 0 ==> a == NoAlert
    ensures a.message != "" <==> a.severity.Some?
    ensures |forecast| > 0 ==>
      a == (if tab == "spray" then SprayAlert(forecast[0])
            else if tab == "sow" then SowAlert(forecast[0])
            else if tab == "disease" then DiseaseAlert(forecast[0])
            else if tab == "irrig" then IrrigationAlert(forecast[0])
            else HeavyRainAlert(forecast[0]))
  {
    match CurrentWeather(forecast)
    case None => NoAlert
    case Some(w) => TabAlert(tab, w)
  }

  /** Only the first forecast day matters: forecasts that agree on it give
      the same alert, whatever the later days say. */
  lemma OnlyFirstDayMatters(tab: string, f: seq<DailyWeather>, g: seq<DailyWeather>)
    requires |f| > 0 && |g| > 0 && f[0] == g[0]
    ensures Advisory(tab, f) == Advisory(tab, g)
  {
  }

  /** The tabs without a rule of their own (preparation, fertiliser, yield)
      all share the heavy-rain rule. */
  lemma OtherTabsAgree(forecast: seq<DailyWeather>)
    ensures Advisory("prep", forecast) == Advisory("fert", forecast) == Advisory("yield", forecast)
  {
  }

  /** On a forecast from the application's generator, whose days are never
      wet, the irrigation note and the heavy-rain warning never appear, and
      the spraying alert is a danger exactly when the wind reaches 18 km/h. */
  lemma AdvisoryOnGeneratedForecast(draws: seq<Weather.DayDraws>, weekday: nat, dates: seq<string>, tab: string)
    requires |draws| == Weather.ForecastDays && |dates| == Weather.ForecastDays
    requires forall i :: 0 <= i < |draws| ==> Weather.ValidDraws(draws[i])
    ensures var f := Weather.GenerateWeather(draws, weekday, dates);
      && (tab != "spray" && tab != "sow" && tab != "disease" ==> Advisory(tab, f) == NoAlert)
      && (tab == "spray" ==> (Advisory(tab, f).severity == Some(Danger) <==> f[0].windSpeed >= 18))
  {
    var f := Weather.GenerateWeather(draws, weekday, dates);
    Weather.OnlyDryDays(draws, weekday, dates);
    Weather.SpraySafeIffCalm(draws, weekday, dates);
    assert f[0].rainChance < 30;
  }
}
