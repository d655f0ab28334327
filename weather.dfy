/** The simulated day-by-day weather forecast (src/core/weather.py). */
module Weather {
  import opened Text

  const Conditions: seq<string> := ["साफ", "हल्के बादल", "घने बादल", "हल्की बारिश", "मध्यम बारिश", "तेज़ बारिश की संभावना"]
  const PrecipitationProbability: seq<real> := [0.05, 0.1, 0.2, 0.4, 0.6, 0.75]
  const DefaultDays := 3

  /** One day of the detailed forecast; `date` is the offset in days from today. */
  datatype DayForecast = DayForecast(date: nat, condition: string, precipitationPercent: real,
                                     tempMin: int, tempMax: int)

  datatype WeatherResult = WeatherResult(forecast: string, detailed: seq<DayForecast>)

  /** The simulated draws for one day: the condition index and the two
      temperature offsets. */
  datatype DayDraw = DayDraw(conditionIndex: nat, minOffset: int, maxOffset: int)

  predicate ValidDraw(d: DayDraw)
  {
    d.conditionIndex < |Conditions| && -2 <= d.minOffset <= 2 && -2 <= d.maxOffset <= 3
  }

  /** "आज" for today, "कल" for tomorrow, else the formatted date of the day. */
  function DayLabel(i: nat, dateText: nat -> string): string
  {
    if i == 0 then "आज" else if i == 1 then "कल" else dateText(i)
  }

  /** Day `i`'s entry: condition and precipitation share the drawn index. */
  function DayEntry(i: nat, tempMin: int, tempMax: int, d: DayDraw): DayForecast
    requires ValidDraw(d)
  {
    DayForecast(i, Conditions[d.conditionIndex], PrecipitationProbability[d.conditionIndex] * 100.0,
                tempMin + d.minOffset, tempMax + d.maxOffset)
  }

  /** The spoken part for one day; the percentage is a whole number here. */
  function DayPart(dayStr: string, e: DayForecast): string
  {
    dayStr + ": " + e.condition + " (बारिश: " + IntToString(e.precipitationPercent.Floor) + "%, तापमान: "
    + IntToString(e.tempMin) + "-" + IntToString(e.tempMax) + "°C)"
  }

  function DayParts(detailed: seq<DayForecast>, dateText: nat -> string): (r: seq<string>)
    ensures |r| == |detailed|
    ensures forall i :: 0 <= i < |detailed| ==> r[i] == DayPart(DayLabel(i, dateText), detailed[i])
  {
    seq(|detailed|, i requires 0 <= i < |detailed| => DayPart(DayLabel(i, dateText), detailed[i]))
  }

  function ForecastText(parts: seq<string>): string
  {
    "मौसम पूर्वानुमान: " + Join(parts, ". ") + "."
  }

  /** The entries for the draws, day by day. */
  function DayEntries(tempMin: int, tempMax: int, draws: seq<DayDraw>): (r: seq<DayForecast>)
    requires forall i :: 0 <= i < |draws| ==> ValidDraw(draws[i])
    ensures |r| == |draws|
    ensures forall i :: 0 <= i < |draws| ==> r[i] == DayEntry(i, tempMin, tempMax, draws[i])
  {
    seq(|draws|, i requires 0 <= i < |draws| => DayEntry(i, tempMin, tempMax, draws[i]))
  }

  /** The forecast for `days` days (none when `days` is not positive):
      day `i` from the draw `draws[i]`, around the simulated base minimum
      `tempMin` and maximum `tempMax`. */
  function Forecast(days: int, tempMin: int, tempMax: int, draws: seq<DayDraw>, dateText: nat -> string)
    : WeatherResult
    requires |draws| == (if days > 0 then days else 0)
    requires forall i :: 0 <= i < |draws| ==> ValidDraw(draws[i])
  {
    var detailed := DayEntries(tempMin, tempMax, draws);
    WeatherResult(ForecastText(DayParts(detailed, dateText)), detailed)
  }

  /** One day of the handler's loop: the entry built from the day's draw and
      its spoken part under the day's label. */
  method ForecastDay(i: nat, tempMin: int, tempMax: int, d: DayDraw, dateText: nat -> string)
    returns (entry: DayForecast, part: string)
    requires ValidDraw(d)
    ensures entry == DayEntry(i, tempMin, tempMax, d)
    ensures part == DayPart(DayLabel(i, dateText), entry)
  {
    var dayCondition := Conditions[d.conditionIndex];
    var dayPrecip := PrecipitationProbability[d.conditionIndex] * 100.0;
    var dayTempMin := tempMin + d.minOffset;
    var dayTempMax := tempMax + d.maxOffset;
    var dayStr := if i == 0 then "आज" else if i == 1 then "कल" else dateText(i);
    entry := DayForecast(i, dayCondition, dayPrecip, dayTempMin, dayTempMax);
    part := DayPart(dayStr, entry);
  }

  /** The handler: one entry and one spoken part per day, appended in order
      and joined at the end. `baseMin` and `spread` are the simulated base
      minimum (15 to 25) and the gap to the base maximum (5 to 12);
      `dateText` formats a day offset as a date. */
  method GetWeatherForecast(location: string, days: int, baseMin: int, spread: int, draws: seq<DayDraw>,
                            dateText: nat -> string) returns (r: WeatherResult)
    requires 15 <= baseMin <= 25 && 5 <= spread <= 12
    requires |draws| == (if days > 0 then days else 0)
    requires forall i :: 0 <= i < |draws| ==> ValidDraw(draws[i])
    ensures r == Forecast(days, baseMin, baseMin + spread, draws, dateText)
  {
    var tempMin := baseMin;
    var tempMax := tempMin + spread;
    var forecastParts: seq<string> := [];
    var detailedForecast: seq<DayForecast> := [];
    ghost var entries := DayEntries(tempMin, tempMax, draws);
    ghost var parts := DayParts(entries, dateText);
    var i := 0;
    while i < |draws|
      invariant 0 <= i <= |draws|
      invariant detailedForecast == entries[..i]
      invariant forecastParts == parts[..i]
    {
      var entry, part := ForecastDay(i, tempMin, tempMax, draws[i], dateText);
      PrefixExtend(parts, i);
      PrefixExtend(entries, i);
      forecastParts := forecastParts + [part];
      detailedForecast := detailedForecast + [entry];
      i := i + 1;
    }
    assert entries[..i] == entries;
    assert parts[..i] == parts;
    r := WeatherResult(ForecastText(forecastParts), detailedForecast);
  }

  /** The forecast has one entry per requested day, dated today onwards in
      increasing order; each day's precipitation is the one that belongs to
      its condition; every day's maximum exceeds its minimum; with no day the
      text is the bare heading. */
  lemma ForecastShape(days: int, baseMin: int, spread: int, draws: seq<DayDraw>, dateText: nat -> string)
    requires 15 <= baseMin <= 25 && 5 <= spread <= 12
    requires |draws| == (if days > 0 then days else 0)
    requires forall i :: 0 <= i < |draws| ==> ValidDraw(draws[i])
    ensures var r := Forecast(days, baseMin, baseMin + spread, draws, dateText);
            |r.detailed| == (if days > 0 then days else 0)
            && (forall i :: 0 <= i < |r.detailed| ==> r.detailed[i].date == i)
            && (forall i, j :: 0 <= i < j < |r.detailed| ==> r.detailed[i].date < r.detailed[j].date)
            && (forall i :: 0 <= i < |r.detailed| ==>
                  exists k :: 0 <= k < |Conditions| && r.detailed[i].condition == Conditions[k]
                              && r.detailed[i].precipitationPercent == PrecipitationProbability[k] * 100.0)
            && (forall i :: 0 <= i < |r.detailed| ==> r.detailed[i].tempMax >= r.detailed[i].tempMin + 1)
            && (days <= 0 ==> r.forecast == "मौसम पूर्वानुमान: .")
  {
    var r := Forecast(days, baseMin, baseMin + spread, draws, dateText);
    forall i | 0 <= i < |r.detailed|
      ensures exists k :: 0 <= k < |Conditions| && r.detailed[i].condition == Conditions[k]
                          && r.detailed[i].precipitationPercent == PrecipitationProbability[k] * 100.0
    {
      var k := draws[i].conditionIndex;
      assert r.detailed[i].condition == Conditions[k];
    }
  }

  /** The precipitation percentages of the six conditions: 5, 10, 20, 40, 60
      and 75, rising with the severity of the condition. */
  lemma PrecipitationPercents()
    ensures forall k :: 0 <= k < |Conditions| ==>
              PrecipitationProbability[k] * 100.0 == [5.0, 10.0, 20.0, 40.0, 60.0, 75.0][k]
    ensures forall k, m :: 0 <= k < m < |Conditions| ==> PrecipitationProbability[k] < PrecipitationProbability[m]
  {
  }
}
