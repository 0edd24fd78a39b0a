/**
 * The helpers of the home screen (`src/app/page.tsx`): the 14-day date
 * strip, the weekday/weekend schedule, the weather icon, the choice of the
 * weather shown for the selected day, and the chilly and rain notices.
 *
 * Days are whole day numbers counted from 1 January 1970, a Thursday;
 * weekdays run from 0 (Sunday) to 6 (Saturday).
 */
module HomePage {
  import opened Wrappers
  import opened Seqs
  import opened WeatherDecoding
  import opened WardrobeRules

  // ---------------------------------------------------------------------------
  // The date strip
  // ---------------------------------------------------------------------------

  /** `getDay()` of a day number. */
  function Weekday(day: int): (r: int)
    ensures 0 <= r < 7
  {
    (day + 4) % 7
  }

  /** Seven days later is the same weekday. */
  lemma WeekdayWeekly(day: int)
    ensures Weekday(day + 7) == Weekday(day)
  {
    assert day + 7 + 4 == (day + 4) + 7;
  }

  /** `toLocaleDateString("en-US", { weekday: "short" })`. */
  const WeekdayNames: seq<string> := ["Sun", "Mon", "Tue", "Wed", "Thu", "Fri", "Sat"]

  /** One button of the strip. */
  datatype DayEntry = DayEntry(dayName: string, date: int, isToday: bool)

  /**
   * `generateDays`: the days from six before `today` to seven after, each
   * with its weekday name and whether it is today.
   */
  method GenerateDays(today: int) returns (days: seq<DayEntry>)
    ensures |days| == 14
    ensures forall k :: 0 <= k < 14 ==> days[k].date == today - 6 + k
    ensures forall k :: 0 <= k < 14 ==> (days[k].isToday <==> k == 6)
    ensures forall k :: 0 <= k < 14 ==> days[k].dayName == WeekdayNames[Weekday(days[k].date)]
  {
    days := [];
    for i := -6 to 8
      invariant |days| == i + 6
      invariant forall k :: 0 <= k < |days| ==>
        days[k] == DayEntry(WeekdayNames[Weekday(today - 6 + k)], today - 6 + k, k == 6)
    {
      var d := today + i;
      days := days + [DayEntry(WeekdayNames[Weekday(d)], d, d == today)];
    }
  }

  /** Corollary of `GenerateDays`'s ensures: the strip's dates strictly increase, one day at a time. */
  lemma StripConsecutive(today: int, days: seq<DayEntry>)
    requires |days| == 14 && forall k :: 0 <= k < 14 ==> days[k].date == today - 6 + k
    ensures forall j, k :: 0 <= j < k < 14 ==> days[j].date < days[k].date
    ensures days[0].date == today - 6 && days[13].date == today + 7
  {
  }

  /** Corollary of `GenerateDays`'s ensures: exactly one entry of the strip is today. */
  lemma ExactlyOneToday(days: seq<DayEntry>)
    requires |days| == 14 && forall k :: 0 <= k < 14 ==> (days[k].isToday <==> k == 6)
    ensures (set k | 0 <= k < 14 && days[k].isToday) == {6}
  {
  }

  // ---------------------------------------------------------------------------
  // The schedule
  // ---------------------------------------------------------------------------

  datatype ScheduleEntry = ScheduleEntry(time: string, title: string, description: string, color: string)

  const WeekendSchedule: seq<ScheduleEntry> := [
    ScheduleEntry("11:00 AM", "Sunday Brunch", "Health: Farmers Market visit", "bg-sage"),
    ScheduleEntry("2:30 PM", "Wardrobe Sort", "Minimalism: Seasonal rotation", "bg-primary"),
    ScheduleEntry("6:00 PM", "Reflection", "Weekly goal setting", "bg-sage")
  ]

  const WeekdaySchedule: seq<ScheduleEntry> := [
    ScheduleEntry("10:00 AM", "Focus Session", "Deep work: Design System", "bg-primary"),
    ScheduleEntry("12:30 PM", "Meal Prep", "Health: Use items expiring today", "bg-sage"),
    ScheduleEntry("4:00 PM", "Evening Walk", "Minimal living routine", "bg-sage")
  ]

  /** `getScheduleForDate`: the weekend plan on Sundays and Saturdays, the weekday plan otherwise. */
  function ScheduleForDate(day: int): (r: seq<ScheduleEntry>)
    ensures |r| == 3
    ensures r == WeekendSchedule <==> Weekday(day) in {0, 6}
    ensures r == WeekdaySchedule <==> 1 <= Weekday(day) <= 5
  {
    var weekday := Weekday(day);
    if weekday == 0 || weekday == 6 then WeekendSchedule else WeekdaySchedule
  }

  /** The schedule repeats every week. */
  lemma ScheduleWeekly(day: int)
    ensures ScheduleForDate(day + 7) == ScheduleForDate(day)
  {
    WeekdayWeekly(day);
  }

  /** Day 2 (3 January 1970) was a Saturday and day 3 a Sunday: both get the weekend plan. */
  lemma ScheduleExample()
    ensures ScheduleForDate(2) == WeekendSchedule && ScheduleForDate(3) == WeekendSchedule
    ensures ScheduleForDate(0) == WeekdaySchedule
  {
  }

  // ---------------------------------------------------------------------------
  // Weather on the home screen
  // ---------------------------------------------------------------------------

  datatype Icon = Sun | Cloud | CloudRain

  /** `getWeatherIcon`: code thresholds. */
  function WeatherIcon(code: int): (r: Icon)
    ensures r == CloudRain <==> code >= 61
    ensures r == Cloud <==> code != 0 && code <= 3
    ensures r == Sun <==> code == 0 || 3 < code < 61
  {
    if code == 0 then Sun
    else if code <= 3 then Cloud
    else if code >= 61 then CloudRain
    else Sun
  }

  /** Every code whose condition mentions rain shows the rain icon. */
  lemma RainConditionShowsRainIcon(code: int)
    requires MentionsRain(Condition(code))
    ensures WeatherIcon(code) == CloudRain
  {
    RainConditions(code);
  }

  /** The rain icon is wider than the rain conditions: snow shows it too. */
  lemma SnowShowsRainIcon()
    ensures WeatherIcon(71) == CloudRain && !MentionsRain(Condition(71))
  {
    RainConditions(71);
  }

  /** The temperature, condition and code shown for the selected day. */
  datatype Display = Display(temp: int, condition: string, weatherCode: int)

  /** The forecast day has the selected date. */
  function DatedOn(selectedDate: string): DailyForecast -> bool
  {
    (f: DailyForecast) => f.date == selectedDate
  }

  /**
   * `getDisplayWeather`: nothing without weather; otherwise the first
   * forecast day dated `selectedDate` (the ISO date of the selected day),
   * failing that the current weather.
   */
  function DisplayWeather(weather: Option<WeatherData>, selectedDate: string): (r: Option<Display>)
    ensures weather.None? <==> r.None?
    ensures weather.Some? ==> forall k ::
      0 <= k < |weather.value.forecast| && weather.value.forecast[k].date == selectedDate &&
      (forall j :: 0 <= j < k ==> weather.value.forecast[j].date != selectedDate) ==>
        r == Some(Display(weather.value.forecast[k].tempMax, weather.value.forecast[k].condition,
                          weather.value.forecast[k].weatherCode))
    ensures weather.Some? && (forall k :: 0 <= k < |weather.value.forecast| ==> weather.value.forecast[k].date != selectedDate) ==>
      r == Some(Display(weather.value.temp, weather.value.condition, weather.value.weatherCode))
  {
    match weather
    case None => None
    case Some(w) =>
      match FindFirst(w.forecast, DatedOn(selectedDate))
      case Some(k) => Some(Display(w.forecast[k].tempMax, w.forecast[k].condition, w.forecast[k].weatherCode))
      case None => Some(Display(w.temp, w.condition, w.weatherCode))
  }

  /** The displayed weather is below 15°C. */
  predicate Chilly(display: Option<Display>)
  {
    display.Some? && display.value.temp < 15
  }

  /** The rain alert shows for displayed codes from 61 up. */
  predicate RainAlert(display: Option<Display>)
  {
    display.Some? && display.value.weatherCode >= 61
  }

  /** The outfit card's sentence: its opening, the garments named and the days since last worn. */
  datatype OutfitCard = OutfitCard(opening: string, garments: string, days: string)

  /** The outfit card: the overcoat suggestion on a chilly day, the linen one otherwise. */
  function OutfitCardText(display: Option<Display>, isSelectedToday: bool): (r: OutfitCard)
    ensures r.garments == "Wool Blend Overcoat & Knit" <==> Chilly(display)
    ensures r.garments == "Linen Shirt & Chinos" <==> !Chilly(display)
    ensures r.days == (if Chilly(display) then "12" else "8")
    ensures Chilly(display) ==>
      r.opening == "A bit chilly " + (if isSelectedToday then "today" else "on this day") + ". We suggest the "
    ensures !Chilly(display) ==> r.opening == "Perfect for the "
  {
    if Chilly(display) then
      OutfitCard("A bit chilly " + (if isSelectedToday then "today" else "on this day") + ". We suggest the ",
                 "Wool Blend Overcoat & Knit", "12")
    else
      OutfitCard("Perfect for the ", "Linen Shirt & Chinos", "8")
  }

  /** The alert line of the outfit card. */
  function AlertText(display: Option<Display>, isSelectedToday: bool): (r: string)
    ensures r == "Rain expected. Reschedule plans?" <==> RainAlert(display)
    ensures !RainAlert(display) && isSelectedToday ==> r == "Evening Walk suggested at 4:30 PM (before sunset)"
    ensures !RainAlert(display) && !isSelectedToday ==> r == "Good day for your routine."
  {
    if RainAlert(display) then "Rain expected. Reschedule plans?"
    else if isSelectedToday then "Evening Walk suggested at 4:30 PM (before sunset)"
    else "Good day for your routine."
  }

  /** The rain alert shows exactly when the displayed weather has the rain icon. */
  lemma RainAlertMatchesIcon(d: Display)
    ensures RainAlert(Some(d)) <==> WeatherIcon(d.weatherCode) == CloudRain
  {
  }

  /** Without weather neither notice shows. */
  lemma NoWeatherNoNotices(selectedDate: string)
    ensures !Chilly(DisplayWeather(None, selectedDate)) && !RainAlert(DisplayWeather(None, selectedDate))
  {
  }

  /**
   * When the selected day is a forecast day, the chilly notice agrees with
   * the outfit generator: that day's outfit then always includes outerwear
   * when the wardrobe has some.
   */
  lemma ChillyDayGetsOuterwear(w: WeatherData, k: nat, inventory: seq<WardrobeItem>, roll: Roll)
    requires k < |w.forecast| && (forall j :: 0 <= j < k ==> w.forecast[j].date != w.forecast[k].date)
    requires Chilly(DisplayWeather(Some(w), w.forecast[k].date))
    requires Has(inventory, Outerwear)
    ensures Has(OutfitFor(inventory, w.forecast[k], roll), Outerwear)
  {
    OutfitShape(inventory, w.forecast[k], roll);
  }
}
