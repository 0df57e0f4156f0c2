/** `RecurringTimeslot` of hungry/timeslot.py: a weekly availability window and the shifts it accepts. */
module Timeslot {
  import opened Wrappers
  import opened Clock
  import opened JsonValues
  import Text

  /**
    Weekdays (0 is Monday), a window from `start` to `end` (both times of day), and the
    least number of minutes a shift must last. Nothing checks the fields on creation.
  */
  datatype RecurringTimeslot = RecurringTimeslot(recurringDays: seq<int>, start: ClockTime, end: ClockTime, minMinutes: int)

  const DayNames: seq<string> := ["Monday", "Tuesday", "Wednesday", "Thursday", "Friday", "Saturday", "Sunday"]

  const DayNumbers: map<string, int> :=
    map["monday" := 0, "tuesday" := 1, "wednesday" := 2, "thursday" := 3,
        "friday" := 4, "saturday" := 5, "sunday" := 6]

  /** `_get_day_name`: the weekday's name, or None for a number outside 0..6. */
  function DayName(dayNumber: int): Option<string>
  {
    if dayNumber < 0 || dayNumber > 6 then None else Some(DayNames[dayNumber])
  }

  /** `_day_name_to_int`: the number of a weekday name, ignoring case and surrounding whitespace. */
  function DayNameToInt(dayName: string): Result<int>
  {
    var key := Text.Lower(Text.Strip(dayName));
    if key in DayNumbers then Success(DayNumbers[key]) else Failure(KeyError(key))
  }

  /** `is_valid_shift`: three checks, each of which may reject the shift. */
  function IsValidShift(t: RecurringTimeslot, start: Instant, end: Instant): bool
  {
    if Weekday(start) !in t.recurringDays then
      false
    else if TimeOf(start) < t.start || TimeOf(end) > t.end then
      false
    else if DeltaSeconds(start, end) < SecondsPerMinute * t.minMinutes then
      false
    else
      true
  }

  // ---- Weekday names ----

  lemma StripUnspaced(s: string)
    requires s != [] && !Text.IsSpace(s[0]) && !Text.IsSpace(s[|s| - 1])
    ensures Text.Strip(s) == s
  {
  }

  /** The keys of `DayNumbers`, weekday by weekday. */
  const DayKeys: seq<string> := ["monday", "tuesday", "wednesday", "thursday", "friday", "saturday", "sunday"]

  lemma LowerDayNames()
    ensures forall n :: 0 <= n <= 6 ==> Text.Lower(DayNames[n]) == DayKeys[n]
  {
    assert Text.Lower("Monday") == "monday";
    assert Text.Lower("Tuesday") == "tuesday";
    assert Text.Lower("Wednesday") == "wednesday";
    assert Text.Lower("Thursday") == "thursday";
    assert Text.Lower("Friday") == "friday";
    assert Text.Lower("Saturday") == "saturday";
    assert Text.Lower("Sunday") == "sunday";
  }

  /** `DayNumbers` maps the n-th key to n and holds nothing else. */
  lemma DayNumbersIndexKeys()
    ensures forall n :: 0 <= n <= 6 ==> DayKeys[n] in DayNumbers && DayNumbers[DayKeys[n]] == n
    ensures forall key :: key in DayNumbers ==> 0 <= DayNumbers[key] <= 6 && DayKeys[DayNumbers[key]] == key
  {
    assert DayNumbers.Keys == {"monday", "tuesday", "wednesday", "thursday", "friday", "saturday", "sunday"};
  }

  /** `_day_name_to_int` inverts `_get_day_name` on 0..6. */
  lemma DayNameRoundTrip(n: int)
    requires 0 <= n <= 6
    ensures DayName(n).Some? && DayNameToInt(DayName(n).value) == Success(n)
  {
    StripUnspaced(DayNames[n]);
    LowerDayNames();
    DayNumbersIndexKeys();
  }

  /**
    `_day_name_to_int` accepts a name exactly when, stripped of surrounding whitespace and
    lower-cased, it is a weekday name lower-cased, and then gives that weekday's number;
    any other name raises `KeyError`.
  */
  lemma DayNameToIntIff(dayName: string, n: int)
    ensures DayNameToInt(dayName) == Success(n) <==>
              0 <= n <= 6 && Text.Lower(Text.Strip(dayName)) == Text.Lower(DayNames[n])
    ensures DayNameToInt(dayName).Failure? <==>
              forall k :: 0 <= k <= 6 ==> Text.Lower(Text.Strip(dayName)) != Text.Lower(DayNames[k])
    ensures DayNameToInt(dayName).Failure? ==> DayNameToInt(dayName).error.KeyError?
  {
    LowerDayNames();
    DayNumbersIndexKeys();
    var key := Text.Lower(Text.Strip(dayName));
    if key in DayNumbers {
      var k := DayNumbers[key];
      assert 0 <= k <= 6 && DayKeys[k] == key;
    }
  }

  /** Case and surrounding whitespace do not matter. */
  lemma DayNameToIntExample()
    ensures DayNameToInt("  SunDay\n") == Success(6)
  {
    PaddedSundayStrips();
    MixedCaseSundayLowers();
    DayNumbersIndexKeys();
    assert DayKeys[6] == "sunday";
  }

  lemma MixedCaseSundayLowers()
    ensures Text.Lower("SunDay") == "sunday"
  {
    var r := Text.Lower("SunDay");
    assert r[0] == 's' && r[1] == 'u' && r[2] == 'n' && r[3] == 'd' && r[4] == 'a' && r[5] == 'y';
  }

  lemma PaddedSundayStrips()
    ensures Text.Strip("  SunDay\n") == "SunDay"
  {
    var padded := "  SunDay\n";
    assert padded[2..] == "SunDay\n";
    assert Text.Lead(padded[2..]) == 0;
    assert Text.Lead(padded) == 2 by {
      assert padded[1..][1..] == padded[2..];
    }
    var stripped := Text.Strip(padded);
    assert |stripped| == 6 by {
      assert !Text.IsSpace(padded[7]) && Text.IsSpace(padded[8]);
    }
  }

  /** An abbreviation is not a weekday name. */
  lemma AbbreviationRejected()
    ensures DayNameToInt("mon") == Failure(KeyError("mon"))
  {
    StripUnspaced("mon");
    assert Text.Lower("mon") == "mon";
  }

  // ---- The matcher ----

  /** A shift whose start falls on a day outside `recurring_days` is rejected. */
  lemma RejectsWrongDay(t: RecurringTimeslot, start: Instant, end: Instant)
    requires Weekday(start) !in t.recurringDays
    ensures !IsValidShift(t, start, end)
  {
  }

  /** A shift starting before the window or ending after it is rejected; the bounds themselves are inside. */
  lemma RejectsOutsideWindow(t: RecurringTimeslot, start: Instant, end: Instant)
    requires TimeOf(start) < t.start || TimeOf(end) > t.end
    ensures !IsValidShift(t, start, end)
  {
  }

  /** A shift whose duration, taken modulo one day, is below `min_minutes` minutes is rejected. */
  lemma RejectsShortShift(t: RecurringTimeslot, start: Instant, end: Instant)
    requires DeltaSeconds(start, end) < SecondsPerMinute * t.minMinutes
    ensures !IsValidShift(t, start, end)
  {
  }

  /** The matcher accepts exactly the shifts that pass all three checks; it depends on nothing else. */
  lemma IsValidShiftIff(t: RecurringTimeslot, start: Instant, end: Instant)
    ensures IsValidShift(t, start, end) <==>
              && Weekday(start) in t.recurringDays
              && t.start <= TimeOf(start)
              && TimeOf(end) <= t.end
              && SecondsPerMinute * t.minMinutes <= DeltaSeconds(start, end)
  {
  }

  /** Whole days added to a shift's end change nothing: a 25-hour shift is judged as a 1-hour one. */
  lemma {:induction false} DurationModuloDay(t: RecurringTimeslot, start: Instant, end: Instant, days: int)
    ensures IsValidShift(t, start, end + days * SecondsPerDay) == IsValidShift(t, start, end)
  {
    ModAddMultiple(end, days, SecondsPerDay);
    DeltaSecondsDropsDays(start, end, days);
  }

  /** The timeslot recurs weekly: moving a shift by whole weeks does not change whether it matches. */
  lemma {:induction false} MatchRecursWeekly(t: RecurringTimeslot, start: Instant, end: Instant, weeks: int)
    ensures IsValidShift(t, start + weeks * SecondsPerWeek, end + weeks * SecondsPerWeek) == IsValidShift(t, start, end)
  {
    WeeklyRecurrence(start, weeks);
    WeeklyRecurrence(end, weeks);
  }

  /**
    The checks compare times of day only, so a shift from 19:00 on a Monday to 09:00 on the
    Tuesday passes a Monday 08:00-20:00 window, and with a window covering the whole day a
    shift that ends before it starts is accepted as well.
  */
  lemma CrossingMidnightAccepted()
    ensures IsValidShift(RecurringTimeslot([0], At(8, 0), At(20, 0), 60), At(19, 0), SecondsPerDay + At(9, 0))
    ensures IsValidShift(RecurringTimeslot([0, 1, 2, 3, 4, 5, 6], At(0, 0), At(23, 59), 0), At(10, 0), At(9, 0))
  {
  }

  /** Saturday and Sunday 10:00-14:00 with at least 120 minutes: 90 minutes on a Saturday is too short, 180 fit. */
  lemma WeekendWindowExample()
    ensures var weekend := RecurringTimeslot([5, 6], At(10, 0), At(14, 0), 120);
            var saturday := 5 * SecondsPerDay;
            && !IsValidShift(weekend, saturday + At(10, 0), saturday + At(11, 30))
            && IsValidShift(weekend, saturday + At(10, 0), saturday + At(13, 0))
  {
  }

  /** The numbers `__str__` prints: the window as hours and minutes, the day names and the minimum. */
  datatype TimeslotText = TimeslotText(startHour: int, startMinute: int, endHour: int, endMinute: int,
                                       dayNames: seq<string>, minMinutes: int)

  /**
    The names `", ".join` receives: one per recurring day, in order. A day outside 0..6
    gives None, on which `join` raises `TypeError`.
  */
  function DayNameList(days: seq<int>): (r: Result<seq<string>>)
    ensures r.Success? <==> forall i :: 0 <= i < |days| ==> 0 <= days[i] <= 6
    ensures r.Success? ==> |r.value| == |days|
    ensures r.Success? ==> forall i :: 0 <= i < |days| ==> DayName(days[i]) == Some(r.value[i])
    ensures r.Failure? ==> r.error == TypeError
  {
    if days == [] then Success([])
    else
      match DayName(days[0])
      case None => Failure(TypeError)
      case Some(name) =>
        var rest :- DayNameList(days[1..]);
        Success([name] + rest)
  }

  /** `__str__`, without the text formatting. */
  function Describe(t: RecurringTimeslot): Result<TimeslotText>
  {
    var names :- DayNameList(t.recurringDays);
    Success(TimeslotText(Hour(t.start), Minute(t.start), Hour(t.end), Minute(t.end), names, t.minMinutes))
  }

  /** `__str__` succeeds exactly when every recurring day is in 0..6, and then reports the timeslot's own fields. */
  lemma DescribeSucceedsIffDaysValid(t: RecurringTimeslot)
    ensures Describe(t).Success? <==> forall i :: 0 <= i < |t.recurringDays| ==> DayName(t.recurringDays[i]).Some?
    ensures Describe(t).Success? ==>
              var d := Describe(t).value;
              At(d.startHour, d.startMinute) == TruncateToMinute(t.start)
              && At(d.endHour, d.endMinute) == TruncateToMinute(t.end)
              && d.minMinutes == t.minMinutes && |d.dayNames| == |t.recurringDays|
  {
    HourMinuteRecompose(t.start);
    HourMinuteRecompose(t.end);
  }

  // ---- Serialisation ----

  function ClockToJson(c: ClockTime): Json
  {
    JClock(Hour(c), Minute(c))
  }

  /** `datetime.strptime(value, "%H:%M").time()`. */
  function ParseClock(j: Json): Result<ClockTime>
  {
    match j
    case JClock(h, m) =>
      if 0 <= h < 24 && 0 <= m < 60 then Success(At(h, m))
      else Failure(ValueError("time data does not match format '%H:%M'"))
    case JStr(_) => Failure(ValueError("time data does not match format '%H:%M'"))
    case JInstant(_) => Failure(ValueError("time data does not match format '%H:%M'"))
    case _ => Failure(TypeError)
  }

  function IntsToJson(xs: seq<int>): (r: seq<Json>)
    ensures |r| == |xs|
  {
    seq(|xs|, i requires 0 <= i < |xs| => JInt(xs[i]))
  }

  function IntsFromJson(items: seq<Json>): Result<seq<int>>
  {
    if items == [] then Success([])
    else
      var x :- AsInt(items[0]);
      var rest :- IntsFromJson(items[1..]);
      Success([x] + rest)
  }

  lemma {:induction false} IntsRoundTrip(xs: seq<int>)
    ensures IntsFromJson(IntsToJson(xs)) == Success(xs)
  {
    if xs != [] {
      var items := IntsToJson(xs);
      assert items[0] == JInt(xs[0]);
      assert items[1..] == IntsToJson(xs[1..]);
      IntsRoundTrip(xs[1..]);
      assert [xs[0]] + xs[1..] == xs;
    }
  }

  /** `serialize`: the dict written to the data file. */
  function ToJson(t: RecurringTimeslot): Json
  {
    JObject(map["start" := ClockToJson(t.start), "end" := ClockToJson(t.end),
                "days" := JList(IntsToJson(t.recurringDays)), "min_minutes" := JInt(t.minMinutes)])
  }

  /** `deserialize`: reads "days", "start", "end" and "min_minutes", in the order the constructor call evaluates them. */
  function FromJson(j: Json): Result<RecurringTimeslot>
  {
    var daysJ :- Lookup(j, "days");
    var days :- (if daysJ.JList? then IntsFromJson(daysJ.items) else Failure(TypeError));
    var startJ :- Lookup(j, "start");
    var start :- ParseClock(startJ);
    var endJ :- Lookup(j, "end");
    var end :- ParseClock(endJ);
    var minJ :- Lookup(j, "min_minutes");
    var minMinutes :- AsInt(minJ);
    Success(RecurringTimeslot(days, start, end, minMinutes))
  }

  /** The timeslot as it comes back from the data file: its times lose their seconds. */
  function Stored(t: RecurringTimeslot): RecurringTimeslot
  {
    t.(start := TruncateToMinute(t.start), end := TruncateToMinute(t.end))
  }

  predicate WholeMinutes(t: RecurringTimeslot)
  {
    WholeMinute(t.start) && WholeMinute(t.end)
  }

  /** Deserialising a serialised timeslot gives back its days and minimum, and its times without seconds. */
  lemma RoundTrip(t: RecurringTimeslot)
    ensures FromJson(ToJson(t)) == Success(Stored(t))
    ensures WholeMinutes(t) ==> FromJson(ToJson(t)) == Success(t)
  {
    IntsRoundTrip(t.recurringDays);
    HourMinuteRecompose(t.start);
    HourMinuteRecompose(t.end);
  }
}
