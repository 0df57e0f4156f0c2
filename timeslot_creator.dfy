/**
  The validation of timeslot_creator.py: turning the typed answers into a timeslot, and
  the rule that picks the timeslot to delete from the number typed at the menu. The
  prompts, the parsing of "HH:MM" and of integers, and the menu loop itself are input
  handling and are not part of this model: the parsed values are parameters here.
*/
module TimeslotCreator {
  import opened Wrappers
  import opened Clock
  import opened Timeslot
  import Text

  /**
    A list comprehension whose element expression may raise: the values in order, or the
    exception of the first element that raises.
  */
  function Collect(results: seq<Result<int>>): (r: Result<seq<int>>)
    ensures r.Success? <==> forall i :: 0 <= i < |results| ==> results[i].Success?
    ensures r.Success? ==> |r.value| == |results|
    ensures r.Success? ==> forall i :: 0 <= i < |results| ==> r.value[i] == results[i].value
    ensures r.Failure? ==> exists i :: 0 <= i < |results| && results[i] == Failure(r.error)
                                       && forall j :: 0 <= j < i ==> results[j].Success?
  {
    if results == [] then Success([])
    else if results[0].Failure? then Failure(results[0].error)
    else
      var rest := Collect(results[1..]);
      if rest.Failure? then
        var i :| 0 <= i < |results[1..]| && results[1..][i] == Failure(rest.error)
                 && forall j :: 0 <= j < i ==> results[1..][j].Success?;
        assert results[i + 1] == Failure(rest.error);
        assert forall j :: 1 <= j < i + 1 ==> results[j] == results[1..][j - 1];
        Failure(rest.error)
      else Success([results[0].value] + rest.value)
  }

  /**
    `[RecurringTimeslot._day_name_to_int(day) for day in names]`: each name converted in
    order; the first unknown name raises its KeyError.
  */
  function DayNumbersOf(names: seq<string>): (r: Result<seq<int>>)
    ensures r.Success? <==> forall i :: 0 <= i < |names| ==> DayNameToInt(names[i]).Success?
    ensures r.Success? ==> |r.value| == |names|
    ensures r.Success? ==> forall i :: 0 <= i < |names| ==> r.value[i] == DayNameToInt(names[i]).value
    ensures r.Failure? ==> exists i :: 0 <= i < |names| && DayNameToInt(names[i]) == Failure(r.error)
                                       && forall j :: 0 <= j < i ==> DayNameToInt(names[j]).Success?
  {
    var results := seq(|names|, i requires 0 <= i < |names| => DayNameToInt(names[i]));
    assert |results| == |names| && forall i :: 0 <= i < |names| ==> results[i] == DayNameToInt(names[i]);
    Collect(results)
  }

  /** Every day number a name converts to is a weekday, 0 to 6. */
  lemma DayNumberInWeek(name: string)
    ensures DayNameToInt(name).Success? ==> 0 <= DayNameToInt(name).value <= 6
  {
    DayNumbersIndexKeys();
  }

  /** The days answer, split at every comma. */
  function DaysFromInput(input: string): Result<seq<int>>
  {
    DayNumbersOf(Text.Split(input, ','))
  }

  /** `create_timeslot` with its four answers as parameters. */
  function CreateTimeslot(daysInput: string, start: ClockTime, end: ClockTime, minLength: int): Result<RecurringTimeslot>
  {
    var days :- DaysFromInput(daysInput);
    if minLength < 0 then
      Failure(ValueError("Min duration must be greater than 0"))
    else if DeltaSeconds(start, end) < minLength * SecondsPerMinute then
      Failure(ValueError("Min duration must be less than the difference between start and end times"))
    else
      Success(RecurringTimeslot(days, start, end, minLength))
  }

  /**
    A timeslot is created exactly when every day name is known, the minimum is not
    negative and the window, measured forward modulo a day, is at least the minimum.
    The result then carries the given days, times and minimum, all days within 0..6. A
    bad day name is reported before a bad minimum, and a negative minimum before a long one.
  */
  lemma CreateTimeslotIff(daysInput: string, start: ClockTime, end: ClockTime, minLength: int)
    ensures var r := CreateTimeslot(daysInput, start, end, minLength);
            && (r.Success? <==> DaysFromInput(daysInput).Success? && 0 <= minLength
                                && minLength * SecondsPerMinute <= DeltaSeconds(start, end))
            && (r.Success? ==> r.value == RecurringTimeslot(DaysFromInput(daysInput).value, start, end, minLength)
                               && forall d :: d in r.value.recurringDays ==> 0 <= d <= 6)
            && (DaysFromInput(daysInput).Failure? ==> r == Failure(DaysFromInput(daysInput).error))
            && (DaysFromInput(daysInput).Success? && minLength < 0 ==>
                  r == Failure(ValueError("Min duration must be greater than 0")))
            && (DaysFromInput(daysInput).Success? && 0 <= minLength && DeltaSeconds(start, end) < minLength * SecondsPerMinute ==>
                  r == Failure(ValueError("Min duration must be less than the difference between start and end times")))
  {
    var names := Text.Split(daysInput, ',');
    var r := CreateTimeslot(daysInput, start, end, minLength);
    if r.Success? {
      forall d | d in r.value.recurringDays
        ensures 0 <= d <= 6
      {
        var i :| 0 <= i < |names| && r.value.recurringDays[i] == d;
        DayNumberInWeek(names[i]);
      }
    }
  }

  /** A zero minimum is accepted whatever the window, even an empty one. */
  lemma ZeroMinimumAccepted(daysInput: string, start: ClockTime, end: ClockTime)
    ensures CreateTimeslot(daysInput, start, end, 0).Success? <==> DaysFromInput(daysInput).Success?
  {
    CreateTimeslotIff(daysInput, start, end, 0);
  }

  /**
    The validation guarantees the window itself: a created timeslot accepts the shift that
    starts at its start time on any of its days and ends at its end time, the next day when
    the window crosses midnight.
  */
  lemma CreatedTimeslotAcceptsItsWindow(daysInput: string, start: ClockTime, end: ClockTime, minLength: int,
                                        t: RecurringTimeslot, week: int, k: int)
    requires CreateTimeslot(daysInput, start, end, minLength) == Success(t)
    requires 0 <= k < |t.recurringDays|
    ensures t.start == start && t.end == end
    ensures var shiftStart := (week * 7 + t.recurringDays[k]) * SecondsPerDay + t.start;
            IsValidShift(t, shiftStart, shiftStart + DeltaSeconds(t.start, t.end))
  {
    CreatedFields(daysInput, start, end, minLength, t);
    assert t.recurringDays[k] in t.recurringDays;
    WindowShiftAccepted(t, week, k);
  }

  /** What a created timeslot is known to hold. */
  lemma CreatedFields(daysInput: string, start: ClockTime, end: ClockTime, minLength: int, t: RecurringTimeslot)
    requires CreateTimeslot(daysInput, start, end, minLength) == Success(t)
    ensures t.start == start && t.end == end && t.minMinutes == minLength
    ensures minLength * SecondsPerMinute <= DeltaSeconds(start, end)
    ensures forall d :: d in t.recurringDays ==> 0 <= d <= 6
  {
    CreateTimeslotIff(daysInput, start, end, minLength);
  }

  /** A timeslot whose window is long enough accepts the shift spanning its window. */
  lemma {:induction false} WindowShiftAccepted(t: RecurringTimeslot, week: int, k: int)
    requires 0 <= k < |t.recurringDays| && 0 <= t.recurringDays[k] <= 6
    requires t.minMinutes * SecondsPerMinute <= DeltaSeconds(t.start, t.end)
    ensures var shiftStart := (week * 7 + t.recurringDays[k]) * SecondsPerDay + t.start;
            IsValidShift(t, shiftStart, shiftStart + DeltaSeconds(t.start, t.end))
  {
    var day := t.recurringDays[k];
    var dayIndex := week * 7 + day;
    var shiftStart := dayIndex * SecondsPerDay + t.start;
    var delta := DeltaSeconds(t.start, t.end);
    DivModUnique(shiftStart, dayIndex, t.start, SecondsPerDay);
    DivModUnique(dayIndex, week, day, 7);
    assert Weekday(shiftStart) == day;
    var wrap := if t.start <= t.end then 0 else 1;
    DivModUnique(t.end - t.start, -wrap, t.end - t.start + wrap * SecondsPerDay, SecondsPerDay);
    assert delta == t.end - t.start + wrap * SecondsPerDay;
    DivModUnique(shiftStart + delta, dayIndex + wrap, t.end, SecondsPerDay);
    assert TimeOf(shiftStart + delta) == t.end;
    DivModUnique(delta, 0, delta, SecondsPerDay);
    assert DeltaSeconds(shiftStart, shiftStart + delta) == delta;
  }

  /**
    `storage.recurring_timeslots[timeslot_number - 1]`: the index the typed number selects
    among `count` timeslots, or None where Python raises IndexError. Python's negative
    indexing makes every number from -count+1 up to count select something.
  */
  function DeletionIndex(count: nat, number: int): (r: Option<nat>)
    ensures r.Some? <==> -(count as int) < number <= count
    ensures r.Some? ==> r.value < count
  {
    var i := number - 1;
    if 0 <= i < count then Some(i)
    else if -(count as int) <= i < 0 then Some(count + i)
    else None
  }

  /**
    The menu lists timeslot i as number i + 1, and typing that number selects it; typing
    0 selects the last timeslot instead of being rejected, and a non-positive number -m
    selects the timeslot m + 1 places from the end.
  */
  lemma DeletionNumbering(count: nat, i: nat, m: nat)
    ensures i < count ==> DeletionIndex(count, i + 1) == Some(i)
    ensures count > 0 ==> DeletionIndex(count, 0) == Some(count - 1)
    ensures m + 1 < count ==> DeletionIndex(count, -(m as int)) == Some(count - 1 - m)
    ensures DeletionIndex(count, count + 1) == None && DeletionIndex(count, -(count as int)) == None
  {
  }
}
