/**
  The older `RecurringTimeslot` of timeslot.py. Its fields, `_get_day_name` and
  `is_valid_shift` are the same as those of hungry/timeslot.py (less the debugging
  output), so the model shares them; only `__str__` differs.
*/
module LegacyTimeslot {
  import opened Wrappers
  import opened Timeslot

  /**
    `__str__` as written: after the day names it formats `self.minMinutes`, an attribute
    the constructor never sets (it sets `min_minutes`).
  */
  function DescribeAsWritten(t: RecurringTimeslot): Result<TimeslotText>
  {
    var names :- DayNameList(t.recurringDays);
    Failure(AttributeError("minMinutes"))
  }

  /**
    No timeslot can be printed: an out-of-range day raises `TypeError` in the join, and
    every other timeslot raises `AttributeError` on the misspelt field.
  */
  lemma DescribeAsWrittenAlwaysFails(t: RecurringTimeslot)
    ensures DescribeAsWritten(t).Failure?
    ensures DescribeAsWritten(t).error ==
              if forall i :: 0 <= i < |t.recurringDays| ==> 0 <= t.recurringDays[i] <= 6
              then AttributeError("minMinutes") else TypeError
    ensures Describe(t).Success? ==> DescribeAsWritten(t) == Failure(AttributeError("minMinutes"))
  {
  }
}
