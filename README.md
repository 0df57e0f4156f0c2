# Hungry-Shift-Helper, modelled in Dafny

Hungry-Shift-Helper watches a courier-scheduling service for open shifts. On each cycle it:

1. fetches the open shifts;
2. finds those it has not seen before, comparing by shift id;
3. saves the whole fetch to its data file;
4. keeps the new shifts that fall inside one of the user's recurring timeslots;
5. optionally takes them;
6. sends a notification when there are any.

This project models that core and proves what it promises:

- the recurring-timeslot matcher, with its weekday names, description and serialisation (`Timeslot`, `LegacyTimeslot`);
- shift identity by id, with hashing, the duration split and serialisation (`Shifts`);
- the persistent, singleton storage with five fields (`Persistence`);
- the poll loop of `run.py` (`Poll`) and the older loop of `hungry.py` (`LegacyPoll`);
- the validation in `timeslot_creator.py` (`TimeslotCreator`).

Supporting modules:

- `Wrappers`: Option, Result and the Python exceptions the core raises.
- `Clock`: instants and times of day.
- `Text`: the string operations used.
- `JsonValues`: the JSON values stored in the data file.
- `Services`: the scheduling service and the notifier, reduced to what the loop observes.

## How the model represents things

**Instants and durations.**

- An instant is a whole number of seconds from a Monday midnight.
- `weekday()` is `(t / 86400) % 7` and `time()` is `t % 86400`.
- `(end - start).seconds` is `(end - start) % 86400`.
- Python's floor `%` and Dafny's Euclidean `%` agree here because the divisor is positive.
- The test `seconds / 60 < min_minutes` is written as `seconds < 60 * min_minutes`. This is exact for integer minutes.

**The data file.**

- The file is a JSON tree, not text.
- An "HH:MM" string is a clock leaf and an ISO date-time string is an instant leaf.
- A `FileSystem` object maps file names to either a document or unparsable content, and the storage reads and writes it in place.

**Storage.** `Storage` is a class with the source's five fields. Each property setter assigns its field and then rewrites the whole file, and the setter contracts say exactly that.

**External services.**

- The scheduling service is a `HungryApi` object. A fixed function gives its answer to the k-th fetch (a set of shifts or an exception), and a set holds the shift ids it refuses to hand over. The object records every fetch and take.
- The notifier records every message handed to it.

**Where the code and the specification differ, the model follows the code:**

- **Shift equality.** Shifts are equal when their ids are equal (hungry/shift.py:32-35). The specification describes structural equality on start and end.
- **Shifts crossing midnight.** The matcher compares times of day and the duration modulo one day. A shift crossing midnight can therefore be accepted, and so can one that ends before it starts (`Timeslot.CrossingMidnightAccepted`). The specification says such shifts are never matched.
- **Take failures.** In run.py a failed take aborts the rest of the cycle, including the match notification (run.py:94-118). The specification says each take failure is isolated.
- **Notification body.** In run.py the notification lists the valid shifts (run.py:105). The specification says it lists every fetched shift. hungry.py does list every fetched shift, but its title counts them too (hungry.py:102-104).

## Model

| member | source | states |
|---|---|---|
| `Clock.DeltaSecondsDropsDays` | hungry/timeslot.py:60 | `timedelta.seconds` ignores whole days added to the end |
| `Clock.WeeklyRecurrence` | hungry/timeslot.py:52-57 | weekday and time of day are unchanged by whole weeks |
| `Clock.HourMinuteRecompose` | hungry/timeslot.py:84-96 | the hour and minute written as "HH:MM" are in range and give back the time without its seconds |
| `Text.Strip` | hungry/timeslot.py:41 | `str.strip()`: the result is a slice of the input with no whitespace at either end, and only whitespace was removed |
| `Text.Split` | timeslot_creator.py:11 | `str.split(',')` gives at least one piece and no piece contains the separator |
| `Text.JoinSplit` | timeslot_creator.py:11 | joining the pieces of a split with the separator gives back the input |
| `Text.NatToDecimal` | run.py:104 | the decimal text of a count is all digits with no leading zero |
| `Text.DecimalRoundTrip` | run.py:104 | the decimal text of a count reads back as that count |
| `JsonValues.Lookup` | hungry/Storage.py:35-39 | `data[key]` succeeds iff the value is an object holding the key; a missing key raises KeyError with that key, a non-object raises TypeError |
| `JsonValues.Elements` | hungry/Storage.py:35-36 | iterating a stored value gives a list's items; an empty string or object gives nothing; any other value raises TypeError |
| `Timeslot.DayNumbersIndexKeys` | hungry/timeslot.py:33-41 | the name table maps the n-th lower-case weekday name to n and holds nothing else |
| `Timeslot.DayNameRoundTrip` | hungry/timeslot.py:23-41 | `_day_name_to_int` inverts `_get_day_name` on 0..6 |
| `Timeslot.DayNameToIntIff` | hungry/timeslot.py:30-41 | a name converts to n iff, stripped and lower-cased, it is weekday n's name lower-cased; otherwise it raises KeyError |
| `Timeslot.DayNameToIntExample` | hungry/timeslot.py:41 | case and surrounding whitespace are ignored: "  SunDay\n" is 6 |
| `Timeslot.AbbreviationRejected` | hungry/timeslot.py:33-41 | "mon" is not a weekday name and raises KeyError("mon") |
| `Timeslot.RejectsWrongDay` | hungry/timeslot.py:52-53 | a start weekday not in `recurring_days` is rejected |
| `Timeslot.RejectsOutsideWindow` | hungry/timeslot.py:56-57 | a start before the window or an end after it is rejected (both bounds inclusive) |
| `Timeslot.RejectsShortShift` | hungry/timeslot.py:60-61 | a duration modulo one day below `60 * min_minutes` seconds is rejected |
| `Timeslot.IsValidShiftIff` | hungry/timeslot.py:43-62 | the matcher accepts exactly the shifts passing all three checks, and depends on nothing else |
| `Timeslot.DurationModuloDay` | hungry/timeslot.py:60-61 | a shift is judged the same when whole days are added to its end (a 25-hour shift counts as 1 hour) |
| `Timeslot.MatchRecursWeekly` | hungry/timeslot.py:43-62 | moving a shift by whole weeks does not change whether it matches |
| `Timeslot.CrossingMidnightAccepted` | hungry/timeslot.py:56-61 | a Monday 19:00 to Tuesday 09:00 shift passes an 08:00-20:00 Monday window; a shift ending before it starts passes the all-day window |
| `Timeslot.WeekendWindowExample` | hungry/timeslot.py:43-62 | Saturday and Sunday 10:00-14:00 with a 120-minute minimum: a 90-minute Saturday shift is rejected, a 180-minute one accepted |
| `Timeslot.DayNameList` | hungry/timeslot.py:74 | the day names joined by `__str__` are the names of the recurring days in order; any day outside 0..6 makes the join raise TypeError |
| `Timeslot.DescribeSucceedsIffDaysValid` | hungry/timeslot.py:64-76 | `__str__` succeeds iff every day is in 0..6, and then shows the window to the minute and the timeslot's own minimum |
| `Timeslot.IntsRoundTrip` | hungry/timeslot.py:86-94 | the stored day list reads back as the same days |
| `Timeslot.RoundTrip` | hungry/timeslot.py:81-98 | `deserialize(serialize(t))` gives back days and minimum, and the times without seconds; equal to t when its times are whole minutes |
| `LegacyTimeslot.DescribeAsWrittenAlwaysFails` | timeslot.py:65-71 | the older `__str__` raises for every timeslot: TypeError for a bad day, AttributeError("minMinutes") otherwise |
| `Shifts.EqualsIffSameId` | hungry/shift.py:32-35 | two shifts are equal iff their ids are equal, whatever their times or status |
| `Shifts.NeverEqualsNonShift` | hungry/shift.py:33-35 | a shift never equals a non-Shift value |
| `Shifts.EqualsIsEquivalence` | hungry/shift.py:32-35 | shift equality is reflexive, symmetric and transitive |
| `Shifts.HashConsistentWithEquals` | hungry/shift.py:61-62 | equal shifts have equal hashes |
| `Shifts.DurationPartsSplit` | hungry/shift.py:50-56 | the printed hours and minutes are the whole hours and leftover minutes of the duration modulo a day: hours in 0..23, minutes in 0..59, less than a minute short of the duration |
| `Shifts.RoundTrip` | hungry/shift.py:64-87 | `deserialize(serialize(s))` reproduces all seven fields |
| `Shifts.MissingKeyFails` | hungry/shift.py:76-87 | a stored shift without one of its keys raises KeyError for that key |
| `Persistence.TimeslotsRoundTrip` | hungry/Storage.py:35-46 | the saved timeslot list loads back as the same timeslots without seconds |
| `Persistence.ShiftsRoundTrip` | hungry/Storage.py:36-47 | the saved shift list loads back as the same shifts |
| `Persistence.DecodeEncode` | hungry/Storage.py:31-51 | decoding a saved snapshot gives back all five fields, timeslot times without seconds |
| `Persistence.SaveThenLoad` | hungry/Storage.py:31-51 | loading a file that saving wrote restores the saved state, exactly when the timeslot times are whole minutes |
| `Persistence.MissingFileGivesDefaults` | hungry/Storage.py:18-41 | with no data file the state is empty lists and None for token, expiration and city |
| `Persistence.OnlyMissingFileTolerated` | hungry/Storage.py:31-41 | an unparsable file raises, and a file missing any of the five keys raises KeyError for it |
| `Persistence.Storage.constructor` | hungry/Storage.py:18-26 | a new storage starts with the defaults and the given file name |
| `Persistence.Storage.LoadDataToMemory` | hungry/Storage.py:31-41 | loading succeeds iff the file is missing or decodes; a missing file keeps the state, a decoded one replaces all five fields |
| `Persistence.Storage.SaveDataToFile` | hungry/Storage.py:43-51 | the data file becomes the encoding of all five fields, other files unchanged |
| `Persistence.Storage.SetCityId` | hungry/Storage.py:58-61 | sets `city_id` only, and the file then holds the whole new state |
| `Persistence.Storage.SetTimeslots` | hungry/Storage.py:67-70 | sets the timeslots only, and the file then holds the whole new state |
| `Persistence.Storage.SetShifts` | hungry/Storage.py:76-79 | sets the shifts only, and the file then holds the whole new state |
| `Persistence.Storage.SetToken` | hungry/Storage.py:85-88 | sets the token only, and the file then holds the whole new state |
| `Persistence.Storage.SetTokenExpiration` | hungry/Storage.py:94-97 | sets the expiration only, and the file then holds the whole new state |
| `Persistence.StorageSingleton.constructor` | hungry/Storage.py:8 | no instance exists at first |
| `Persistence.StorageSingleton.Call` | hungry/Storage.py:10-13 | the first successful call creates and loads the instance; later calls return it and ignore their arguments; a failed load registers nothing |
| `Services.TakeResultIff` | hungry/hungryAPI.py:127-139 | as intended, a take succeeds iff the shift is PENDING or UNASSIGNED and the service accepts it; any other status raises |
| `Services.NoTakeSucceedsAsWritten` | hungry/hungryAPI.py:127-156 | as written, no take succeeds: a PENDING take raises AttributeError on `self.token`, an UNASSIGNED one on `shift.start_at`, even where the intended rule takes the shift; other statuses raise as intended |
| `Services.HungryApi.GetShifts` | hungry/hungryAPI.py:119-124 | a fetch returns the service's next answer, a set of shifts with distinct ids or an exception |
| `Services.HungryApi.TakeShift` | hungry/hungryAPI.py:127-139 | a take is recorded, succeeds per the take rule, and records the shift as taken only on success |
| `Services.Notifier.Notify` | run.py:106 | every message is recorded in order, and the result says whether the target accepted it |
| `Poll.EternalMatchesIff` | run.py:126-136 | the default timeslot accepts a shift iff it does not end in the last minute of a day |
| `Poll.EternalExample` | run.py:56-60 | the default timeslot accepts a Monday 09:00-17:00 shift |
| `Poll.Unseen` | run.py:78 | the new shifts are exactly the fetched shifts not among the saved ones, no more than were fetched |
| `Poll.NewIffNoSavedId` | run.py:78 | a fetched shift is new iff no saved shift has its id |
| `Poll.UnseenKeepsUniqueIds` | run.py:67-78 | the new shifts keep the fetched set's distinct ids |
| `Poll.NothingNewInUnchangedFetch` | run.py:78-82 | against its own saved fetch, nothing is new |
| `Poll.NothingNewAmongSaved` | run.py:78 | shifts all among the saved ones yield nothing new |
| `Poll.ReappearingShiftIsNew` | run.py:78-82 | a shift missing from one fetch counts as new again when it reappears, though it was seen before |
| `Poll.ValidSetIsNewAndDistinct` | run.py:85-89 | the valid shifts are new shifts, no two share an id, and there are no more of them than new shifts |
| `Poll.SecondCycleFindsNothing` | run.py:78-89 | against an unchanged fetch no shift is valid |
| `Poll.NewShifts` | run.py:78 | the loop's filter computes the new shifts |
| `Poll.CollectValid` | run.py:85-89 | the nested loop computes exactly the new shifts some timeslot accepts |
| `Poll.TakeAll` | run.py:94-100 | each valid shift is taken once; the first failure stops the loop; the shifts tried before it were taken |
| `Poll.MatchTitleCount` | run.py:104 | the title starts with the number of valid shifts and says "procured." or "found." |
| `Poll.DescribeAll` | run.py:90 | formatting the stored timeslots for the debug line succeeds iff each timeslot's `__str__` does, giving one description per timeslot; otherwise it raises TypeError |
| `Poll.DescribeAllIffDaysValid` | run.py:90 | the debug line can be built iff every stored day is in 0..6; the default timeslot always can |
| `Poll.FinishCycle` | run.py:90-118 | after matching: a timeslot that cannot be logged sends only the error message and takes nothing; otherwise, when asked, each valid shift is tried at most once and all are taken unless one fails, which ends the taking after the earlier ones were taken and sends only its error, and a match notification goes out iff some shift is valid |
| `Poll.ProcessFetch` | run.py:73-118 | after a successful fetch: the saved shifts become the fetch and the file is rewritten with the whole state, the new and valid shifts are those of `Poll.Unseen` and `Poll.ValidSet`, and the rest is as in `Poll.FinishCycle` |
| `Poll.RunCycle` | run.py:64-118 | fetch, diff, replace and persist, match, log, take, notify; a fetch failure changes nothing else, a log-line or take failure after the save sends only the error message and the replaced shifts stay replaced; the messages sent are exactly those of the outcome |
| `Poll.AutoTakeNeverStartsAsWritten` | run.py:50-53 | as written, starting with auto-take always raises AttributeError |
| `Poll.ConfirmIntended` | run.py:50-53 | as intended, confirmation is needed only with auto-take and no stored timeslot, and only "y" or "Y" goes on |
| `Poll.Run` | run.py:49-123 | a declined start changes nothing; otherwise the default timeslot is installed iff none is stored, and the data file then holds the whole state (as it does whenever it did at the start), and one cycle runs without a frequency or with 0 or a negative one (which then crashes in `sleep`) |
| `Poll.SameFetchTwice` | run.py:74-118 | two cycles with the same fetch: the second finds nothing, takes nothing and adds no message to the log, except the same TypeError message again when the stored timeslots cannot be logged |
| `LegacyPoll.LegacyMessageReportsFetch` | hungry.py:96-104 | the older notification's title counts the fetched shifts and its body lists all of them, a superset of the valid ones |
| `LegacyPoll.LegacyFinish` | hungry.py:87-104 | with auto-take each valid shift is tried at most once and the first failed take escapes with nothing sent, after the earlier ones were taken; otherwise the notification of all fetched shifts goes out iff some shift is valid |
| `LegacyPoll.LegacyCycle` | hungry.py:67-104 | the same diff, save and match as run.py; failures are not caught and send nothing; with auto-take each valid shift is tried at most once, and those tried before a failed take were taken; a failed fetch changes nothing but the fetch count; there is no log-line failure; a notification of all fetched shifts goes out iff some new shift is valid |
| `LegacyPoll.LegacyRun` | hungry.py:48-107 | a default timeslot is appended iff none is stored; one cycle runs without a frequency, a frequency of 0 repeats, and any failure ends the run |
| `TimeslotCreator.Collect` | timeslot_creator.py:11 | a comprehension whose elements may raise gives all values in order, or the first element's exception |
| `TimeslotCreator.DayNumbersOf` | timeslot_creator.py:11 | the names convert in order, and the first unknown name's KeyError is raised |
| `TimeslotCreator.DayNumberInWeek` | hungry/timeslot.py:33-41 | a converted day name is a weekday number, 0 to 6 |
| `TimeslotCreator.CreateTimeslotIff` | timeslot_creator.py:6-37 | a timeslot is created iff the names are known, the minimum is not negative and the window modulo a day is long enough; the result holds exactly the inputs; the errors come in source order |
| `TimeslotCreator.ZeroMinimumAccepted` | timeslot_creator.py:29-34 | a zero minimum passes whatever the window |
| `TimeslotCreator.CreatedFields` | timeslot_creator.py:29-37 | a created timeslot holds the given times and minimum, its window reaches the minimum, and its days are in 0..6 |
| `TimeslotCreator.CreatedTimeslotAcceptsItsWindow` | timeslot_creator.py:33-37 | a created timeslot accepts the shift spanning its own window on each of its days |
| `TimeslotCreator.WindowShiftAccepted` | hungry/timeslot.py:43-62 | a timeslot whose window reaches its minimum accepts the shift spanning that window |
| `TimeslotCreator.DeletionIndex` | timeslot_creator.py:76-79 | a typed number selects an index iff it is between -count+1 and count |
| `TimeslotCreator.DeletionNumbering` | timeslot_creator.py:46-79 | the listed number i+1 selects timeslot i, 0 selects the last, -m selects m+1 places from the end |

## Left out

- The HTTP side of hungry/hungryAPI.py and hungryAPI.py: login, token refresh, app-version lookup, the requests and response parsing. The service is the `HungryApi` object, whose answers are parameters.
- hungryAPI.py is the older service used by hungry.py. Its `_take_unassigned_shift` raises NotImplementedError. Both loops use the corrected take rule of hungry/hungryAPI.py (`Services.TakeResult`), under which PENDING and UNASSIGNED shifts can be taken. As written, no take succeeds (see Findings).
- JSON text, `open`, `json.load` and `json.dump`. The data file is a tree of values, and a write never fails.
- Values of an unexpected JSON type in the data file. Python keeps a value it does not parse as it is. Some such values keep working, such as a float `min_minutes`, a boolean where an integer is expected, or a string shift id. Others fail later. The model accepts only the expected type for each field and rejects any other when loading.
- apprise, logging, `print`, argparse, `input()` prompts and `time.sleep`.
  - The user's answer and the options are parameters.
  - A notification is a title and a body of shifts or an error, not formatted text.
  - The month name and the "HH:MM" text of `Shift.__str__` are not modelled; only its hour and minute numbers are.
- Lower-casing outside ASCII, microseconds and time zones. Instants are whole seconds without a zone.
- The Singleton metaclass beyond keeping one instance per class.
- The top-level Storage module used by hungry.py is not part of this model. Its `get_shifts`, `save_shifts`, `recurring_timeslots` and `add_recurring_timeslot` are modelled by the hungry/Storage.py getters and setters.
- In timeslot_creator.py:
  - the `add_recurring_timeslot` and `delete_recurring_timeslot` calls, which hungry/Storage.py does not define;
  - the interactive menu loop;
  - the parsing of "HH:MM" and of integers.
  The rule that selects a timeslot by number is modelled.
- The older timeslot.py `is_valid_shift` (timeslot.py:45-61) and `_get_day_name` (timeslot.py:29-32) are the same code as in hungry/timeslot.py, apart from debugging output. So are the older shift.py `__eq__`, `__hash__` and `__str__` numbers (shift.py:16-44) compared with hungry/shift.py. The model defines each once, in `Timeslot` and `Shifts`.
- Poll.Run: it starts with the corrected check `Poll.Confirm`. As written (run.py:50), every start with `--auto-take` raises AttributeError before the loop, as `Poll.ConfirmAsWritten` models; the auto-take cycles are those of the corrected program.
- Poll.RunCycle: the frame clauses that keep the token, its expiration and the city id, and that leave the file unchanged after a failed fetch, hold only because the fetch is abstracted. In the source `get_shifts` can re-authenticate (hungry/hungryAPI.py:97-104), which sets those three fields and rewrites the data file.
- LegacyPoll.LegacyCycle: the same frame clauses hold only because the fetch is abstracted, as for `Poll.RunCycle`.
- Poll.Run: the `while True` loop with a positive frequency is observed for `horizon` cycles, not forever. The contract counts the cycles and fetches. Each cycle's effects are stated by `Poll.RunCycle`, not repeated per cycle.
- LegacyPoll.LegacyRun: observed for `horizon` cycles in the same way, and the contract states the cycle count only up to the first failure.
- Persistence.Storage.LoadDataToMemory: after an error part-way through, the contract does not say which fields were already overwritten. The body overwrites them in the source's order.

## Findings

| source | as written | input that shows it | evidently intended | confidence | as-written member | corrected member |
|---|---|---|---|---|---|---|
| run.py:50 | `storage.recurringTimeslots`, an attribute Storage does not define, so the check raises AttributeError | any start with `--auto-take` | `storage.recurring_timeslots`: ask for confirmation only when no timeslot is stored | high; not executed | `Poll.ConfirmAsWritten`, `Poll.AutoTakeNeverStartsAsWritten` | `Poll.Confirm`, `Poll.ConfirmIntended` |
| timeslot.py:70 | `self.minMinutes`, never set (the constructor sets `min_minutes`) | `RecurringTimeslot([0], 10:00, 12:00, 30)` printed | `self.min_minutes`, as in hungry/timeslot.py:75 | high; not executed | `LegacyTimeslot.DescribeAsWritten`, `LegacyTimeslot.DescribeAsWrittenAlwaysFails` | `Timeslot.Describe`, `Timeslot.DescribeSucceedsIffDaysValid` |
| hungry/hungryAPI.py:150-151 | `shift.start_at` and `shift.end_at`, attributes a Shift does not have | taking any shift with status UNASSIGNED | the shift's `start` and `end` | high; not executed | `Services.TakeResultAsWritten`, `Services.NoTakeSucceedsAsWritten` | `Services.TakeResult`, `Services.TakeResultIff` |
| hungry/hungryAPI.py:143 | `self.token`, an attribute `HungryAPI.__init__` never sets (the login stores the token in `Storage().token`, hungry/hungryAPI.py:60) | taking any shift with status PENDING | `Storage().token`, as the fetches use at hungry/hungryAPI.py:109 | high; not executed | `Services.TakeResultAsWritten`, `Services.NoTakeSucceedsAsWritten` | `Services.TakeResult`, `Services.TakeResultIff` |
