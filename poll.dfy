/**
  The poll loop of run.py: fetch the open shifts, find those not seen before, save the
  fetch, keep the new shifts some timeslot accepts, optionally take them, and notify.
*/
module Poll {
  import opened Wrappers
  import opened Clock
  import opened Timeslot
  import opened Shifts
  import opened Persistence
  import opened Services
  import Text

  /** `get_eternal_timeslot`: every weekday, 00:00 to 23:59, no minimum length. */
  function EternalTimeslot(): RecurringTimeslot
  {
    RecurringTimeslot([0, 1, 2, 3, 4, 5, 6], At(0, 0), At(23, 59), 0)
  }

  /**
    The default timeslot accepts a shift exactly when the shift does not end in the last
    minute of a day (23:59:01 to 23:59:59), whatever its day, start or length.
  */
  lemma EternalMatchesIff(start: Instant, end: Instant)
    ensures IsValidShift(EternalTimeslot(), start, end) <==> TimeOf(end) <= At(23, 59)
  {
    var d := Weekday(start);
    assert 0 <= d < 7;
    assert d in EternalTimeslot().recurringDays by {
      assert EternalTimeslot().recurringDays[d] == d;
    }
  }

  /** A Monday 09:00 to 17:00 shift is accepted by the default timeslot. */
  lemma EternalExample()
    ensures IsValidShift(EternalTimeslot(), At(9, 0), At(17, 0))
  {
    EternalMatchesIff(At(9, 0), At(17, 0));
  }

  // ---- Which fetched shifts are new ----

  /** `[shift for shift in shifts if shift not in saved_shifts]`. */
  function Unseen(fetched: seq<Shift>, saved: seq<Shift>): (r: seq<Shift>)
    ensures |r| <= |fetched|
    ensures forall s :: s in r <==> s in fetched && !Seen(saved, s)
  {
    if fetched == [] then []
    else
      var last := fetched[|fetched| - 1];
      Unseen(fetched[..|fetched| - 1], saved) + (if Seen(saved, last) then [] else [last])
  }

  /** A fetched shift is new iff no saved shift has its id. */
  lemma NewIffNoSavedId(fetched: seq<Shift>, saved: seq<Shift>, s: Shift)
    ensures s in Unseen(fetched, saved) <==> s in fetched && forall t :: t in saved ==> t.id != s.id
  {
  }

  /** Filtering keeps the fetched set's distinct ids. */
  lemma {:induction false} UnseenKeepsUniqueIds(fetched: seq<Shift>, saved: seq<Shift>)
    requires UniqueIds(fetched)
    ensures UniqueIds(Unseen(fetched, saved))
  {
    if fetched != [] {
      var init := fetched[..|fetched| - 1];
      var last := fetched[|fetched| - 1];
      assert UniqueIds(init);
      UnseenKeepsUniqueIds(init, saved);
      forall s | s in Unseen(init, saved)
        ensures s.id != last.id
      {
        var i :| 0 <= i < |init| && init[i] == s;
        assert fetched[i] == s;
      }
    }
  }

  /** Against its own fetch, nothing is new. */
  lemma NothingNewInUnchangedFetch(fetched: seq<Shift>)
    ensures Unseen(fetched, fetched) == []
  {
    NothingNewAmongSaved(fetched, fetched);
  }

  /** Shifts that are all among the saved ones are none of them new. */
  lemma {:induction false} NothingNewAmongSaved(fetched: seq<Shift>, saved: seq<Shift>)
    requires forall s :: s in fetched ==> s in saved
    ensures Unseen(fetched, saved) == []
  {
    if fetched != [] {
      var last := fetched[|fetched| - 1];
      var init := fetched[..|fetched| - 1];
      forall s | s in init ensures s in saved {
        var k :| 0 <= k < |init| && init[k] == s;
        assert fetched[k] == s;
      }
      NothingNewAmongSaved(init, saved);
      assert last in fetched;
      var i :| 0 <= i < |saved| && saved[i] == last;
      assert Equals(last, ShiftObject(saved[i]));
    }
  }

  /**
    A shift that was fetched, then missing from the next fetch (which replaced the saved
    shifts), counts as new again when it reappears.
  */
  lemma ReappearingShiftIsNew(earlier: seq<Shift>, between: seq<Shift>, later: seq<Shift>, s: Shift)
    requires s in earlier && s in later
    requires forall t :: t in between ==> t.id != s.id
    ensures s !in Unseen(later, earlier)
    ensures s in Unseen(later, between)
  {
    var i :| 0 <= i < |earlier| && earlier[i] == s;
    assert Equals(s, ShiftObject(earlier[i]));
  }

  // ---- Which new shifts are valid ----

  /** Some timeslot accepts the shift. */
  predicate MatchesAny(timeslots: seq<RecurringTimeslot>, s: Shift)
  {
    exists k :: 0 <= k < |timeslots| && IsValidShift(timeslots[k], s.start, s.end)
  }

  /** `valid_shifts`: the new shifts that at least one timeslot accepts. */
  function ValidSet(timeslots: seq<RecurringTimeslot>, newShifts: seq<Shift>): set<Shift>
  {
    set s | s in newShifts && MatchesAny(timeslots, s)
  }

  /**
    The valid set is part of the new shifts, and when the new shifts have distinct ids no
    two valid shifts share an id, so `len(valid_shifts)` is its size and a shift accepted
    by several timeslots is counted once.
  */
  lemma ValidSetIsNewAndDistinct(timeslots: seq<RecurringTimeslot>, newShifts: seq<Shift>)
    requires UniqueIds(newShifts)
    ensures forall s :: s in ValidSet(timeslots, newShifts) ==> s in newShifts
    ensures forall a, b :: a in ValidSet(timeslots, newShifts) && b in ValidSet(timeslots, newShifts) && a.id == b.id ==> a == b
    ensures |ValidSet(timeslots, newShifts)| <= |newShifts|
  {
    var valid := ValidSet(timeslots, newShifts);
    forall a, b | a in valid && b in valid && a.id == b.id
      ensures a == b
    {
      var i :| 0 <= i < |newShifts| && newShifts[i] == a;
      var j :| 0 <= j < |newShifts| && newShifts[j] == b;
      assert i == j;
    }
    ElementsBound(valid, newShifts);
  }

  lemma {:induction false} ElementsBound(xs: set<Shift>, ys: seq<Shift>)
    requires forall x :: x in xs ==> x in ys
    ensures |xs| <= |ys|
  {
    if ys != [] {
      var y := ys[|ys| - 1];
      var init := ys[..|ys| - 1];
      forall x | x in xs - {y}
        ensures x in init
      {
        var i :| 0 <= i < |ys| && ys[i] == x;
        assert i < |ys| - 1;
      }
      ElementsBound(xs - {y}, init);
    } else {
      assert xs == {};
    }
  }

  lemma MatchesAnyExtend(timeslots: seq<RecurringTimeslot>, k: nat, s: Shift)
    requires k < |timeslots|
    ensures MatchesAny(timeslots[..k + 1], s) <==> MatchesAny(timeslots[..k], s) || IsValidShift(timeslots[k], s.start, s.end)
  {
    if MatchesAny(timeslots[..k + 1], s) && !IsValidShift(timeslots[k], s.start, s.end) {
      var j :| 0 <= j < k + 1 && IsValidShift(timeslots[..k + 1][j], s.start, s.end);
      assert j < k && timeslots[..k][j] == timeslots[j];
    }
    if MatchesAny(timeslots[..k], s) {
      var j :| 0 <= j < k && IsValidShift(timeslots[..k][j], s.start, s.end);
      assert timeslots[..k + 1][j] == timeslots[j];
    }
    if IsValidShift(timeslots[k], s.start, s.end) {
      assert timeslots[..k + 1][k] == timeslots[k];
    }
  }

  /** Against an unchanged fetch the second cycle finds no valid shift. */
  lemma SecondCycleFindsNothing(timeslots: seq<RecurringTimeslot>, fetched: seq<Shift>)
    ensures ValidSet(timeslots, Unseen(fetched, fetched)) == {}
  {
    NothingNewInUnchangedFetch(fetched);
  }

  /** The new-shift filter of the loop, element by element. */
  method NewShifts(fetched: seq<Shift>, saved: seq<Shift>) returns (r: seq<Shift>)
    ensures r == Unseen(fetched, saved)
  {
    r := [];
    for i := 0 to |fetched|
      invariant r == Unseen(fetched[..i], saved)
    {
      assert fetched[..i + 1][..i] == fetched[..i];
      if !Seen(saved, fetched[i]) {
        r := r + [fetched[i]];
      }
    }
    assert fetched[..|fetched|] == fetched;
  }

  /** The nested loop over timeslots and new shifts that fills `valid_shifts`. */
  method CollectValid(timeslots: seq<RecurringTimeslot>, newShifts: seq<Shift>) returns (valid: set<Shift>)
    ensures valid == ValidSet(timeslots, newShifts)
  {
    valid := {};
    for k := 0 to |timeslots|
      invariant valid == ValidSet(timeslots[..k], newShifts)
    {
      for i := 0 to |newShifts|
        invariant valid == ValidSet(timeslots[..k], newShifts)
                           + set s | s in newShifts[..i] && IsValidShift(timeslots[k], s.start, s.end)
      {
        assert newShifts[..i + 1] == newShifts[..i] + [newShifts[i]];
        if IsValidShift(timeslots[k], newShifts[i].start, newShifts[i].end) {
          valid := valid + {newShifts[i]};
        }
      }
      assert newShifts[..|newShifts|] == newShifts;
      forall s ensures MatchesAny(timeslots[..k + 1], s) <==> MatchesAny(timeslots[..k], s) || IsValidShift(timeslots[k], s.start, s.end) {
        MatchesAnyExtend(timeslots, k, s);
      }
    }
    assert timeslots[..|timeslots|] == timeslots;
  }

  // ---- Taking and notifying ----

  /**
    `for shift in valid_shifts: hungry.take_shift(shift)`: each valid shift is tried once,
    in some order, and the first exception ends the loop.
  */
  method TakeAll(api: HungryApi, valid: set<Shift>) returns (o: Outcome, ghost tried: seq<Shift>)
    modifies api
    ensures api.attempts == old(api.attempts) + tried
    ensures api.fetches == old(api.fetches)
    ensures forall i, j :: 0 <= i < j < |tried| ==> tried[i] != tried[j]
    ensures forall s :: s in tried ==> s in valid
    ensures o.Pass? ==> (forall s :: s in valid ==> s in tried)
                        && (forall i :: 0 <= i < |tried| ==> TakeResult(tried[i], api.refused).Pass?)
                        && api.taken == old(api.taken) + tried
    ensures o.Fail? ==> && tried != []
                        && o == TakeResult(tried[|tried| - 1], api.refused)
                        && (forall i :: 0 <= i < |tried| - 1 ==> TakeResult(tried[i], api.refused).Pass?)
                        && api.taken == old(api.taken) + tried[..|tried| - 1]
  {
    o := Pass;
    tried := [];
    var rest := valid;
    while rest != {}
      invariant rest <= valid
      invariant api.attempts == old(api.attempts) + tried
      invariant api.taken == old(api.taken) + tried
      invariant api.fetches == old(api.fetches)
      invariant forall i, j :: 0 <= i < j < |tried| ==> tried[i] != tried[j]
      invariant forall s :: s in tried <==> s in valid && s !in rest
      invariant forall i :: 0 <= i < |tried| ==> TakeResult(tried[i], api.refused).Pass?
      decreases rest
    {
      var s :| s in rest;
      var r := api.TakeShift(s);
      ghost var before := tried;
      tried := tried + [s];
      rest := rest - {s};
      if r.Fail? {
        assert tried[..|tried| - 1] == before;
        o := r;
        return;
      }
    }
  }

  /** The title of a match notification: "<n> new shifts were procured." or "... found.". */
  function MatchTitle(n: nat, autoTake: bool): string
  {
    Text.NatToDecimal(n) + " new shifts were " + (if autoTake then "procured." else "found.")
  }

  /** The title opens with the decimal count, which reads back as that count. */
  lemma MatchTitleCount(n: nat, autoTake: bool)
    ensures var digits := Text.NatToDecimal(n);
            && MatchTitle(n, autoTake)[..|digits|] == digits
            && Text.DecimalValue(digits) == n
            && MatchTitle(n, autoTake)[|digits|..] == " new shifts were " + (if autoTake then "procured." else "found.")
  {
    Text.DecimalRoundTrip(n);
  }

  /** The notification for a cycle with valid shifts: their count in the title, the shifts in the body. */
  function MatchMessage(valid: set<Shift>, autoTake: bool): Message
  {
    Message(MatchTitle(|valid|, autoTake), Listing(valid))
  }

  /** The notification the `except` clause sends with the exception's text. */
  function ErrorMessage(e: Error): Message
  {
    Message("Hungry-Shift-Helper error", Report(e))
  }

  /**
    The descriptions the debug line `f"Retrieved timeslots: {...}"` formats, one per stored
    timeslot. The f-string is built whatever the log level, and formatting the list calls
    each timeslot's `__repr__`, that is `__str__`, so one timeslot with a day outside 0..6
    makes the whole line raise TypeError.
  */
  function DescribeAll(timeslots: seq<RecurringTimeslot>): (r: Result<seq<TimeslotText>>)
    ensures r.Success? <==> forall k :: 0 <= k < |timeslots| ==> Describe(timeslots[k]).Success?
    ensures r.Success? ==> |r.value| == |timeslots| && forall k :: 0 <= k < |timeslots| ==> Describe(timeslots[k]) == Success(r.value[k])
    ensures r.Failure? ==> r.error == TypeError
  {
    if timeslots == [] then Success([])
    else
      var first :- Describe(timeslots[0]);
      var rest :- DescribeAll(timeslots[1..]);
      Success([first] + rest)
  }

  /** Every timeslot whose days are all weekday numbers can be logged; the default one among them. */
  lemma DescribeAllIffDaysValid(timeslots: seq<RecurringTimeslot>)
    ensures DescribeAll(timeslots).Success? <==>
              forall k, i :: 0 <= k < |timeslots| && 0 <= i < |timeslots[k].recurringDays| ==> 0 <= timeslots[k].recurringDays[i] <= 6
    ensures DescribeAll([EternalTimeslot()]).Success?
  {
    forall k | 0 <= k < |timeslots| {
      DescribeSucceedsIffDaysValid(timeslots[k]);
    }
    DescribeSucceedsIffDaysValid(EternalTimeslot());
  }

  datatype CycleOutcome =
    | FetchFailed(error: Error)
    | LogFailed(error: Error, newShifts: seq<Shift>, valid: set<Shift>)
    | TakeFailed(error: Error, newShifts: seq<Shift>, valid: set<Shift>)
    | Completed(newShifts: seq<Shift>, valid: set<Shift>)

  /** What a cycle of run.py hands to the notifier: the error, or the match when there is one. */
  function CycleMessages(o: CycleOutcome, autoTake: bool): seq<Message>
  {
    match o
    case Completed(_, valid) => if valid == {} then [] else [MatchMessage(valid, autoTake)]
    case _ => [ErrorMessage(o.error)]
  }

  /**
    What a cycle did to the service's take log (`attempts0` and `taken0` before it,
    `attempts` and `taken` after): nothing when the fetch or the log line failed or
    auto-take is off; otherwise each valid shift was tried once, and either all were taken
    or the last one tried failed with the cycle's error after the others were taken.
  */
  ghost predicate TakesMatch(o: CycleOutcome, autoTake: bool, refused: set<int>,
                       attempts0: seq<Shift>, attempts: seq<Shift>, taken0: seq<Shift>, taken: seq<Shift>)
  {
    && attempts0 <= attempts
    && (o.FetchFailed? || o.LogFailed? || !autoTake ==> attempts == attempts0 && taken == taken0)
    && (o.TakeFailed? ==>
          var tried := attempts[|attempts0|..];
          && autoTake && o.valid != {}
          && tried != [] && (forall s :: s in tried ==> s in o.valid)
          && (forall i, j :: 0 <= i < j < |tried| ==> tried[i] != tried[j])
          && TakeResult(tried[|tried| - 1], refused) == Fail(o.error)
          && taken == taken0 + tried[..|tried| - 1])
    && (autoTake && o.Completed? ==>
          var tried := attempts[|attempts0|..];
          && |tried| == |o.valid|
          && (forall s :: s in o.valid <==> s in tried)
          && taken == taken0 + tried)
  }

  /**
    The rest of a cycle once the valid shifts are known (run.py:90-106): format the
    timeslots for the debug log, take the valid shifts when asked, and notify when there
    are any. An exception from the log line or a take sends the error message instead.
  */
  method FinishCycle(api: HungryApi, notifier: Notifier, timeslots: seq<RecurringTimeslot>,
                     newShifts: seq<Shift>, valid: set<Shift>, autoTake: bool) returns (o: CycleOutcome)
    modifies api, notifier
    ensures !o.FetchFailed? && o.newShifts == newShifts && o.valid == valid
    ensures o.LogFailed? <==> DescribeAll(timeslots).Failure?
    ensures api.fetches == old(api.fetches)
    ensures notifier.sent == old(notifier.sent) + CycleMessages(o, autoTake)
    ensures o.LogFailed? ==> o.error == TypeError
    ensures TakesMatch(o, autoTake, api.refused, old(api.attempts), api.attempts, old(api.taken), api.taken)
  {
    var logged := DescribeAll(timeslots);
    if logged.Failure? {
      o := LogFailed(logged.error, newShifts, valid);
      var _ := notifier.Notify(ErrorMessage(o.error));
      return;
    }
    if autoTake {
      var taking, tried := TakeAll(api, valid);
      if taking.Fail? {
        assert tried[0] in valid;
        o := TakeFailed(taking.error, newShifts, valid);
        var _ := notifier.Notify(ErrorMessage(o.error));
        return;
      }
      assert api.attempts[|old(api.attempts)|..] == tried;
      DistinctCount(tried, valid);
    }
    if valid != {} {
      var _ := notifier.Notify(MatchMessage(valid, autoTake));
    }
    o := Completed(newShifts, valid);
  }

  /**
    A cycle from the moment the fetch has returned `fetched`: diff against the saved
    shifts by id, replace the saved shifts (saved to the file at once), collect the valid
    shifts and finish the cycle.
  */
  method ProcessFetch(storage: Storage, api: HungryApi, notifier: Notifier, fetched: ShiftSet, autoTake: bool)
    returns (o: CycleOutcome)
    modifies storage, storage.fs, api, notifier
    ensures api.fetches == old(api.fetches)
    ensures storage.timeslots == old(storage.timeslots) && storage.token == old(storage.token)
    ensures storage.tokenExpiration == old(storage.tokenExpiration) && storage.cityId == old(storage.cityId)
    ensures notifier.sent == old(notifier.sent) + CycleMessages(o, autoTake)
    ensures && !o.FetchFailed?
            && storage.shifts == fetched
            && storage.fs.files == old(storage.fs.files)[storage.filename := Document(EncodeSnapshot(storage.State()))]
            && o.newShifts == Unseen(fetched, old(storage.shifts))
            && o.valid == ValidSet(storage.timeslots, o.newShifts)
            && (o.LogFailed? <==> DescribeAll(storage.timeslots).Failure?)
    ensures o.LogFailed? ==> o.error == TypeError
    ensures TakesMatch(o, autoTake, api.refused, old(api.attempts), api.attempts, old(api.taken), api.taken)
  {
    var saved := storage.shifts;
    var newShifts := NewShifts(fetched, saved);
    storage.SetShifts(fetched);
    var valid := CollectValid(storage.timeslots, newShifts);
    o := FinishCycle(api, notifier, storage.timeslots, newShifts, valid, autoTake);
  }

  /**
    One pass of the body of the `while True` loop in run.py, with its `except` clause:
    fetch, diff against the saved shifts by id, replace the saved shifts with the fetch
    (saved to the file at once), collect the valid shifts, format the timeslots for the
    debug log, take the valid shifts when asked, and notify when there are any. An
    exception from the fetch, the log line or a take ends the pass with an error
    notification; the saved shifts stay replaced.
  */
  method RunCycle(storage: Storage, api: HungryApi, notifier: Notifier, autoTake: bool) returns (o: CycleOutcome)
    modifies storage, storage.fs, api, notifier
    ensures api.fetches == old(api.fetches) + 1
    ensures storage.timeslots == old(storage.timeslots) && storage.token == old(storage.token)
    ensures storage.tokenExpiration == old(storage.tokenExpiration) && storage.cityId == old(storage.cityId)
    ensures notifier.sent == old(notifier.sent) + CycleMessages(o, autoTake)
    ensures api.remote(old(api.fetches)).Failure? ==>
              && o == FetchFailed(api.remote(old(api.fetches)).error)
              && storage.shifts == old(storage.shifts)
              && storage.fs.files == old(storage.fs.files)
              && api.attempts == old(api.attempts) && api.taken == old(api.taken)
    ensures api.remote(old(api.fetches)).Success? ==>
              var fetched := api.remote(old(api.fetches)).value;
              && !o.FetchFailed?
              && storage.shifts == fetched
              && storage.fs.files == old(storage.fs.files)[storage.filename := Document(EncodeSnapshot(storage.State()))]
              && o.newShifts == Unseen(fetched, old(storage.shifts))
              && o.valid == ValidSet(storage.timeslots, o.newShifts)
              && (o.LogFailed? <==> DescribeAll(storage.timeslots).Failure?)
    ensures o.LogFailed? ==> o.error == TypeError
    ensures TakesMatch(o, autoTake, api.refused, old(api.attempts), api.attempts, old(api.taken), api.taken)
  {
    var shifts := api.GetShifts();
    if shifts.Failure? {
      o := FetchFailed(shifts.error);
      var _ := notifier.Notify(ErrorMessage(o.error));
      return;
    }
    o := ProcessFetch(storage, api, notifier, shifts.value, autoTake);
  }

  lemma {:induction false} DistinctCount(xs: seq<Shift>, s: set<Shift>)
    requires forall i, j :: 0 <= i < j < |xs| ==> xs[i] != xs[j]
    requires forall x :: x in s <==> x in xs
    ensures |xs| == |s|
  {
    if xs != [] {
      var last := xs[|xs| - 1];
      var init := xs[..|xs| - 1];
      assert last !in init;
      forall x ensures x in s - {last} <==> x in init {
        if x in xs && x != last {
          var i :| 0 <= i < |xs| && xs[i] == x;
          assert i < |xs| - 1;
        }
      }
      DistinctCount(init, s - {last});
    } else {
      assert s == {};
    }
  }

  // ---- Start-up and the loop ----

  /**
    The start-up check as intended: with auto-take on and no timeslot stored, the user must
    answer "y" (in either case) to go on.
  */
  function Confirm(autoTake: bool, timeslots: seq<RecurringTimeslot>, answer: string): bool
  {
    !(autoTake && |timeslots| == 0) || Text.Lower(answer) == "y"
  }

  /**
    The start-up check as written at run.py:50: `storage.recurringTimeslots` names an
    attribute `Storage` does not have, so with auto-take on it raises before anything else.
  */
  function ConfirmAsWritten(autoTake: bool, timeslots: seq<RecurringTimeslot>, answer: string): Result<bool>
  {
    if autoTake then Failure(AttributeError("recurringTimeslots")) else Success(true)
  }

  /** As written, auto-take never gets past start-up, whatever is stored or answered. */
  lemma AutoTakeNeverStartsAsWritten(timeslots: seq<RecurringTimeslot>, answer: string)
    ensures ConfirmAsWritten(true, timeslots, answer) == Failure(AttributeError("recurringTimeslots"))
    ensures ConfirmAsWritten(false, timeslots, answer) == Success(Confirm(false, timeslots, answer))
  {
  }

  /**
    As intended, auto-take goes on at once when timeslots are stored, and otherwise only
    on the answer "y" or "Y"; without auto-take nothing is asked.
  */
  lemma ConfirmIntended(timeslots: seq<RecurringTimeslot>, answer: string)
    ensures Confirm(false, timeslots, answer)
    ensures timeslots != [] ==> Confirm(true, timeslots, answer)
    ensures Confirm(true, [], "Y") && Confirm(true, [], "y")
    ensures !Confirm(true, [], "yes") && !Confirm(true, [], "")
  {
    assert Text.Lower("Y") == "y";
    assert Text.Lower("yes") != "y";
  }

  /** The command-line options the loop reads. */
  datatype Config = Config(autoTake: bool, frequency: Option<int>)

  datatype RunResult =
    | Declined            // the user did not confirm: exit(0)
    | Finished            // single-shot mode ended after its one cycle
    | Crashed(error: Error)
    | Running             // repeating mode, still polling when observation stops

  /**
    How many cycles run: one when no frequency or a frequency of 0 is given (0 is falsy),
    one when it is negative (`time.sleep` then raises), and otherwise as many as are
    observed before the process is stopped from outside.
  */
  function CyclesRun(frequency: Option<int>, horizon: nat): nat
  {
    if frequency.None? || frequency.value <= 0 then 1 else horizon
  }

  function Ending(frequency: Option<int>): RunResult
  {
    if frequency.None? || frequency.value == 0 then Finished
    else if frequency.value < 0 then Crashed(ValueError("sleep length must be non-negative"))
    else Running
  }

  /**
    `main` from the storage onwards: the start-up check, the default timeslot when none is
    stored, then the loop, observed for at most `horizon` cycles.
  */
  method Run(storage: Storage, api: HungryApi, notifier: Notifier, config: Config, answer: string, horizon: nat)
    returns (r: RunResult, cycles: nat)
    requires horizon >= 1
    modifies storage, storage.fs, api, notifier
    ensures !Confirm(config.autoTake, old(storage.timeslots), answer) ==>
              && r == Declined && cycles == 0
              && storage.State() == old(storage.State()) && storage.fs.files == old(storage.fs.files)
              && api.fetches == old(api.fetches) && notifier.sent == old(notifier.sent)
              && api.attempts == old(api.attempts) && api.taken == old(api.taken)
    ensures Confirm(config.autoTake, old(storage.timeslots), answer) ==>
              && storage.timeslots == (if old(storage.timeslots) == [] then [EternalTimeslot()] else old(storage.timeslots))
              && cycles == CyclesRun(config.frequency, horizon)
              && api.fetches == old(api.fetches) + cycles
              && r == Ending(config.frequency)
              && (old(storage.timeslots) == [] || old(storage.Persisted()) ==> storage.Persisted())
  {
    if !Confirm(config.autoTake, storage.timeslots, answer) {
      return Declined, 0;
    }
    if |storage.timeslots| == 0 {
      storage.SetTimeslots([EternalTimeslot()]);
    }
    ghost var timeslots := storage.timeslots;
    cycles := 0;
    while true
      invariant cycles < horizon
      invariant cycles > 0 ==> config.frequency.Some? && config.frequency.value > 0
      invariant storage.timeslots == timeslots
      invariant api.fetches == old(api.fetches) + cycles
      invariant old(storage.timeslots) == [] || old(storage.Persisted()) ==> storage.Persisted()
      decreases horizon - cycles
    {
      var _ := RunCycle(storage, api, notifier, config.autoTake);
      cycles := cycles + 1;
      if config.frequency.None? || config.frequency.value == 0 {
        return Finished, cycles;
      }
      if config.frequency.value < 0 {
        return Crashed(ValueError("sleep length must be non-negative")), cycles;
      }
      if cycles == horizon {
        return Running, cycles;
      }
    }
  }

  /**
    Two cycles against the same fetch: whatever the first does (even if a take fails),
    the second finds nothing new, takes nothing and sends no notification; only when the
    stored timeslots cannot be logged does it send the same error message again. The
    ghost results are the notifier's log and the service's take logs between the two.
  */
  method SameFetchTwice(storage: Storage, api: HungryApi, notifier: Notifier, autoTake: bool)
    returns (first: CycleOutcome, second: CycleOutcome, ghost sentBetween: seq<Message>,
             ghost attemptsBetween: seq<Shift>, ghost takenBetween: seq<Shift>)
    requires api.remote(api.fetches).Success?
    requires api.remote(api.fetches + 1) == api.remote(api.fetches)
    modifies storage, storage.fs, api, notifier
    ensures storage.shifts == api.remote(old(api.fetches)).value
    ensures sentBetween == old(notifier.sent) + CycleMessages(first, autoTake)
    ensures TakesMatch(first, autoTake, api.refused, old(api.attempts), attemptsBetween, old(api.taken), takenBetween)
    ensures api.attempts == attemptsBetween && api.taken == takenBetween
    ensures DescribeAll(old(storage.timeslots)).Success? ==> second == Completed([], {}) && notifier.sent == sentBetween
    ensures DescribeAll(old(storage.timeslots)).Failure? ==>
              second == LogFailed(TypeError, [], {}) && notifier.sent == sentBetween + [ErrorMessage(TypeError)]
  {
    ghost var fetched := api.remote(api.fetches).value;
    ghost var timeslots := storage.timeslots;
    first := RunCycle(storage, api, notifier, autoTake);
    assert storage.shifts == fetched && storage.timeslots == timeslots;
    assert api.remote(api.fetches) == Success(fetched);
    sentBetween, attemptsBetween, takenBetween := notifier.sent, api.attempts, api.taken;
    NothingNewInUnchangedFetch(fetched);
    assert ValidSet(timeslots, []) == {};
    second := RunCycle(storage, api, notifier, autoTake);
    assert second.newShifts == [] && second.valid == {};
    assert |api.attempts| == |attemptsBetween|;
  }
}
