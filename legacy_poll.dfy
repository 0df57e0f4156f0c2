/**
  The older poll loop of hungry.py. It runs the same fetch, diff, save and match steps
  as run.py, but it catches no exception, and its notification counts and lists every
  fetched shift, not just the valid ones. The storage calls it makes (`get_shifts`,
  `save_shifts`, `recurring_timeslots`, `add_recurring_timeslot`) go to a top-level
  Storage module. That module is not part of this model; the calls are modelled by the
  matching operations of the hungry/Storage.py class.
*/
module LegacyPoll {
  import opened Wrappers
  import opened Timeslot
  import opened Shifts
  import opened Persistence
  import opened Services
  import opened Poll
  import Text

  /** The title counts the fetched shifts: "<n> new shifts found!". */
  function LegacyTitle(n: nat): string
  {
    Text.NatToDecimal(n) + " new shifts found!"
  }

  /** The notification lists every fetched shift, whichever of them were valid. */
  function LegacyMessage(fetched: seq<Shift>): Message
  {
    Message(LegacyTitle(|fetched|), Listing(set s | s in fetched))
  }

  /**
    The legacy notification reports the fetch, not the match: its title reads back as
    the number of fetched shifts, and its body holds every valid shift and every other
    fetched one too.
  */
  lemma LegacyMessageReportsFetch(timeslots: seq<RecurringTimeslot>, fetched: seq<Shift>, saved: seq<Shift>)
    ensures var digits := Text.NatToDecimal(|fetched|);
            && LegacyMessage(fetched).title[..|digits|] == digits
            && Text.DecimalValue(digits) == |fetched|
    ensures forall s :: s in LegacyMessage(fetched).body.shifts <==> s in fetched
    ensures ValidSet(timeslots, Unseen(fetched, saved)) <= LegacyMessage(fetched).body.shifts
  {
    Text.DecimalRoundTrip(|fetched|);
  }

  /**
    The end of a hungry.py cycle once the valid shifts are known (hungry.py:87-104): take
    them when asked, stopping at the first exception, which escapes with nothing sent;
    otherwise notify with every fetched shift when some shift is valid.
  */
  method LegacyFinish(api: HungryApi, notifier: Notifier, fetched: seq<Shift>,
                      newShifts: seq<Shift>, valid: set<Shift>, autoTake: bool) returns (o: CycleOutcome)
    modifies api, notifier
    ensures (o.Completed? || o.TakeFailed?) && o.newShifts == newShifts && o.valid == valid
    ensures api.fetches == old(api.fetches)
    ensures o.Completed? ==> notifier.sent == old(notifier.sent) + (if valid == {} then [] else [LegacyMessage(fetched)])
    ensures o.TakeFailed? ==> notifier.sent == old(notifier.sent)
    ensures TakesMatch(o, autoTake, api.refused, old(api.attempts), api.attempts, old(api.taken), api.taken)
  {
    if autoTake {
      var taking, tried := TakeAll(api, valid);
      assert api.attempts[|old(api.attempts)|..] == tried;
      if taking.Fail? {
        assert tried[0] in valid;
        return TakeFailed(taking.error, newShifts, valid);
      }
      DistinctCount(tried, valid);
    }
    if valid != {} {
      var _ := notifier.Notify(LegacyMessage(fetched));
    }
    o := Completed(newShifts, valid);
  }

  /**
    One pass of the `while True` body in hungry.py. The fetched shifts are saved before
    matching. An exception from the fetch or from a take is not caught: it ends the
    program, and no notification is sent. Otherwise a notification goes out iff some new
    shift is valid.
  */
  method LegacyCycle(storage: Storage, api: HungryApi, notifier: Notifier, autoTake: bool) returns (o: CycleOutcome)
    modifies storage, storage.fs, api, notifier
    ensures api.fetches == old(api.fetches) + 1
    ensures storage.timeslots == old(storage.timeslots) && storage.token == old(storage.token)
    ensures storage.tokenExpiration == old(storage.tokenExpiration) && storage.cityId == old(storage.cityId)
    ensures api.remote(old(api.fetches)).Failure? ==>
              && o == FetchFailed(api.remote(old(api.fetches)).error)
              && storage.shifts == old(storage.shifts)
              && storage.fs.files == old(storage.fs.files)
              && api.attempts == old(api.attempts) && api.taken == old(api.taken)
    ensures api.remote(old(api.fetches)).Success? ==>
              var fetched := api.remote(old(api.fetches)).value;
              && !o.FetchFailed?
              && storage.shifts == fetched
              && storage.fs.files == old(storage.fs.files)[storage.filename := Document(EncodeSnapshot(storage.State()))]
              && o.newShifts == Unseen(fetched, old(storage.shifts))
              && o.valid == ValidSet(storage.timeslots, o.newShifts)
    ensures o.Completed? ==>
              notifier.sent == old(notifier.sent) + (if o.valid == {} then [] else [LegacyMessage(storage.shifts)])
    ensures !o.Completed? ==> notifier.sent == old(notifier.sent)
    ensures !o.LogFailed?
    ensures TakesMatch(o, autoTake, api.refused, old(api.attempts), api.attempts, old(api.taken), api.taken)
  {
    var shifts := api.GetShifts();
    if shifts.Failure? {
      return FetchFailed(shifts.error);
    }
    var fetched := shifts.value;
    var saved := storage.shifts;
    var newShifts := NewShifts(fetched, saved);
    storage.SetShifts(fetched);
    var valid := CollectValid(storage.timeslots, newShifts);
    o := LegacyFinish(api, notifier, fetched, newShifts, valid, autoTake);
  }

  /**
    How many cycles hungry.py runs when nothing fails: one without a frequency or with a
    negative one (`time.sleep` raises after the first cycle), and otherwise as many as are
    observed; a frequency of 0 repeats without pause, since only None stops the loop.
  */
  function LegacyCyclesRun(frequency: Option<int>, horizon: nat): nat
  {
    if frequency.None? || frequency.value < 0 then 1 else horizon
  }

  /**
    The script body from the storage onwards: a default timeslot appended when none is
    stored, then the loop, observed for at most `horizon` cycles. The first failure ends
    the program.
  */
  method LegacyRun(storage: Storage, api: HungryApi, notifier: Notifier, autoTake: bool, frequency: Option<int>, horizon: nat)
    returns (r: RunResult, cycles: nat)
    requires horizon >= 1
    modifies storage, storage.fs, api, notifier
    ensures storage.timeslots == (if old(storage.timeslots) == [] then [EternalTimeslot()] else old(storage.timeslots))
    ensures 1 <= cycles <= LegacyCyclesRun(frequency, horizon)
    ensures api.fetches == old(api.fetches) + cycles
    ensures cycles < LegacyCyclesRun(frequency, horizon) ==> r.Crashed?
    ensures r == Finished ==> frequency.None? && cycles == 1
    ensures r == Running ==> frequency.Some? && frequency.value >= 0 && cycles == horizon
    ensures r != Declined
  {
    if |storage.timeslots| == 0 {
      storage.SetTimeslots(storage.timeslots + [EternalTimeslot()]);
    }
    ghost var timeslots := storage.timeslots;
    cycles := 0;
    while true
      invariant cycles < horizon
      invariant cycles > 0 ==> frequency.Some? && frequency.value >= 0
      invariant storage.timeslots == timeslots
      invariant api.fetches == old(api.fetches) + cycles
      decreases horizon - cycles
    {
      var o := LegacyCycle(storage, api, notifier, autoTake);
      cycles := cycles + 1;
      if !o.Completed? {
        return Crashed(o.error), cycles;
      }
      if frequency.None? {
        return Finished, cycles;
      }
      if frequency.value < 0 {
        return Crashed(ValueError("sleep length must be non-negative")), cycles;
      }
      if cycles == horizon {
        return Running, cycles;
      }
    }
  }
}
