/**
  The collaborators the poll loop calls but that are not part of this model: the
  scheduling service (`HungryAPI.get_shifts` and `take_shift`) and the notifier
  (`apprise.Apprise.notify`). Each is reduced to what the loop can observe.
*/
module Services {
  import opened Wrappers
  import opened Shifts

  /**
    Whether the service takes a shift for the user, as intended: `take_shift` dispatches a
    PENDING shift to the swap request and an UNASSIGNED one to the assign request, either
    of which fails when the service refuses the id; any other status raises.
  */
  function TakeResult(s: Shift, refused: set<int>): Outcome
  {
    if s.status == "PENDING" || s.status == "UNASSIGNED" then
      if s.id in refused then Fail(ServiceError("request rejected")) else Pass
    else
      Fail(ServiceError("Shift is not pending or unassigned.Shift status is " + s.status))
  }

  /** A take succeeds exactly for a PENDING or UNASSIGNED shift whose id the service accepts. */
  lemma TakeResultIff(s: Shift, refused: set<int>)
    ensures TakeResult(s, refused).Pass? <==> (s.status == "PENDING" || s.status == "UNASSIGNED") && s.id !in refused
    ensures TakeResult(s, refused).Fail? ==> TakeResult(s, refused).error.ServiceError?
  {
  }

  /**
    `take_shift` as written. Both requests authenticate with `self.token`, an attribute
    `HungryAPI` never sets (the token is kept in the storage), and the assign request for
    an UNASSIGNED shift first builds its body from `shift.start_at`, an attribute a Shift
    does not have. So a PENDING take raises on the token and an UNASSIGNED one on the
    body, both before any request is made; any other status raises as intended.
  */
  function TakeResultAsWritten(s: Shift, refused: set<int>): Outcome
  {
    if s.status == "PENDING" then
      Fail(AttributeError("token"))
    else if s.status == "UNASSIGNED" then
      Fail(AttributeError("start_at"))
    else
      Fail(ServiceError("Shift is not pending or unassigned.Shift status is " + s.status))
  }

  /**
    As written, no take ever succeeds, whatever the service would accept: PENDING and
    UNASSIGNED shifts, which the intended rule takes when the service accepts them, fail
    on a missing attribute; any other status fails with the same error as intended.
  */
  lemma NoTakeSucceedsAsWritten(s: Shift, refused: set<int>)
    ensures TakeResultAsWritten(s, refused).Fail?
    ensures s.status == "PENDING" ==> TakeResultAsWritten(s, refused) == Fail(AttributeError("token"))
    ensures s.status == "UNASSIGNED" ==> TakeResultAsWritten(s, refused) == Fail(AttributeError("start_at"))
    ensures (s.status == "PENDING" || s.status == "UNASSIGNED") && s.id !in refused ==> TakeResult(s, refused) == Pass
    ensures s.status != "PENDING" && s.status != "UNASSIGNED" ==> TakeResultAsWritten(s, refused) == TakeResult(s, refused)
  {
  }

  /** The scheduling service, as the loop sees it. */
  class HungryApi {
    /** The answer to the k-th `get_shifts` request: a set of shifts, or the exception raised. */
    const remote: nat -> Result<ShiftSet>
    /** The ids of the shifts whose take request the service rejects. */
    const refused: set<int>
    /** The number of `get_shifts` requests made so far. */
    var fetches: nat
    /** Every `take_shift` call, in order, and the shifts actually taken. */
    var attempts: seq<Shift>
    var taken: seq<Shift>

    constructor (remote: nat -> Result<ShiftSet>, refused: set<int>)
      ensures this.remote == remote && this.refused == refused
      ensures fetches == 0 && attempts == [] && taken == []
    {
      this.remote := remote;
      this.refused := refused;
      fetches := 0;
      attempts := [];
      taken := [];
    }

    /** `get_shifts`: the service's next answer. */
    method GetShifts() returns (r: Result<ShiftSet>)
      modifies this
      ensures r == remote(old(fetches))
      ensures fetches == old(fetches) + 1
      ensures attempts == old(attempts) && taken == old(taken)
    {
      r := remote(fetches);
      fetches := fetches + 1;
    }

    /** `take_shift`. */
    method TakeShift(s: Shift) returns (r: Outcome)
      modifies this
      ensures r == TakeResult(s, refused)
      ensures attempts == old(attempts) + [s]
      ensures taken == if r.Pass? then old(taken) + [s] else old(taken)
      ensures fetches == old(fetches)
    {
      r := TakeResult(s, refused);
      attempts := attempts + [s];
      if r.Pass? {
        taken := taken + [s];
      }
    }
  }

  /** A notification body: the listed shifts (one `str(s)` line each) or the text of an exception. */
  datatype Body = Listing(shifts: set<Shift>) | Report(error: Error)

  datatype Message = Message(title: string, body: Body)

  /** The notification target. */
  class Notifier {
    /** Whether the target accepts what it is sent. */
    const accepting: bool
    /** Every message handed to `notify`, in order. */
    var sent: seq<Message>

    constructor (accepting: bool)
      ensures this.accepting == accepting && sent == []
    {
      this.accepting := accepting;
      sent := [];
    }

    /** `notify(body, title)`: hands the message on and reports whether it was accepted. */
    method Notify(m: Message) returns (ok: bool)
      modifies this
      ensures sent == old(sent) + [m]
      ensures ok == accepting
    {
      sent := sent + [m];
      ok := accepting;
    }
  }
}
