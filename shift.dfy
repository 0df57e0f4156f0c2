/** `Shift` of hungry/shift.py (and of the older shift.py): an offered work period and its identity. */
module Shifts {
  import opened Wrappers
  import opened Clock
  import opened JsonValues

  /** Seven fields, set once by the constructor. */
  datatype Shift = Shift(id: int, start: Instant, end: Instant, status: string, timeZone: string,
                         startingPointId: int, startingPointName: string)

  /** The right-hand operand of `==`: a Shift or any other Python value. */
  datatype PyObject = ShiftObject(shift: Shift) | OtherObject(value: Json)

  /** `__eq__`: a Shift equals another Shift with the same id, and nothing else. */
  predicate Equals(s: Shift, other: PyObject)
  {
    match other
    case ShiftObject(o) => s.id == o.id
    case OtherObject(_) => false
  }

  /** CPython's `hash` of an int: its value modulo 2**61 - 1 with the sign kept, where -1 becomes -2. */
  function HashInt(n: int): int
  {
    var modulus := 0x1FFF_FFFF_FFFF_FFFF;
    var h := if n >= 0 then n % modulus else -((-n) % modulus);
    if h == -1 then -2 else h
  }

  /** `__hash__`: the hash of the id. */
  function Hash(s: Shift): int
  {
    HashInt(s.id)
  }

  /** Two Shifts are equal iff their ids are, whatever their times, status or location. */
  lemma EqualsIffSameId(a: Shift, b: Shift)
    ensures Equals(a, ShiftObject(b)) <==> a.id == b.id
    ensures Equals(a, ShiftObject(b)) ==> Equals(a, ShiftObject(b.(start := a.start, end := a.end, status := a.status)))
  {
  }

  /** A Shift never equals a value that is not a Shift. */
  lemma NeverEqualsNonShift(s: Shift, v: Json)
    ensures !Equals(s, OtherObject(v))
  {
  }

  /** Shift equality is an equivalence: reflexive, symmetric and transitive. */
  lemma EqualsIsEquivalence(a: Shift, b: Shift, c: Shift)
    ensures Equals(a, ShiftObject(a))
    ensures Equals(a, ShiftObject(b)) ==> Equals(b, ShiftObject(a))
    ensures Equals(a, ShiftObject(b)) && Equals(b, ShiftObject(c)) ==> Equals(a, ShiftObject(c))
  {
  }

  /** Equal shifts hash equally, so sets and `in` agree with `==`. */
  lemma HashConsistentWithEquals(a: Shift, b: Shift)
    requires Equals(a, ShiftObject(b))
    ensures Hash(a) == Hash(b)
  {
  }

  /** The seconds of the shift's `timedelta`: its duration modulo one day. */
  function Duration(s: Shift): ClockTime
  {
    DeltaSeconds(s.start, s.end)
  }

  /** The "(<h>h <m>m)" part of `__str__`. */
  datatype DurationText = DurationText(hours: int, minutes: int)

  function DurationParts(s: Shift): DurationText
  {
    DurationText(Duration(s) / 3600, (Duration(s) / 60) % 60)
  }

  /**
    The hours and minutes `__str__` prints are the whole hours and the leftover whole
    minutes of the duration modulo one day: minutes stay in 0..59, and together they
    fall short of the duration by less than a minute.
  */
  lemma {:induction false} DurationPartsSplit(s: Shift)
    ensures var p := DurationParts(s);
            && 0 <= p.hours < 24 && 0 <= p.minutes < 60
            && p.hours * 3600 + p.minutes * 60 <= Duration(s) < p.hours * 3600 + p.minutes * 60 + 60
  {
    HourMinuteRecompose(Duration(s));
  }

  /** `serialize`: the dict written to the data file; the datetimes as ISO text. */
  function ToJson(s: Shift): Json
  {
    JObject(map["id" := JInt(s.id), "start" := JInstant(s.start), "end" := JInstant(s.end),
                "status" := JStr(s.status), "time_zone" := JStr(s.timeZone),
                "starting_point_id" := JInt(s.startingPointId),
                "starting_point_name" := JStr(s.startingPointName)])
  }

  /** `deserialize`: reads the seven keys in the order the constructor call evaluates them. */
  function FromJson(j: Json): Result<Shift>
  {
    var idJ :- Lookup(j, "id");
    var id :- AsInt(idJ);
    var startJ :- Lookup(j, "start");
    var start :- AsInstant(startJ);
    var endJ :- Lookup(j, "end");
    var end :- AsInstant(endJ);
    var statusJ :- Lookup(j, "status");
    var status :- AsString(statusJ);
    var zoneJ :- Lookup(j, "time_zone");
    var zone :- AsString(zoneJ);
    var pointJ :- Lookup(j, "starting_point_id");
    var point :- AsInt(pointJ);
    var nameJ :- Lookup(j, "starting_point_name");
    var name :- AsString(nameJ);
    Success(Shift(id, start, end, status, zone, point, name))
  }

  /** Deserialising a serialised shift reproduces all seven fields. */
  lemma RoundTrip(s: Shift)
    ensures FromJson(ToJson(s)) == Success(s)
  {
  }

  /** A stored record without one of the seven keys fails with `KeyError` for that key. */
  lemma MissingKeyFails(s: Shift, key: string)
    requires key in ToJson(s).fields
    ensures FromJson(JObject(ToJson(s).fields - {key})) == Failure(KeyError(key))
  {
  }

  /** The fetched shifts are a Python set: no two of them share an id. */
  predicate UniqueIds(ss: seq<Shift>)
  {
    forall i, j :: 0 <= i < j < |ss| ==> ss[i].id != ss[j].id
  }

  type ShiftSet = ss: seq<Shift> | UniqueIds(ss) witness []

  /** `shift in saved`: some saved shift equals `shift`, that is, has its id. */
  predicate Seen(saved: seq<Shift>, s: Shift)
  {
    exists i :: 0 <= i < |saved| && Equals(s, ShiftObject(saved[i]))
  }
}
