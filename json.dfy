/**
  The values `json.load` returns and `json.dump` accepts, as a tree. Two kinds of
  string get leaves of their own because the core writes and reads them through
  `datetime`: `JClock` is the "HH:MM" text of `strftime("%H:%M")` and `strptime`,
  `JInstant` the text of `isoformat()` and `fromisoformat()`.
*/
module JsonValues {
  import opened Wrappers

  datatype Json =
    | JNull
    | JBool(b: bool)
    | JInt(i: int)
    | JReal(r: real)
    | JStr(s: string)
    | JList(items: seq<Json>)
    | JObject(fields: map<string, Json>)
    | JClock(hour: int, minute: int)
    | JInstant(t: int)

  /** `data[key]`: a missing key raises `KeyError`, and a value that is not a dict `TypeError`. */
  function Lookup(j: Json, key: string): (r: Result<Json>)
    ensures r.Success? <==> j.JObject? && key in j.fields
    ensures r.Success? ==> r.value == j.fields[key]
    ensures j.JObject? && key !in j.fields ==> r == Failure(KeyError(key))
    ensures !j.JObject? ==> r == Failure(TypeError)
  {
    match j
    case JObject(fields) => if key in fields then Success(fields[key]) else Failure(KeyError(key))
    case _ => Failure(TypeError)
  }

  /**
    What `for x in value` yields when every element must be a dict: a list gives its
    items; an empty dict or an empty string gives nothing; any other value either
    cannot be iterated or yields strings, which fail to index as dicts, so `TypeError`.
  */
  function Elements(j: Json): (r: Result<seq<Json>>)
    ensures j.JList? ==> r == Success(j.items)
    ensures r.Success? <==> j.JList? || j == JStr([]) || j == JObject(map[])
    ensures r.Success? && !j.JList? ==> r.value == []
    ensures r.Failure? ==> r.error == TypeError
  {
    match j
    case JList(items) => Success(items)
    case JStr(s) => if s == [] then Success([]) else Failure(TypeError)
    case JObject(fields) => if fields == map[] then Success([]) else Failure(TypeError)
    case _ => Failure(TypeError)
  }

  function AsInt(j: Json): Result<int>
  {
    if j.JInt? then Success(j.i) else Failure(TypeError)
  }

  function AsString(j: Json): Result<string>
  {
    if j.JStr? then Success(j.s) else Failure(TypeError)
  }

  /** `datetime.fromisoformat` on a stored value. */
  function AsInstant(j: Json): Result<int>
  {
    match j
    case JInstant(t) => Success(t)
    case JStr(_) => Failure(ValueError("Invalid isoformat string"))
    case JClock(_, _) => Failure(ValueError("Invalid isoformat string"))
    case _ => Failure(TypeError)
  }
}
