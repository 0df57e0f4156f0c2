/**
  `Storage` of hungry/Storage.py: five fields kept in memory and mirrored to a JSON data
  file, which every setter rewrites whole, and the `Singleton` metaclass that hands out
  one shared instance.
*/
module Persistence {
  import opened Wrappers
  import opened JsonValues
  import Timeslot
  import Shifts

  /** What `open` and `json.load` find under a file name: text that is not JSON, or a JSON document. */
  datatype FileContents = Unparsable | Document(json: Json)

  /** The directory the data file lives in; a name that is not a key is a missing file. */
  class FileSystem {
    var files: map<string, FileContents>

    constructor (files: map<string, FileContents>)
      ensures this.files == files
    {
      this.files := files;
    }
  }

  /** The five fields that `Storage` keeps and writes. */
  datatype Snapshot = Snapshot(timeslots: seq<Timeslot.RecurringTimeslot>, shifts: seq<Shifts.Shift>,
                               token: Json, tokenExpiration: Json, cityId: Json)

  /** The values `__init__` assigns before it loads the file. */
  const Defaults: Snapshot := Snapshot([], [], JNull, JNull, JNull)

  function TimeslotsToJson(ts: seq<Timeslot.RecurringTimeslot>): (r: seq<Json>)
    ensures |r| == |ts|
  {
    seq(|ts|, i requires 0 <= i < |ts| => Timeslot.ToJson(ts[i]))
  }

  function ShiftsToJson(ss: seq<Shifts.Shift>): (r: seq<Json>)
    ensures |r| == |ss|
  {
    seq(|ss|, i requires 0 <= i < |ss| => Shifts.ToJson(ss[i]))
  }

  /** The dict `_save_data_to_file` dumps: all five fields, whichever setter triggered the save. */
  function EncodeSnapshot(st: Snapshot): Json
  {
    JObject(map["recurring_timeslots" := JList(TimeslotsToJson(st.timeslots)),
                "shifts" := JList(ShiftsToJson(st.shifts)),
                "token" := st.token,
                "token_expiration" := st.tokenExpiration,
                "city_id" := st.cityId])
  }

  /** `[RecurringTimeslot.deserialize(ts) for ts in items]`: the first failure propagates. */
  function TimeslotsFromJson(items: seq<Json>): Result<seq<Timeslot.RecurringTimeslot>>
  {
    if items == [] then Success([])
    else
      var t :- Timeslot.FromJson(items[0]);
      var rest :- TimeslotsFromJson(items[1..]);
      Success([t] + rest)
  }

  /** `[Shift.deserialize(s) for s in items]`: the first failure propagates. */
  function ShiftsFromJson(items: seq<Json>): Result<seq<Shifts.Shift>>
  {
    if items == [] then Success([])
    else
      var s :- Shifts.FromJson(items[0]);
      var rest :- ShiftsFromJson(items[1..]);
      Success([s] + rest)
  }

  /** What `_load_data_to_memory` takes from a parsed data file, key by key in its order. */
  function DecodeSnapshot(data: Json): Result<Snapshot>
  {
    var timeslotsJ :- Lookup(data, "recurring_timeslots");
    var timeslotItems :- Elements(timeslotsJ);
    var timeslots :- TimeslotsFromJson(timeslotItems);
    var shiftsJ :- Lookup(data, "shifts");
    var shiftItems :- Elements(shiftsJ);
    var shifts :- ShiftsFromJson(shiftItems);
    var token :- Lookup(data, "token");
    var expiration :- Lookup(data, "token_expiration");
    var city :- Lookup(data, "city_id");
    Success(Snapshot(timeslots, shifts, token, expiration, city))
  }

  /**
    Reading the data file: a missing file is tolerated (None); text that is not JSON, a
    missing key or a malformed record is an error that propagates.
  */
  function ReadDataFile(files: map<string, FileContents>, filename: string): Result<Option<Snapshot>>
  {
    if filename !in files then Success(None)
    else
      match files[filename]
      case Unparsable => Failure(JsonDecodeError)
      case Document(data) =>
        var st :- DecodeSnapshot(data);
        Success(Some(st))
  }

  /** The state a newly constructed `Storage` ends in, or the error its constructor raises. */
  function InitialState(files: map<string, FileContents>, filename: string): Result<Snapshot>
  {
    var read :- ReadDataFile(files, filename);
    match read
    case None => Success(Defaults)
    case Some(st) => Success(st)
  }

  function StoredTimeslots(ts: seq<Timeslot.RecurringTimeslot>): (r: seq<Timeslot.RecurringTimeslot>)
    ensures |r| == |ts|
  {
    seq(|ts|, i requires 0 <= i < |ts| => Timeslot.Stored(ts[i]))
  }

  /** A snapshot as it comes back from the file: timeslot times lose their seconds, all else is kept. */
  function StoredSnapshot(st: Snapshot): Snapshot
  {
    st.(timeslots := StoredTimeslots(st.timeslots))
  }

  lemma {:induction false} TimeslotsRoundTrip(ts: seq<Timeslot.RecurringTimeslot>)
    ensures TimeslotsFromJson(TimeslotsToJson(ts)) == Success(StoredTimeslots(ts))
  {
    if ts != [] {
      var items := TimeslotsToJson(ts);
      assert items[0] == Timeslot.ToJson(ts[0]);
      assert items[1..] == TimeslotsToJson(ts[1..]);
      Timeslot.RoundTrip(ts[0]);
      TimeslotsRoundTrip(ts[1..]);
      assert [Timeslot.Stored(ts[0])] + StoredTimeslots(ts[1..]) == StoredTimeslots(ts);
    }
  }

  lemma {:induction false} ShiftsRoundTrip(ss: seq<Shifts.Shift>)
    ensures ShiftsFromJson(ShiftsToJson(ss)) == Success(ss)
  {
    if ss != [] {
      var items := ShiftsToJson(ss);
      assert items[0] == Shifts.ToJson(ss[0]);
      assert items[1..] == ShiftsToJson(ss[1..]);
      Shifts.RoundTrip(ss[0]);
      ShiftsRoundTrip(ss[1..]);
      assert [ss[0]] + ss[1..] == ss;
    }
  }

  lemma DecodeEncode(st: Snapshot)
    ensures DecodeSnapshot(EncodeSnapshot(st)) == Success(StoredSnapshot(st))
  {
    var data := EncodeSnapshot(st);
    TimeslotsRoundTrip(st.timeslots);
    ShiftsRoundTrip(st.shifts);
    assert Lookup(data, "recurring_timeslots") == Success(JList(TimeslotsToJson(st.timeslots)));
    assert Lookup(data, "shifts") == Success(JList(ShiftsToJson(st.shifts)));
    assert Lookup(data, "token") == Success(st.token);
    assert Lookup(data, "token_expiration") == Success(st.tokenExpiration);
    assert Lookup(data, "city_id") == Success(st.cityId);
  }

  /**
    Loading a file that saving wrote restores the same shifts, token, expiration and
    city id, and the same timeslots up to the seconds of their times, which "HH:MM" drops.
  */
  lemma SaveThenLoad(files: map<string, FileContents>, filename: string, st: Snapshot)
    ensures InitialState(files[filename := Document(EncodeSnapshot(st))], filename) == Success(StoredSnapshot(st))
    ensures (forall i :: 0 <= i < |st.timeslots| ==> Timeslot.WholeMinutes(st.timeslots[i])) ==>
              InitialState(files[filename := Document(EncodeSnapshot(st))], filename) == Success(st)
  {
    DecodeEncode(st);
    if forall i :: 0 <= i < |st.timeslots| ==> Timeslot.WholeMinutes(st.timeslots[i]) {
      forall i | 0 <= i < |st.timeslots|
        ensures StoredTimeslots(st.timeslots)[i] == st.timeslots[i]
      {
        Timeslot.RoundTrip(st.timeslots[i]);
      }
      assert StoredSnapshot(st) == st;
    }
  }

  /** A missing data file leaves the defaults: no timeslots, no shifts, no token, expiration or city. */
  lemma MissingFileGivesDefaults(files: map<string, FileContents>, filename: string)
    requires filename !in files
    ensures InitialState(files, filename) == Success(Snapshot([], [], JNull, JNull, JNull))
  {
  }

  /** Only a missing file is tolerated: a file that is not JSON, or lacks any of the five keys, is an error. */
  lemma OnlyMissingFileTolerated(files: map<string, FileContents>, filename: string, st: Snapshot, key: string)
    requires key in EncodeSnapshot(st).fields
    ensures InitialState(files[filename := Unparsable], filename) == Failure(JsonDecodeError)
    ensures InitialState(files[filename := Document(JObject(EncodeSnapshot(st).fields - {key}))], filename)
            == Failure(KeyError(key))
  {
    DecodeWithoutKey(st, key);
  }

  lemma DecodeWithoutKey(st: Snapshot, key: string)
    requires key in EncodeSnapshot(st).fields
    ensures DecodeSnapshot(JObject(EncodeSnapshot(st).fields - {key})) == Failure(KeyError(key))
  {
    var all := EncodeSnapshot(st).fields;
    var data := JObject(all - {key});
    assert Lookup(data, key) == Failure(KeyError(key));
    if key != "recurring_timeslots" {
      TimeslotsRoundTrip(st.timeslots);
      assert Lookup(data, "recurring_timeslots") == Success(all["recurring_timeslots"]);
      if key != "shifts" {
        ShiftsRoundTrip(st.shifts);
        assert Lookup(data, "shifts") == Success(all["shifts"]);
        if key != "token" {
          assert Lookup(data, "token") == Success(all["token"]);
          if key != "token_expiration" {
            assert Lookup(data, "token_expiration") == Success(all["token_expiration"]);
          }
        }
      }
    }
  }

  class Storage {
    const filename: string
    const fs: FileSystem

    var timeslots: seq<Timeslot.RecurringTimeslot>
    var shifts: seq<Shifts.Shift>
    var token: Json
    var tokenExpiration: Json
    var cityId: Json

    /** The five fields; each property getter returns one of them. */
    function State(): Snapshot
      reads this
    {
      Snapshot(timeslots, shifts, token, tokenExpiration, cityId)
    }

    /** The data file holds exactly the in-memory state. */
    ghost predicate Persisted()
      reads this, fs
    {
      filename in fs.files && fs.files[filename] == Document(EncodeSnapshot(State()))
    }

    /** The assignments of `__init__` that precede loading. */
    constructor (filename: string, fs: FileSystem)
      ensures this.filename == filename && this.fs == fs
      ensures State() == Defaults
    {
      this.filename := filename;
      this.fs := fs;
      timeslots := [];
      shifts := [];
      token := JNull;
      tokenExpiration := JNull;
      cityId := JNull;
    }

    /**
      `_load_data_to_memory`: overwrites the fields one by one from the data file. A missing
      file leaves them as they are; any other problem is raised, part-way through.
    */
    method LoadDataToMemory() returns (o: Outcome)
      modifies this
      ensures o.Pass? <==> ReadDataFile(fs.files, filename).Success?
      ensures o.Fail? ==> o.error == ReadDataFile(fs.files, filename).error
      ensures ReadDataFile(fs.files, filename) == Success(None) ==> State() == old(State())
      ensures forall st :: ReadDataFile(fs.files, filename) == Success(Some(st)) ==> State() == st
    {
      if filename !in fs.files {
        return Pass;
      }
      if fs.files[filename].Unparsable? {
        return Fail(JsonDecodeError);
      }
      var data := fs.files[filename].json;
      var timeslotsJ := Lookup(data, "recurring_timeslots");
      if timeslotsJ.Failure? { return Fail(timeslotsJ.error); }
      var timeslotItems := Elements(timeslotsJ.value);
      if timeslotItems.Failure? { return Fail(timeslotItems.error); }
      var loadedTimeslots := TimeslotsFromJson(timeslotItems.value);
      if loadedTimeslots.Failure? { return Fail(loadedTimeslots.error); }
      timeslots := loadedTimeslots.value;
      var shiftsJ := Lookup(data, "shifts");
      if shiftsJ.Failure? { return Fail(shiftsJ.error); }
      var shiftItems := Elements(shiftsJ.value);
      if shiftItems.Failure? { return Fail(shiftItems.error); }
      var loadedShifts := ShiftsFromJson(shiftItems.value);
      if loadedShifts.Failure? { return Fail(loadedShifts.error); }
      shifts := loadedShifts.value;
      var tokenJ := Lookup(data, "token");
      if tokenJ.Failure? { return Fail(tokenJ.error); }
      token := tokenJ.value;
      var expirationJ := Lookup(data, "token_expiration");
      if expirationJ.Failure? { return Fail(expirationJ.error); }
      tokenExpiration := expirationJ.value;
      var cityJ := Lookup(data, "city_id");
      if cityJ.Failure? { return Fail(cityJ.error); }
      cityId := cityJ.value;
      return Pass;
    }

    /** `_save_data_to_file`: replaces the data file with all five fields. */
    method SaveDataToFile()
      modifies fs
      ensures fs.files == old(fs.files)[filename := Document(EncodeSnapshot(State()))]
      ensures Persisted()
    {
      fs.files := fs.files[filename := Document(EncodeSnapshot(State()))];
    }

    /** The `city_id` setter. */
    method SetCityId(cityId: Json)
      modifies this, fs
      ensures this.cityId == cityId
      ensures timeslots == old(timeslots) && shifts == old(shifts)
      ensures token == old(token) && tokenExpiration == old(tokenExpiration)
      ensures fs.files == old(fs.files)[filename := Document(EncodeSnapshot(State()))]
      ensures Persisted()
    {
      this.cityId := cityId;
      SaveDataToFile();
    }

    /** The `recurring_timeslots` setter. */
    method SetTimeslots(timeslots: seq<Timeslot.RecurringTimeslot>)
      modifies this, fs
      ensures this.timeslots == timeslots
      ensures shifts == old(shifts) && token == old(token)
      ensures tokenExpiration == old(tokenExpiration) && cityId == old(cityId)
      ensures fs.files == old(fs.files)[filename := Document(EncodeSnapshot(State()))]
      ensures Persisted()
    {
      this.timeslots := timeslots;
      SaveDataToFile();
    }

    /** The `shifts` setter. */
    method SetShifts(shifts: seq<Shifts.Shift>)
      modifies this, fs
      ensures this.shifts == shifts
      ensures timeslots == old(timeslots) && token == old(token)
      ensures tokenExpiration == old(tokenExpiration) && cityId == old(cityId)
      ensures fs.files == old(fs.files)[filename := Document(EncodeSnapshot(State()))]
      ensures Persisted()
    {
      this.shifts := shifts;
      SaveDataToFile();
    }

    /** The `token` setter. */
    method SetToken(token: Json)
      modifies this, fs
      ensures this.token == token
      ensures timeslots == old(timeslots) && shifts == old(shifts)
      ensures tokenExpiration == old(tokenExpiration) && cityId == old(cityId)
      ensures fs.files == old(fs.files)[filename := Document(EncodeSnapshot(State()))]
      ensures Persisted()
    {
      this.token := token;
      SaveDataToFile();
    }

    /** The `token_expiration` setter. */
    method SetTokenExpiration(tokenExpiration: Json)
      modifies this, fs
      ensures this.tokenExpiration == tokenExpiration
      ensures timeslots == old(timeslots) && shifts == old(shifts)
      ensures token == old(token) && cityId == old(cityId)
      ensures fs.files == old(fs.files)[filename := Document(EncodeSnapshot(State()))]
      ensures Persisted()
    {
      this.tokenExpiration := tokenExpiration;
      SaveDataToFile();
    }
  }

  /** The `Singleton` metaclass's `_instances` entry for `Storage`. */
  class StorageSingleton {
    var instance: Option<Storage>

    constructor ()
      ensures instance == None
    {
      instance := None;
    }

    /**
      `Storage(filename)`: the first successful call constructs and loads an instance and
      keeps it; later calls return that instance and ignore their arguments. A constructor
      that raises leaves nothing registered.
    */
    method Call(filename: string, fs: FileSystem) returns (r: Result<Storage>)
      modifies this
      ensures old(instance).Some? ==> r == Success(old(instance).value) && instance == old(instance)
      ensures old(instance).None? && InitialState(fs.files, filename).Failure? ==>
                r == Failure(InitialState(fs.files, filename).error) && instance == None
      ensures old(instance).None? && InitialState(fs.files, filename).Success? ==>
                && r.Success? && fresh(r.value) && instance == Some(r.value)
                && r.value.filename == filename && r.value.fs == fs
                && r.value.State() == InitialState(fs.files, filename).value
    {
      if instance.Some? {
        return Success(instance.value);
      }
      var storage := new Storage(filename, fs);
      var loaded := storage.LoadDataToMemory();
      if loaded.Fail? {
        return Failure(loaded.error);
      }
      instance := Some(storage);
      return Success(storage);
    }
  }
}
