/** pychieve/waist_tracker.py: waist and shoulder measurements in
    centimetres, kept by date in a JSON document, with a daily backup copy
    of the document's file. */
module WaistTracker {
  import opened Py
  import opened Dicts
  import opened Lex

  // ---------------------------------------------------------------------------
  // The document

  /** A top-level value of waist_tracker.json: a number (`height`) or an
      object mapping dates to measurements (`waist`, `shoulders`). */
  datatype Value = Number(n: int) | Records(byDate: Dict<int>)

  /** The JSON document, by top-level key. */
  type Doc = map<string, Value>

  /** Every object of the document is a well-formed dict. */
  predicate SoundDoc(doc: Doc) {
    forall f :: f in doc && doc[f].Records? ==> doc[f].byDate.Valid()
  }

  const DataFile: string := "waist_tracker.json"

  // ---------------------------------------------------------------------------
  // The most recent measurement

  /** `max(keys)`: the greatest key in Python's string order (the first
      such, scanning left to right). */
  function MaxKey(keys: seq<string>): (m: string)
    requires keys != []
    ensures m in keys
    ensures forall k :: k in keys ==> Le(k, m)
    decreases |keys|
  {
    if |keys| == 1 then
      LeRefl(keys[0]);
      keys[0]
    else
      var rest := MaxKey(keys[1..]);
      assert forall k :: k in keys ==> k == keys[0] || k in keys[1..];
      LeTotal(rest, keys[0]);
      if Le(rest, keys[0]) then
        LeRefl(keys[0]);
        BoundTrans(keys[1..], rest, keys[0]);
        keys[0]
      else
        rest
  }

  /** Everything below `m` is below anything above `m`. */
  lemma BoundTrans(keys: seq<string>, m: string, top: string)
    requires forall k :: k in keys ==> Le(k, m)
    requires Le(m, top)
    ensures forall k :: k in keys ==> Le(k, top)
  {
    forall k | k in keys
      ensures Le(k, top)
    {
      LeTrans(k, m, top);
    }
  }

  /** What get_current_waist and get_current_shoulders return: False when
      no data was loaded, else the measurement at the greatest date. */
  datatype Current = NotLoaded | Latest(measurement: int)

  /** get_current_waist (`field` "waist") and get_current_shoulders
      (`field` "shoulders"): an empty document gives False; otherwise the
      field must be an object (KeyError if absent, TypeError for a number)
      with at least one date (`max` of nothing is a ValueError), and the
      value at its greatest date is returned. */
  function CurrentOf(doc: Doc, field: string): (r: Result<Current>)
    requires SoundDoc(doc)
    ensures r == Ok(NotLoaded) <==> doc == map[]
    ensures r.Err? <==> doc != map[] && (field !in doc || doc[field].Number? || doc[field].byDate.keys == [])
    ensures r.Ok? && r.value.Latest? ==>
      exists date :: date in doc[field].byDate.vals && r.value.measurement == doc[field].byDate.vals[date]
    ensures r.Err? ==> r.error == (if field !in doc then KeyError else if doc[field].Number? then TypeError else ValueError)
  {
    if doc == map[] then Ok(NotLoaded)
    else if field !in doc then Err(KeyError)
    else match doc[field]
      case Number(_) => Err(TypeError)
      case Records(d) =>
        if d.keys == [] then Err(ValueError)
        else
          KeysIn(d, MaxKey(d.keys));
          Ok(Latest(d.vals[MaxKey(d.keys)]))
  }

  /** The value returned is the one stored at the date that no other date
      of the field exceeds. */
  lemma CurrentIsGreatest(doc: Doc, field: string, date: string)
    requires SoundDoc(doc) && field in doc && doc[field].Records?
    requires date in doc[field].byDate.vals
    requires forall k :: k in doc[field].byDate.vals ==> Le(k, date)
    ensures CurrentOf(doc, field) == Ok(Latest(doc[field].byDate.vals[date]))
  {
    var d := doc[field].byDate;
    KeysIn(d, date);
    var m := MaxKey(d.keys);
    KeysIn(d, m);
    LeAntisym(m, date);
  }

  /** For dates written YYYY-MM-DD, the greatest key is the latest day:
      the measurement returned is the one of the latest date. */
  lemma CurrentIsLatest(doc: Doc, field: string, date: string)
    requires SoundDoc(doc) && field in doc && doc[field].Records?
    requires forall k :: k in doc[field].byDate.vals ==> IsDateKey(k)
    requires date in doc[field].byDate.vals
    requires forall k :: k in doc[field].byDate.vals ==> Earlier(DateOf(k), DateOf(date))
    ensures CurrentOf(doc, field) == Ok(Latest(doc[field].byDate.vals[date]))
  {
    forall k | k in doc[field].byDate.vals
      ensures Le(k, date)
    {
      DateKeyOrder(k, date);
    }
    CurrentIsGreatest(doc, field, date);
  }

  // ---------------------------------------------------------------------------
  // add_record

  /** add_record(date, measurement) on the document: both inputs are
      converted first (a ValueError leaves the document alone), then
      `data['waist'][newdate] = newnum` adds or replaces that one date;
      the write is a KeyError without a `waist` object and a TypeError
      where `waist` is a number. */
  function Added(doc: Doc, date: string, measurement: string, normalise: DateNormaliser): (r: Result<Doc>)
    requires SoundDoc(doc)
    ensures r.Ok? ==> SoundDoc(r.value)
    ensures r.Err? <==> normalise(date).None? || ParseInt(measurement).None? || "waist" !in doc || doc["waist"].Number?
    ensures r.Err? ==>
      r.error == (if normalise(date).None? || ParseInt(measurement).None? then ValueError
                  else if "waist" !in doc then KeyError
                  else TypeError)
    ensures r.Ok? ==>
      && r.value.Keys == doc.Keys
      && (forall f :: f in doc && f != "waist" ==> r.value[f] == doc[f])
      && r.value["waist"].Records?
      && r.value["waist"].byDate.vals == doc["waist"].byDate.vals[normalise(date).value := ParseInt(measurement).value]
  {
    if normalise(date).None? || ParseInt(measurement).None? then Err(ValueError)
    else if "waist" !in doc then Err(KeyError)
    else match doc["waist"]
      case Number(_) => Err(TypeError)
      case Records(d) => Ok(doc["waist" := Records(Put(d, normalise(date).value, ParseInt(measurement).value))])
  }

  /** Recording a measurement for a date no earlier than every recorded
      one (today's, as main does) makes it the current waist. */
  lemma AddedIsCurrent(doc: Doc, date: string, measurement: string, normalise: DateNormaliser)
    requires SoundDoc(doc) && Added(doc, date, measurement, normalise).Ok?
    requires forall k :: k in doc["waist"].byDate.vals ==> Le(k, normalise(date).value)
    ensures CurrentOf(Added(doc, date, measurement, normalise).value, "waist") == Ok(Latest(ParseInt(measurement).value))
  {
    var after := Added(doc, date, measurement, normalise).value;
    var day := normalise(date).value;
    LeRefl(day);
    CurrentIsGreatest(after, "waist", day);
  }

  /** Recording the same date twice keeps only the second measurement, and
      the shoulders are untouched by either. */
  lemma AddedTwice(doc: Doc, date: string, first: string, second: string, normalise: DateNormaliser)
    requires SoundDoc(doc) && Added(doc, date, first, normalise).Ok?
    requires ParseInt(second).Some?
    ensures Added(Added(doc, date, first, normalise).value, date, second, normalise) == Added(doc, date, second, normalise)
    ensures "shoulders" in doc ==>
      Added(Added(doc, date, first, normalise).value, date, second, normalise).value["shoulders"] == doc["shoulders"]
  {
    var d := doc["waist"].byDate;
    var day := normalise(date).value;
    var n1, n2 := ParseInt(first).value, ParseInt(second).value;
    var once := doc["waist" := Records(Put(d, day, n1))];
    assert Added(doc, date, first, normalise) == Ok(once);
    assert once["waist"] == Records(Put(d, day, n1));
    assert Added(once, date, second, normalise) == Ok(once["waist" := Records(Put(Put(d, day, n1), day, n2))]);
    PutPut(d, day, n1, n2);
    Overwritten(doc, "waist", Records(Put(d, day, n1)), Records(Put(d, day, n2)));
    assert Added(doc, date, second, normalise) == Ok(doc["waist" := Records(Put(d, day, n2))]);
  }

  /** A field written twice holds the second value. */
  lemma Overwritten(doc: Doc, f: string, v: Value, w: Value)
    ensures doc[f := v][f := w] == doc[f := w]
  {
    assert doc[f := v][f := w].Keys == doc[f := w].Keys;
  }

  // ---------------------------------------------------------------------------
  // backup_json

  /** The name of the day's backup copy. */
  function BackupName(today: string): string {
    DataFile + "-" + today + ".bak"
  }

  /** backup_json over the files on disk: when the day's copy is absent
      the data file is copied to it (copy2 raises FileNotFoundError if
      there is no data file) and the result is True; when it is present
      nothing is copied and the result is False. */
  function Backup(files: map<string, Doc>, today: string): (r: (Result<bool>, map<string, Doc>))
    ensures r.0 == Ok(false) <==> BackupName(today) in files
    ensures r.0 == Ok(true) <==> BackupName(today) !in files && DataFile in files
    ensures r.0 == Ok(true) ==> r.1 == files[BackupName(today) := files[DataFile]]
    ensures r.0 != Ok(true) ==> r.1 == files
    ensures r.0.Err? ==> r.0.error == FileNotFoundError
  {
    var name := BackupName(today);
    if name in files then (Ok(false), files)
    else if DataFile !in files then (Err(FileNotFoundError), files)
    else (Ok(true), files[name := files[DataFile]])
  }

  /** At most one backup a day: once a call has copied, the next call the
      same day returns False and copies nothing. */
  lemma BackupOncePerDay(files: map<string, Doc>, today: string)
    requires Backup(files, today).0.Ok?
    ensures var after := Backup(files, today).1;
      Backup(after, today) == (Ok(false), after)
  {
  }

  /** The backup name never is the data file's, so backing up leaves the
      data file as it was. */
  lemma BackupKeepsData(files: map<string, Doc>, today: string)
    ensures DataFile in files ==> DataFile in Backup(files, today).1 && Backup(files, today).1[DataFile] == files[DataFile]
    ensures DataFile !in files ==> DataFile !in Backup(files, today).1
  {
    assert BackupName(today)[..|DataFile|] == DataFile;
    assert BackupName(today) != DataFile;
  }

  // ---------------------------------------------------------------------------
  // The module state

  /** The module's global `data` and the files it reads and writes. */
  class Tracker {
    var data: Doc
    var files: map<string, Doc>
    const today: string
    const backup: bool

    /** At import: no data yet, `today` read from the clock, backups on. */
    constructor (files: map<string, Doc>, today: string)
      ensures data == map[] && this.files == files && this.today == today && backup
    {
      data := map[];
      this.files := files;
      this.today := today;
      backup := true;
    }

    method BackupJson() returns (r: Result<bool>)
      modifies this
      ensures (r, files) == Backup(old(files), today)
      ensures data == old(data)
    {
      var name := DataFile + "-" + today + ".bak";
      if name in files {
        return Ok(false);
      }
      if DataFile !in files {
        return Err(FileNotFoundError);
      }
      files := files[name := files[DataFile]];
      r := Ok(true);
    }

    /** load_data: the daily backup (when enabled), then the document read
        from the data file.  A FileNotFoundError from either is caught and
        leaves `data` as it was. */
    method LoadData()
      modifies this
      ensures files == (if backup then Backup(old(files), today).1 else old(files))
      ensures DataFile in old(files) ==> data == old(files)[DataFile]
      ensures DataFile !in old(files) ==> data == old(data)
    {
      if backup {
        var r := BackupJson();
        BackupKeepsData(old(files), today);
        if r.Err? {
          return;
        }
      }
      if DataFile in files {
        data := files[DataFile];
      }
    }

    /** save_data: the document written to the data file. */
    method SaveData()
      modifies this
      ensures files == old(files)[DataFile := data] && data == old(data)
    {
      files := files[DataFile := data];
    }

    /** add_record(date, measurement): the global document updated in
        place, True returned. */
    method AddRecord(date: string, measurement: string, normalise: DateNormaliser) returns (r: Result<bool>)
      requires SoundDoc(data)
      modifies this
      ensures files == old(files)
      ensures Added(old(data), date, measurement, normalise).Ok? ==> r == Ok(true) && data == Added(old(data), date, measurement, normalise).value
      ensures Added(old(data), date, measurement, normalise).Err? ==>
        r == Err(Added(old(data), date, measurement, normalise).error) && data == old(data)
    {
      var newdate := normalise(date);
      var newnum := ParseInt(measurement);
      if newdate.None? || newnum.None? {
        return Err(ValueError);
      }
      if "waist" !in data {
        return Err(KeyError);
      }
      match data["waist"]
      case Number(_) =>
        return Err(TypeError);
      case Records(d) =>
        data := data["waist" := Records(Put(d, newdate.value, newnum.value))];
        return Ok(true);
    }
  }
}
