/** pychieve/.scrap_csv_parse.py: the earlier storage of the measurements,
    one `date,number` line per record in a CSV file kept in date order. */
module CsvRecords {
  import opened Py
  import opened Lex
  import Sorting

  /** `[date, num]`. */
  datatype Record = Record(date: string, num: int)

  // ---------------------------------------------------------------------------
  // Reading the file

  /** What the read loop makes of one line. */
  datatype LineRead = Skipped | Parsed(record: Record) | Failed

  /** One line split on ',': a first field that is no date, or a second
      field that is no integer, is a ValueError and the line is skipped;
      a date with no second field is an IndexError, which the loop does
      not catch. */
  function ReadLine(line: string, normalise: DateNormaliser): LineRead {
    var fields := Split(line, ',');
    if normalise(fields[0]).None? then Skipped
    else if |fields| < 2 then Failed
    else if ParseInt(fields[1]).None? then Skipped
    else Parsed(Record(normalise(fields[0]).value, ParseInt(fields[1]).value))
  }

  /** A line is parsed exactly when its first field is a date and its
      second an integer, into that date and integer; it fails exactly when
      a date has no second field. */
  lemma ReadLineCases(line: string, normalise: DateNormaliser)
    ensures var fields := Split(line, ',');
      && (ReadLine(line, normalise).Parsed? <==>
            normalise(fields[0]).Some? && |fields| >= 2 && ParseInt(fields[1]).Some?)
      && (ReadLine(line, normalise).Parsed? ==>
            ReadLine(line, normalise).record == Record(normalise(fields[0]).value, ParseInt(fields[1]).value))
      && (ReadLine(line, normalise).Failed? <==> normalise(fields[0]).Some? && |fields| < 2)
  {
  }

  /** The record a parsed line leaves among those collected: its own, or
      the new record where the dates agree. */
  function Kept(rec: Record, entry: Record): Record {
    if rec.date == entry.date then entry else rec
  }

  /** What the read loop makes of each line of the file. */
  function Reads(lines: seq<string>, normalise: DateNormaliser): (outcomes: seq<LineRead>)
    ensures |outcomes| == |lines|
    ensures forall k :: 0 <= k < |lines| ==> outcomes[k] == ReadLine(lines[k], normalise)
  {
    seq(|lines|, k requires 0 <= k < |lines| => ReadLine(lines[k], normalise))
  }

  /** The records `while line:` collects from the `i`-th line on, up to
      the end of the file (an empty read), given what it makes of each
      line (`outcomes`): each parsed record, replaced by `entry` (the new
      record) where its date is `entry`'s; a failed line stops it with an
      IndexError. */
  function Collected(lines: seq<string>, outcomes: seq<LineRead>, i: nat, entry: Record): (r: Result<seq<Record>>)
    requires i <= |lines| == |outcomes|
    ensures r.Err? ==> r.error == IndexError && exists k :: i <= k < |lines| && outcomes[k].Failed?
    decreases |lines| - i
  {
    if i == |lines| || lines[i] == "" then Ok([])
    else match outcomes[i]
      case Skipped => Collected(lines, outcomes, i + 1, entry)
      case Failed => Err(IndexError)
      case Parsed(rec) =>
        match Collected(lines, outcomes, i + 1, entry)
        case Err(e) => Err(e)
        case Ok(rest) => Ok([Kept(rec, entry)] + rest)
  }

  /** The records collected before the rest. */
  function Prepend(records: seq<Record>, r: Result<seq<Record>>): Result<seq<Record>> {
    match r
    case Err(e) => Err(e)
    case Ok(rest) => Ok(records + rest)
  }

  /** The lines the read loop reaches from `i` on: none of them is the
      empty read that ends it. */
  predicate Reached(lines: seq<string>, i: nat, j: nat)
    requires i <= j < |lines|
  {
    forall m :: i <= m <= j ==> lines[m] != ""
  }

  /** Every collected record with the new date is the new record. */
  lemma {:induction false} CollectedReplaces(lines: seq<string>, outcomes: seq<LineRead>, i: nat, entry: Record)
    requires i <= |lines| == |outcomes| && Collected(lines, outcomes, i, entry).Ok?
    ensures var rs := Collected(lines, outcomes, i, entry).value;
      forall k :: 0 <= k < |rs| && rs[k].date == entry.date ==> rs[k] == entry
    decreases |lines| - i
  {
    if i < |lines| && lines[i] != "" && !outcomes[i].Failed? {
      CollectedReplaces(lines, outcomes, i + 1, entry);
    }
  }

  /** A line the loop reaches and parses leaves its record (with another
      date) or the new record (with the new date) among those collected. */
  lemma {:induction false} CollectedKeeps(lines: seq<string>, outcomes: seq<LineRead>, i: nat, j: nat, entry: Record)
    requires i <= j < |lines| == |outcomes| && Reached(lines, i, j)
    requires Collected(lines, outcomes, i, entry).Ok? && outcomes[j].Parsed?
    ensures Kept(outcomes[j].record, entry) in Collected(lines, outcomes, i, entry).value
    decreases j - i
  {
    var kept := Kept(outcomes[j].record, entry);
    if i < j {
      assert Reached(lines, i + 1, j);
      CollectedTail(lines, outcomes, i, entry, kept);
      CollectedKeeps(lines, outcomes, i + 1, j, entry);
    } else {
      CollectedHead(lines, outcomes, i, entry);
    }
  }

  /** A reached line that parses leaves its record first. */
  lemma CollectedHead(lines: seq<string>, outcomes: seq<LineRead>, i: nat, entry: Record)
    requires i < |lines| == |outcomes| && lines[i] != "" && Collected(lines, outcomes, i, entry).Ok?
    requires outcomes[i].Parsed?
    ensures Kept(outcomes[i].record, entry) in Collected(lines, outcomes, i, entry).value
  {
  }

  /** What is collected after a reached line is part of what is collected
      from it. */
  lemma CollectedTail(lines: seq<string>, outcomes: seq<LineRead>, i: nat, entry: Record, x: Record)
    requires i < |lines| == |outcomes| && lines[i] != "" && Collected(lines, outcomes, i, entry).Ok?
    ensures Collected(lines, outcomes, i + 1, entry).Ok?
    ensures x in Collected(lines, outcomes, i + 1, entry).value ==> x in Collected(lines, outcomes, i, entry).value
  {
  }

  /** Nothing else is collected: every record is the new one or one parsed
      from a line of the file with another date; skipped lines add none. */
  lemma {:induction false} CollectedFrom(lines: seq<string>, outcomes: seq<LineRead>, i: nat, entry: Record)
    requires i <= |lines| == |outcomes| && Collected(lines, outcomes, i, entry).Ok?
    ensures var rs := Collected(lines, outcomes, i, entry).value;
      forall x :: x in rs && x != entry ==>
        x.date != entry.date && exists j :: i <= j < |lines| && outcomes[j] == Parsed(x)
    decreases |lines| - i
  {
    if i < |lines| && lines[i] != "" && !outcomes[i].Failed? {
      CollectedFrom(lines, outcomes, i + 1, entry);
      CollectedReplaces(lines, outcomes, i, entry);
      var rs := Collected(lines, outcomes, i, entry).value;
      forall x | x in rs && x != entry
        ensures x.date != entry.date && exists j :: i <= j < |lines| && outcomes[j] == Parsed(x)
      {
        var k :| 0 <= k < |rs| && rs[k] == x;
        if outcomes[i].Parsed? && k == 0 {
          assert outcomes[i] == Parsed(x);
        } else {
          assert x in Collected(lines, outcomes, i + 1, entry).value;
        }
      }
    }
  }

  // ---------------------------------------------------------------------------
  // The records written back

  /** `key=lambda x: x[0]`: records ordered by their date strings. */
  function ByDate(): (le: (Record, Record) -> bool)
    ensures Sorting.TotalPreorder(le)
    ensures forall a, b :: le(a, b) <==> Le(a.date, b.date)
  {
    var le := (a: Record, b: Record) => Le(a.date, b.date);
    forall a: Record, b: Record ensures le(a, b) || le(b, a) {
      LeTotal(a.date, b.date);
    }
    forall a: Record, b: Record, c: Record | le(a, b) && le(b, c) ensures le(a, c) {
      LeTrans(a.date, b.date, c.date);
    }
    le
  }

  /** The records written for the file's lines and the new record: the
      new record appended where no line had its date, then all of them
      sorted by date. */
  function Updated(lines: seq<string>, entry: Record, normalise: DateNormaliser): (r: Result<seq<Record>>)
    ensures r.Err? <==> Collected(lines, Reads(lines, normalise), 0, entry).Err?
    ensures r.Ok? ==>
      var rs := Collected(lines, Reads(lines, normalise), 0, entry).value;
      && Sorting.Sorted(r.value, ByDate())
      && multiset(r.value) == multiset(rs) + (if entry in rs then multiset{} else multiset{entry})
      && entry in r.value
  {
    match Collected(lines, Reads(lines, normalise), 0, entry)
    case Err(e) => Err(e)
    case Ok(rs) =>
      var all := if entry in rs then rs else rs + [entry];
      var sorted := Sorting.SortBy(all, ByDate());
      assert entry in multiset(sorted);
      Ok(sorted)
  }

  /** The new record appears once when no line had its date. */
  lemma UpdatedOnce(lines: seq<string>, entry: Record, normalise: DateNormaliser)
    requires Collected(lines, Reads(lines, normalise), 0, entry).Ok? && entry !in Collected(lines, Reads(lines, normalise), 0, entry).value
    ensures multiset(Updated(lines, entry, normalise).value)[entry] == 1
  {
  }

  /** `str(record[0]) + ',' + str(record[1]) + '\n'`. */
  function Format(r: Record): string {
    r.date + "," + IntToString(r.num) + "\n"
  }

  /** The lines written for `records`, in order. */
  function Written(records: seq<Record>): (out: seq<string>)
    ensures |out| == |records|
    ensures forall k :: 0 <= k < |records| ==> out[k] == Format(records[k])
  {
    seq(|records|, k requires 0 <= k < |records| => Format(records[k]))
  }

  /** A written line splits on ',' into the date and the number, which
      reads back as the record's. */
  lemma FormatReadsBack(r: Record)
    requires ',' !in r.date
    ensures Split(Format(r), ',') == [r.date, IntToString(r.num) + "\n"]
    ensures ParseInt(Split(Format(r), ',')[1]) == Some(r.num)
  {
    var tail := IntToString(r.num) + "\n";
    FormatParts(r);
    SplitHead(r.date, ',', tail);
    NumberNoComma(r.num);
    SplitNone(tail, ',');
    assert Split(Format(r), ',') == [r.date, tail];
    ParseIntToString(r.num, "\n");
  }

  lemma FormatParts(r: Record)
    ensures Format(r) == r.date + [','] + (IntToString(r.num) + "\n")
  {
  }

  lemma SplitNone(s: string, sep: char)
    requires sep !in s
    ensures Split(s, sep) == [s]
  {
  }

  /** The number's text and newline hold no ','. */
  lemma NumberNoComma(n: int)
    ensures ',' !in IntToString(n) + "\n"
  {
    var s := IntToString(n) + "\n";
    forall k | 0 <= k < |s|
      ensures s[k] != ','
    {
      if k < |IntToString(n)| && n < 0 {
        assert IntToString(n) == "-" + NatToString(-n);
      }
    }
  }

  /** A written line is read as its record again when the date reads as
      itself, as a date key does. */
  lemma WrittenParses(r: Record, normalise: DateNormaliser)
    requires ',' !in r.date && normalise(r.date) == Some(r.date)
    ensures ReadLine(Format(r), normalise) == Parsed(r)
  {
    FormatReadsBack(r);
  }

  /** The lines written back for the file's lines and the new record, or
      the IndexError that stops the reading. */
  function Rewritten(lines: seq<string>, entry: Record, normalise: DateNormaliser): (r: Result<seq<string>>)
    ensures r.Err? <==> Updated(lines, entry, normalise).Err?
    ensures r.Ok? ==> r.value == Written(Updated(lines, entry, normalise).value)
  {
    match Updated(lines, entry, normalise)
    case Err(e) => Err(e)
    case Ok(rs) => Ok(Written(rs))
  }

  /** The whole of add_record on the file's lines: the new date and
      measurement are checked before the file is opened (ValueError), a
      missing file is a FileNotFoundError, an IndexError while reading
      leaves the file as it was; otherwise the file is rewritten with the
      updated records. */
  function Recorded(file: Option<seq<string>>, date: string, measurement: string, normalise: DateNormaliser): (r: Result<seq<string>>)
    ensures normalise(date).None? || ParseInt(measurement).None? ==> r == Err(ValueError)
    ensures normalise(date).Some? && ParseInt(measurement).Some? && file.None? ==> r == Err(FileNotFoundError)
    ensures r.Ok? ==> file.Some? && normalise(date).Some? && ParseInt(measurement).Some?
    ensures r.Err? && file.Some? && normalise(date).Some? && ParseInt(measurement).Some? ==> r.error == IndexError
  {
    if normalise(date).None? || ParseInt(measurement).None? then Err(ValueError)
    else if file.None? then Err(FileNotFoundError)
    else
      Rewritten(file.value, Record(normalise(date).value, ParseInt(measurement).value), normalise)
  }

  // ---------------------------------------------------------------------------
  // The most recent measurement

  /** get_current_waist and get_current_shoulders on the file's lines: no
      file gives None; otherwise the last line's second field as an
      integer (IndexError for no line or no second field, ValueError for
      no integer), and None again where that integer is 0. */
  function Current(file: Option<seq<string>>): (r: Result<Option<int>>)
    ensures file.None? ==> r == Ok(None)
    ensures file == Some([]) ==> r == Err(IndexError)
    ensures r.Ok? && r.value.Some? ==> r.value.value != 0
  {
    match file
    case None => Ok(None)
    case Some(lines) =>
      if lines == [] then Err(IndexError)
      else
        var last := Split(lines[|lines| - 1], ',');
        if |last| < 2 then Err(IndexError)
        else match ParseInt(last[1])
          case None => Err(ValueError)
          case Some(n) => if n != 0 then Ok(Some(n)) else Ok(None)
  }

  /** Reading a written file gives the last record's number, or None where
      it is 0. */
  lemma CurrentOfWritten(records: seq<Record>)
    requires records != [] && ',' !in records[|records| - 1].date
    ensures var last := records[|records| - 1];
      Current(Some(Written(records))) == Ok(if last.num != 0 then Some(last.num) else None)
  {
    FormatReadsBack(records[|records| - 1]);
  }

  /** After recording a date no earlier than any date in the file (today's,
      as main does), the file's last line is the new record: the current
      waist is the new measurement, or None where it is 0. */
  lemma RecordedIsCurrent(lines: seq<string>, date: string, measurement: string, normalise: DateNormaliser)
    requires Recorded(Some(lines), date, measurement, normalise).Ok?
    requires ',' !in normalise(date).value
    requires forall j :: 0 <= j < |lines| && ReadLine(lines[j], normalise).Parsed? ==>
      Le(ReadLine(lines[j], normalise).record.date, normalise(date).value)
    ensures var n := ParseInt(measurement).value;
      Current(Some(Recorded(Some(lines), date, measurement, normalise).value)) == Ok(if n != 0 then Some(n) else None)
  {
    var entry := Record(normalise(date).value, ParseInt(measurement).value);
    var rs := Collected(lines, Reads(lines, normalise), 0, entry).value;
    var sorted := Updated(lines, entry, normalise).value;
    var last := sorted[|sorted| - 1];
    LastIsEntry(lines, entry, normalise, rs, sorted);
    CurrentOfWritten(sorted);
  }

  /** The greatest record of the sorted update is the new one when no
      parsed date exceeds it. */
  lemma LastIsEntry(lines: seq<string>, entry: Record, normalise: DateNormaliser, rs: seq<Record>, sorted: seq<Record>)
    requires Collected(lines, Reads(lines, normalise), 0, entry) == Ok(rs) && Updated(lines, entry, normalise) == Ok(sorted)
    requires forall j :: 0 <= j < |lines| && ReadLine(lines[j], normalise).Parsed? ==>
      Le(ReadLine(lines[j], normalise).record.date, entry.date)
    ensures sorted != [] && sorted[|sorted| - 1] == entry
  {
    var last := sorted[|sorted| - 1];
    SortedLast(sorted, entry);
    if last != entry {
      FromFileBefore(lines, entry, normalise, rs, sorted, last);
      LeAntisym(last.date, entry.date);
      assert false;
    }
  }

  /** The last record of a list sorted by date has the greatest date. */
  lemma SortedLast(sorted: seq<Record>, x: Record)
    requires Sorting.Sorted(sorted, ByDate()) && x in sorted
    ensures Le(x.date, sorted[|sorted| - 1].date)
  {
    var k :| 0 <= k < |sorted| && sorted[k] == x;
    if k == |sorted| - 1 {
      LeRefl(x.date);
    } else {
      assert ByDate()(sorted[k], sorted[|sorted| - 1]);
    }
  }

  /** A written record other than the new one is one parsed from the file,
      with another date, no later than the new one's. */
  lemma FromFileBefore(lines: seq<string>, entry: Record, normalise: DateNormaliser, rs: seq<Record>, sorted: seq<Record>, x: Record)
    requires Collected(lines, Reads(lines, normalise), 0, entry) == Ok(rs) && Updated(lines, entry, normalise) == Ok(sorted)
    requires forall j :: 0 <= j < |lines| && ReadLine(lines[j], normalise).Parsed? ==>
      Le(ReadLine(lines[j], normalise).record.date, entry.date)
    requires x in sorted && x != entry
    ensures x.date != entry.date && Le(x.date, entry.date)
  {
    assert x in multiset(sorted);
    assert x in rs;
    CollectedFrom(lines, Reads(lines, normalise), 0, entry);
    var j :| 0 <= j < |lines| && Reads(lines, normalise)[j] == Parsed(x);
  }

  // ---------------------------------------------------------------------------
  // The files

  /** The two CSV files, as the lines `readline` returns; None where the
      file does not exist. */
  class CsvFiles {
    var waist: Option<seq<string>>
    var shoulders: Option<seq<string>>

    constructor (waist: Option<seq<string>>, shoulders: Option<seq<string>>)
      ensures this.waist == waist && this.shoulders == shoulders
    {
      this.waist := waist;
      this.shoulders := shoulders;
    }

    /** add_record(date, measurement): True once the waist file holds the
        updated records; the shoulder file is never touched. */
    method AddRecord(date: string, measurement: string, normalise: DateNormaliser) returns (r: Result<bool>)
      modifies this
      ensures shoulders == old(shoulders)
      ensures Recorded(old(waist), date, measurement, normalise).Ok? ==>
        r == Ok(true) && waist == Some(Recorded(old(waist), date, measurement, normalise).value)
      ensures Recorded(old(waist), date, measurement, normalise).Err? ==>
        r == Err(Recorded(old(waist), date, measurement, normalise).error) && waist == old(waist)
    {
      var out := RecordLines(waist, date, measurement, normalise);
      if out.Err? {
        return Err(out.error);
      }
      waist := Some(out.value);
      r := Ok(true);
    }
  }

  /** add_record's steps on the waist file's lines: the checks, then the
      rewrite. */
  method RecordLines(file: Option<seq<string>>, date: string, measurement: string, normalise: DateNormaliser)
    returns (out: Result<seq<string>>)
    ensures out == Recorded(file, date, measurement, normalise)
  {
    var newdate := normalise(date);
    var newnum := ParseInt(measurement);
    if newdate.None? || newnum.None? {
      return Err(ValueError);
    }
    var entry := Record(newdate.value, newnum.value);
    if file.None? {
      return Err(FileNotFoundError);
    }
    out := Rewrite(file.value, entry, normalise);
  }

  /** Reading the records, adding the new one where no line had its
      date, sorting and formatting them. */
  method Rewrite(lines: seq<string>, entry: Record, normalise: DateNormaliser) returns (out: Result<seq<string>>)
    ensures out == Rewritten(lines, entry, normalise)
  {
    var records, update, failed := ReadRecords(lines, entry, normalise);
    if failed {
      return Err(IndexError);
    }
    if !update {
      records := records + [entry];
    }
    records := Sorting.SortBy(records, ByDate());
    var written := WriteLines(records);
    out := Ok(written);
  }

  /** The read loop: `update` says whether a line had the new date. */
  method ReadRecords(lines: seq<string>, entry: Record, normalise: DateNormaliser)
    returns (records: seq<Record>, update: bool, failed: bool)
    ensures failed <==> Collected(lines, Reads(lines, normalise), 0, entry).Err?
    ensures !failed ==> records == Collected(lines, Reads(lines, normalise), 0, entry).value && (update <==> entry in records)
  {
    records, update := [], false;
    var i := 0;
    ghost var outcomes := Reads(lines, normalise);
    PrependNothing(Collected(lines, outcomes, 0, entry));
    while i < |lines| && lines[i] != ""
      invariant i <= |lines|
      invariant Collected(lines, outcomes, 0, entry) == Prepend(records, Collected(lines, outcomes, i, entry))
      invariant update <==> entry in records
      decreases |lines| - i
    {
      var thisline := Split(lines[i], ',');
      var date := normalise(thisline[0]);
      if date.None? {
        i := i + 1;
        continue;
      }
      if |thisline| < 2 {
        return records, update, true;
      }
      var num := ParseInt(thisline[1]);
      if num.None? {
        i := i + 1;
        continue;
      }
      PrependStep(records, lines, outcomes, i, entry);
      if date.value == entry.date {
        records := records + [entry];
        update := true;
      } else {
        records := records + [Record(date.value, num.value)];
      }
      i := i + 1;
    }
    assert records + [] == records;
    failed := false;
  }

  lemma PrependNothing(r: Result<seq<Record>>)
    ensures Prepend([], r) == r
  {
    if r.Ok? {
      assert [] + r.value == r.value;
    }
  }

  /** One parsed line moves its record from the rest into the prefix. */
  lemma PrependStep(records: seq<Record>, lines: seq<string>, outcomes: seq<LineRead>, i: nat, entry: Record)
    requires i < |lines| == |outcomes| && lines[i] != "" && outcomes[i].Parsed?
    ensures Prepend(records, Collected(lines, outcomes, i, entry))
        == Prepend(records + [Kept(outcomes[i].record, entry)], Collected(lines, outcomes, i + 1, entry))
  {
    var x := Kept(outcomes[i].record, entry);
    match Collected(lines, outcomes, i + 1, entry)
    case Err(_) =>
    case Ok(rest) =>
      assert records + ([x] + rest) == (records + [x]) + rest;
  }

  /** The write loop. */
  method WriteLines(records: seq<Record>) returns (out: seq<string>)
    ensures out == Written(records)
  {
    out := [];
    var k := 0;
    while k < |records|
      invariant k <= |records| && |out| == k
      invariant forall j :: 0 <= j < k ==> out[j] == Format(records[j])
    {
      out := out + [Format(records[k])];
      k := k + 1;
    }
  }
}
