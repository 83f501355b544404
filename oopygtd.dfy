/** oopygtd.py: the class-based rewrite.  Items are values carrying an id
    drawn from a per-class counter, their creation stamp and completion;
    the lists of items (`Inbox`, `NextActionList`, `Calendar`, ...) are
    objects whose `items` the methods append to or sort in place; and
    import_json fills them from the JSON document of pygtd.py. */
module OoGtd {
  import opened Py
  import opened Dicts
  import Gtd
  import Sorting

  // ---------------------------------------------------------------------------
  // Class-level id counters

  /** The item subclasses, whose `id_count` class attributes number their
      instances.  `Item` itself is never instantiated. */
  datatype Kind = InboxItemClass | NextActionClass | WaitingForClass | ProjectClass | MaybeSomedayClass | CalendarItemClass

  /** `cls.id_count`: the subclass's own attribute once it has one, else the
      0 inherited from `Item`. */
  function Lookup(counts: map<Kind, nat>, k: Kind): nat {
    if k in counts then counts[k] else 0
  }

  /** `self.__class__.id_count += 1`: reads through inheritance, writes the
      subclass's own attribute. */
  function Bump(counts: map<Kind, nat>, k: Kind): (r: map<Kind, nat>)
    ensures forall c :: Lookup(r, c) == Lookup(counts, c) + (if c == k then 1 else 0)
  {
    counts[k := Lookup(counts, k) + 1]
  }

  /** The counters after constructing instances of `kinds`, in order. */
  function Final(counts: map<Kind, nat>, kinds: seq<Kind>): map<Kind, nat>
    decreases |kinds|
  {
    if kinds == [] then counts
    else Bump(Final(counts, kinds[..|kinds| - 1]), kinds[|kinds| - 1])
  }

  /** How many of `s` are `k`. */
  function Occurrences(s: seq<Kind>, k: Kind): nat
    decreases |s|
  {
    if s == [] then 0
    else Occurrences(s[..|s| - 1], k) + (if s[|s| - 1] == k then 1 else 0)
  }

  /** Every class counts its own constructions only. */
  lemma {:induction false} FinalCounts(counts: map<Kind, nat>, kinds: seq<Kind>, k: Kind)
    ensures Lookup(Final(counts, kinds), k) == Lookup(counts, k) + Occurrences(kinds, k)
    decreases |kinds|
  {
    if kinds != [] {
      FinalCounts(counts, kinds[..|kinds| - 1], k);
    }
  }

  /** From the counters at program start, the `j`-th construction gets the
      id `n` when it is the `n`-th construction of its class: ids run
      1, 2, 3, ... within each class, whatever the other classes do. */
  lemma IdsRun(kinds: seq<Kind>, j: nat)
    requires j < |kinds|
    ensures Lookup(Final(map[], kinds[..j]), kinds[j]) + 1 == Occurrences(kinds[..j + 1], kinds[j])
  {
    FinalCounts(map[], kinds[..j], kinds[j]);
    assert kinds[..j + 1][..j] == kinds[..j];
  }

  /** The class attributes `id_count` of the item classes. */
  class ClassCounters {
    var counts: map<Kind, nat>

    /** At import time no subclass has its own attribute yet. */
    constructor ()
      ensures counts == map[]
    {
      counts := map[];
    }

    /** Item.__init__'s counter update for an instance of class `k`. */
    method Next(k: Kind) returns (id: nat)
      modifies this
      ensures counts == Bump(old(counts), k) && id == Lookup(old(counts), k) + 1
    {
      id := Lookup(counts, k) + 1;
      counts := counts[k := id];
    }
  }

  // ---------------------------------------------------------------------------
  // Items

  /** `created`: a `time()` reading, or the JSON key import_json stores
      there instead. */
  datatype Stamp = Clock(seconds: int) | KeyText(key: string)

  /** The fields a subclass adds to `text`. */
  datatype Details =
    | InboxItem
    | NextAction(context: Option<string>)
    | WaitingFor(agent: string, due: Option<string>)
    | Project
    | MaybeSomeday(category: string)
    | CalendarItem(date: int)   // a datetime, as seconds

  function KindOf(d: Details): Kind {
    match d
    case InboxItem => InboxItemClass
    case NextAction(_) => NextActionClass
    case WaitingFor(_, _) => WaitingForClass
    case Project => ProjectClass
    case MaybeSomeday(_) => MaybeSomedayClass
    case CalendarItem(_) => CalendarItemClass
  }

  /** `text` holds whatever value the item was built from: a string when
      the item is added by hand, any JSON value when it is imported. */
  datatype Item = Item(id: nat, created: Stamp, completed: Option<string>, text: Gtd.Entry, details: Details)

  /** Constructing an item of the class `details` names: the next id of
      that class, created at the clock reading `clock`, not completed. */
  method NewItem(classes: ClassCounters, text: Gtd.Entry, details: Details, clock: int) returns (item: Item)
    modifies classes
    ensures classes.counts == Bump(old(classes.counts), KindOf(details))
    ensures item == Item(Lookup(old(classes.counts), KindOf(details)) + 1, Clock(clock), None, text, details)
  {
    var id := classes.Next(KindOf(details));
    item := Item(id, Clock(clock), None, text, details);
  }

  /** item.age(), i.e. timedif(created) at the clock reading `now`: the
      seconds elapsed, never negative for an item created before `now`;
      `time() - created` is a TypeError where `created` is a key string. */
  function Age(item: Item, now: int): (r: Result<int>)
    ensures r.Ok? <==> item.created.Clock?
    ensures r.Ok? ==> item.created.seconds + r.value == now
    ensures r.Ok? ==> (r.value >= 0 <==> item.created.seconds <= now)
    ensures r.Err? ==> r.error == TypeError
  {
    match item.created
    case Clock(seconds) => Ok(now - seconds)
    case KeyText(_) => Err(TypeError)
  }

  // ---------------------------------------------------------------------------
  // Printing a list

  /** One printed line of an item whose text is a string: the id, a
      space, the text. */
  function Line(item: Item): string
    requires item.text.Text?
  {
    NatToString(item.id) + " " + item.text.text
  }

  /** The id of a printed line is everything before its first space, and
      reads back as the item's id; the text is everything after it. */
  lemma LineReadsBack(item: Item)
    requires item.text.Text?
    ensures ParseInt(Split(Line(item), ' ')[0]) == Some(item.id)
    ensures Line(item)[|NatToString(item.id)| + 1..] == item.text.text
  {
    var digits := NatToString(item.id);
    assert forall k :: 0 <= k < |digits| ==> digits[k] != ' ';
    SplitHead(digits, ' ', item.text.text);
    assert Line(item) == digits + [' '] + item.text.text;
    ParseIntToString(item.id, "");
    assert IntToString(item.id) + "" == digits;
  }

  /** The lines `for item in items: print(str(item.id) + ' ' + item.text)`
      writes: one per item, in order, until an item whose text is not a
      string makes the concatenation raise TypeError. */
  method PrintLines(items: seq<Item>) returns (lines: seq<string>, outcome: Outcome)
    ensures |lines| <= |items|
    ensures forall i :: 0 <= i < |lines| ==> items[i].text.Text? && lines[i] == Line(items[i])
    ensures outcome == Normal <==> |lines| == |items|
    ensures outcome != Normal ==> outcome == Raised(TypeError) && !items[|lines|].text.Text?
  {
    lines := [];
    var i := 0;
    while i < |items|
      invariant i <= |items| && |lines| == i
      invariant forall j :: 0 <= j < i ==> items[j].text.Text? && lines[j] == Line(items[j])
    {
      if !items[i].text.Text? {
        return lines, Raised(TypeError);
      }
      lines := lines + [NatToString(items[i].id) + " " + items[i].text.text];
      i := i + 1;
    }
    outcome := Normal;
  }

  /** What `print(str(item.id), item.text)` is given for each item: the id
      as a string and the text, whatever value it is. */
  method PrintArgs(items: seq<Item>) returns (args: seq<(string, Gtd.Entry)>)
    ensures |args| == |items|
    ensures forall i :: 0 <= i < |items| ==> args[i] == (NatToString(items[i].id), items[i].text)
    ensures forall i :: 0 <= i < |items| && items[i].text.Text? ==>
      args[i].0 + " " + args[i].1.text == Line(items[i])
  {
    args := [];
    for i := 0 to |items|
      invariant |args| == i
      invariant forall j :: 0 <= j < i ==> args[j] == (NatToString(items[j].id), items[j].text)
    {
      args := args + [(NatToString(items[i].id), items[i].text)];
    }
  }

  // ---------------------------------------------------------------------------
  // The lists

  class Inbox {
    var items: seq<Item>

    constructor (items: seq<Item>)
      ensures this.items == items
    {
      this.items := items;
    }

    /** Inbox.add(text): a new InboxItem at the end; the items before it
        are untouched. */
    method Add(classes: ClassCounters, text: string, clock: int)
      modifies this, classes
      ensures classes.counts == Bump(old(classes.counts), InboxItemClass)
      ensures items == old(items) + [Item(Lookup(old(classes.counts), InboxItemClass) + 1, Clock(clock), None, Gtd.Text(text), InboxItem)]
    {
      var item := NewItem(classes, Gtd.Text(text), InboxItem, clock);
      items := items + [item];
    }

    /** Inbox.print(): one "id text" line per item, in list order, until
        an item whose text is not a string raises TypeError. */
    method Print() returns (lines: seq<string>, outcome: Outcome)
      ensures |lines| <= |items|
      ensures forall i :: 0 <= i < |lines| ==> items[i].text.Text? && lines[i] == Line(items[i])
      ensures outcome == Normal <==> |lines| == |items|
      ensures outcome != Normal ==> outcome == Raised(TypeError) && !items[|lines|].text.Text?
    {
      lines, outcome := PrintLines(items);
    }
  }

  class NextActionList {
    var items: seq<Item>

    constructor (items: seq<Item>)
      ensures this.items == items
    {
      this.items := items;
    }

    /** NextActionList.print(): `print(str(id), text)` is given any text,
        a JSON record included; for a string text, `print` separating its
        two arguments with a space writes the inbox's line. */
    method Print() returns (args: seq<(string, Gtd.Entry)>)
      ensures |args| == |items|
      ensures forall i :: 0 <= i < |items| ==> args[i] == (NatToString(items[i].id), items[i].text)
      ensures forall i :: 0 <= i < |items| && items[i].text.Text? ==>
        args[i].0 + " " + args[i].1.text == Line(items[i])
    {
      args := PrintArgs(items);
    }
  }

  /** WaitingForList, ProjectList, MaybeSomedayList and CompletedItemList:
      a list of items and nothing else. */
  class ItemList {
    var items: seq<Item>

    constructor (items: seq<Item>)
      ensures this.items == items
    {
      this.items := items;
    }
  }

  /** Whether an item has a `date` attribute. */
  predicate Dated(item: Item) { item.details.CalendarItem? }

  /** The sort key `attrgetter('date')` compares by, on dated items. */
  function DateOf(item: Item): int {
    if Dated(item) then item.details.date else 0
  }

  /** Items ordered by date. */
  function ByDate(): (le: (Item, Item) -> bool)
    ensures Sorting.TotalPreorder(le)
    ensures forall a, b :: le(a, b) <==> DateOf(a) <= DateOf(b)
  {
    (a: Item, b: Item) => DateOf(a) <= DateOf(b)
  }

  class Calendar {
    var items: seq<Item>

    constructor (items: seq<Item>)
      ensures this.items == items
    {
      this.items := items;
    }

    /** Calendar.add(item): the item at the end. */
    method Add(item: Item)
      modifies this
      ensures items == old(items) + [item]
    {
      items := items + [item];
    }

    /** print_upcoming(days): sorts the items in place by date, then prints
        every one of them in that order; `days` filters nothing.  An item
        without a date makes the key function raise AttributeError, which
        leaves the list as it was. */
    method PrintUpcoming(days: int) returns (outcome: Outcome, shown: seq<Item>)
      modifies this
      ensures (forall i :: 0 <= i < |old(items)| ==> Dated(old(items)[i])) ==>
        && outcome == Normal && items == Sorting.SortBy(old(items), ByDate()) && shown == items
        && Sorting.Sorted(items, ByDate()) && multiset(items) == multiset(old(items))
      ensures !(forall i :: 0 <= i < |old(items)| ==> Dated(old(items)[i])) ==>
        outcome == Raised(AttributeError) && items == old(items) && shown == []
    {
      if !(forall i :: 0 <= i < |items| ==> Dated(items[i])) {
        return Raised(AttributeError), [];
      }
      items := Sorting.SortBy(items, ByDate());
      return Normal, items;
    }
  }

  /** Sorting by date puts an earlier appointment before a later one. */
  lemma UpcomingOrder(items: seq<Item>, i: nat, j: nat)
    requires i < j < |items|
    ensures DateOf(Sorting.SortBy(items, ByDate())[i]) <= DateOf(Sorting.SortBy(items, ByDate())[j])
  {
  }

  // ---------------------------------------------------------------------------
  // import_json

  /** The buckets of pygtd.json that import_json reads, in its order. */
  datatype Source = InboxSource | ActionsSource | ScheduledSource | WaitingSource | CompletedSource

  const Sources: seq<Source> := [InboxSource, ActionsSource, ScheduledSource, WaitingSource, CompletedSource]

  function SourceBucket(s: Source): Gtd.Name {
    match s
    case InboxSource => Gtd.Inbox
    case ActionsSource => Gtd.Actions
    case ScheduledSource => Gtd.Scheduled
    case WaitingSource => Gtd.Waiting
    case CompletedSource => Gtd.Completed
  }

  /** The class each bucket's entries become: completed entries become
      NextActions. */
  function SourceKind(s: Source): Kind {
    match s
    case InboxSource => InboxItemClass
    case ActionsSource => NextActionClass
    case ScheduledSource => CalendarItemClass
    case WaitingSource => WaitingForClass
    case CompletedSource => NextActionClass
  }

  /** `value['text']`: the field of a record; indexing a string by a
      string is a TypeError. */
  function TextField(e: Gtd.Entry): (r: Result<Gtd.Entry>)
    ensures r.Err? <==> e.Text?
    ensures r.Err? ==> r.error == TypeError
    ensures e.Appointment? || e.Project? ==> r == Ok(Gtd.Text(e.text))
    ensures e.Done? ==> r == Ok(e.item)
  {
    match e
    case Text(_) => Err(TypeError)
    case Appointment(_, text) => Ok(Gtd.Text(text))
    case Project(_, text, _) => Ok(Gtd.Text(text))
    case Done(_, item) => Ok(item)
  }

  /** `value['date']`. */
  function DateField(e: Gtd.Entry): Result<string> {
    match e
    case Text(_) => Err(TypeError)
    case Appointment(date, _) => Ok(date)
    case _ => Err(KeyError)
  }

  /** `value['completion_date']`. */
  function CompletionField(e: Gtd.Entry): Result<string> {
    match e
    case Text(_) => Err(TypeError)
    case Done(date, _) => Ok(date)
    case _ => Err(KeyError)
  }

  /** dateutil's `parser.parse`: a datetime, or None for ValueError. */
  type DateTimeParser = string -> Option<int>

  /** What is read from an entry before the item is constructed: its text
      and, for the calendar, its parsed date.  The inbox, actions and
      waiting loops pass the value itself, whatever it is; the calendar
      reads `value['date']`, parses it, then reads `value['text']`; the
      completed loop reads `value['text']`. */
  function Fields(s: Source, value: Gtd.Entry, parse: DateTimeParser): (r: Result<(Gtd.Entry, Details)>)
    ensures r.Ok? ==> KindOf(r.value.1) == SourceKind(s)
    ensures s == InboxSource || s == ActionsSource || s == WaitingSource ==> r.Ok? && r.value.0 == value
    ensures s == ScheduledSource ==>
      (r.Ok? <==> value.Appointment? && parse(value.date).Some?)
      && (r.Ok? ==> r.value == (Gtd.Text(value.text), CalendarItem(parse(value.date).value)))
      && (r.Err? ==> r.error == if value.Text? then TypeError else if !value.Appointment? then KeyError else ValueError)
    ensures s == CompletedSource ==> (r.Ok? <==> !value.Text?) && (r.Ok? ==> r.value.0 == TextField(value).value)
  {
    match s
    case InboxSource => Ok((value, InboxItem))
    case ActionsSource => Ok((value, NextAction(None)))
    case WaitingSource => Ok((value, WaitingFor("", None)))
    case ScheduledSource =>
      if DateField(value).Err? then Err(DateField(value).error)
      else if parse(DateField(value).value).None? then Err(ValueError)
      else Ok((TextField(value).value, CalendarItem(parse(DateField(value).value).value)))
    case CompletedSource =>
      if TextField(value).Err? then Err(TextField(value).error) else Ok((TextField(value).value, NextAction(None)))
  }

  /** What is read after the item is constructed: the completion date of a
      completed entry. */
  function Completion(s: Source, value: Gtd.Entry): Result<Option<string>> {
    if s != CompletedSource then Ok(None)
    else if CompletionField(value).Err? then Err(CompletionField(value).error)
    else Ok(Some(CompletionField(value).value))
  }

  /** The items imported from one bucket, the counters after, and how the
      loop ended. */
  datatype Batch = Batch(items: seq<Item>, counts: map<Kind, nat>, outcome: Outcome)

  /** One import loop from the `i`-th key of bucket `b` on. */
  function ImportFrom(s: Source, b: Gtd.Bucket, i: nat, counts: map<Kind, nat>, parse: DateTimeParser): (r: Batch)
    requires i <= |b.keys|
    ensures |r.items| <= |b.keys| - i
    ensures r.outcome.Normal? ==> |r.items| == |b.keys| - i
    decreases |b.keys| - i
  {
    if i == |b.keys| then Batch([], counts, Normal)
    else
      var key := b.keys[i];
      KeysIn(b, key);
      var value := b.vals[key];
      match Fields(s, value, parse)
      case Err(e) => Batch([], counts, Raised(e))
      case Ok(f) =>
        var item := Item(Lookup(counts, SourceKind(s)) + 1, KeyText(key), None, f.0, f.1);
        var after := Bump(counts, SourceKind(s));
        match Completion(s, value)
        case Err(e) => Batch([], after, Raised(e))
        case Ok(c) =>
          var r := ImportFrom(s, b, i + 1, after, parse);
          Batch([item.(completed := c)] + r.items, r.counts, r.outcome)
  }

  /** The item imported from the `i`-th entry of `b`. */
  ghost predicate ImportedAs(s: Source, b: Gtd.Bucket, i: nat, id: nat, parse: DateTimeParser, item: Item)
    requires i < |b.keys|
  {
    var key := b.keys[i];
    && key in b.vals
    && item.id == id && item.created == KeyText(key)
    && Fields(s, b.vals[key], parse) == Ok((item.text, item.details))
    && Completion(s, b.vals[key]) == Ok(item.completed)
  }

  /** Every entry imported becomes one item, in the bucket's order: the
      `j`-th item comes from the `j`-th entry on, its id continues the
      class's count by `j + 1`, `created` is the entry's key, the text and
      fields are the entry's, and a completed entry's item is completed at
      the entry's completion date. */
  lemma {:induction false} ImportedItem(s: Source, b: Gtd.Bucket, i: nat, counts: map<Kind, nat>, parse: DateTimeParser, j: nat)
    requires i <= |b.keys| && j < |ImportFrom(s, b, i, counts, parse).items|
    ensures ImportedAs(s, b, i + j, Lookup(counts, SourceKind(s)) + j + 1, parse, ImportFrom(s, b, i, counts, parse).items[j])
    decreases j
  {
    var k := SourceKind(s);
    KeysIn(b, b.keys[i]);
    var value := b.vals[b.keys[i]];
    var after := Bump(counts, k);
    var all := ImportFrom(s, b, i, counts, parse);
    var r := ImportFrom(s, b, i + 1, after, parse);
    assert Fields(s, value, parse).Ok? && Completion(s, value).Ok?;
    assert all.items == [all.items[0]] + r.items;
    if j > 0 {
      ImportedItem(s, b, i + 1, after, parse, j - 1);
      assert all.items[j] == r.items[j - 1];
      assert Lookup(after, k) == Lookup(counts, k) + 1;
    }
  }

  /** The inbox, actions and waiting loops never raise: every entry of the
      bucket is imported, in order, with the entry's value as its text,
      a JSON record included. */
  lemma {:induction false} PlainLoopsImportAll(s: Source, b: Gtd.Bucket, i: nat, counts: map<Kind, nat>, parse: DateTimeParser)
    requires s == InboxSource || s == ActionsSource || s == WaitingSource
    requires i <= |b.keys|
    ensures ImportFrom(s, b, i, counts, parse).outcome == Normal
    ensures |ImportFrom(s, b, i, counts, parse).items| == |b.keys| - i
    ensures forall j :: i <= j < |b.keys| ==>
      b.keys[j] in b.vals && ImportFrom(s, b, i, counts, parse).items[j - i].text == b.vals[b.keys[j]]
    decreases |b.keys| - i
  {
    if i < |b.keys| {
      PlainLoopsImportAll(s, b, i + 1, Bump(counts, SourceKind(s)), parse);
    }
    forall j | i <= j < |b.keys|
      ensures b.keys[j] in b.vals && ImportFrom(s, b, i, counts, parse).items[j - i].text == b.vals[b.keys[j]]
    {
      PlainText(s, b, i, counts, parse, j - i);
    }
  }

  lemma PlainText(s: Source, b: Gtd.Bucket, i: nat, counts: map<Kind, nat>, parse: DateTimeParser, j: nat)
    requires s == InboxSource || s == ActionsSource || s == WaitingSource
    requires i <= |b.keys| && j < |ImportFrom(s, b, i, counts, parse).items|
    ensures b.keys[i + j] in b.vals && ImportFrom(s, b, i, counts, parse).items[j].text == b.vals[b.keys[i + j]]
  {
    ImportedItem(s, b, i, counts, parse, j);
    var item := ImportFrom(s, b, i, counts, parse).items[j];
    var key := b.keys[i + j];
    assert Fields(s, b.vals[key], parse) == Ok((item.text, item.details));
  }

  /** The import of a bucket advances only its class's counter: by one per
      item imported, and by one more when reading the completion date of
      the last item constructed failed. */
  lemma {:induction false} ImportFromCounts(s: Source, b: Gtd.Bucket, i: nat, counts: map<Kind, nat>, parse: DateTimeParser)
    requires i <= |b.keys|
    ensures var r := ImportFrom(s, b, i, counts, parse);
      && (forall k :: k != SourceKind(s) ==> Lookup(r.counts, k) == Lookup(counts, k))
      && Lookup(counts, SourceKind(s)) + |r.items| <= Lookup(r.counts, SourceKind(s)) <= Lookup(counts, SourceKind(s)) + |r.items| + 1
      && (r.outcome.Normal? ==> Lookup(r.counts, SourceKind(s)) == Lookup(counts, SourceKind(s)) + |r.items|)
    decreases |b.keys| - i
  {
    if i < |b.keys| {
      KeysIn(b, b.keys[i]);
      var value := b.vals[b.keys[i]];
      if Fields(s, value, parse).Ok? && Completion(s, value).Ok? {
        ImportFromCounts(s, b, i + 1, Bump(counts, SourceKind(s)), parse);
      }
    }
  }

  /** The items of each bucket import_json reads, the counters after, and
      how it ended. */
  datatype Imported = Imported(batches: seq<seq<Item>>, counts: map<Kind, nat>, outcome: Outcome)

  /** import_json's loops from the `k`-th bucket on: a missing bucket is a
      KeyError, and the first exception ends the import with the items
      appended so far kept. */
  function ImportSources(doc: Gtd.Data, k: nat, counts: map<Kind, nat>, parse: DateTimeParser): (r: Imported)
    requires k <= |Sources|
    ensures |r.batches| <= |Sources| - k
    ensures r.outcome.Normal? ==> |r.batches| == |Sources| - k
    decreases |Sources| - k
  {
    if k == |Sources| then Imported([], counts, Normal)
    else if SourceBucket(Sources[k]) !in doc then Imported([], counts, Raised(KeyError))
    else
      var b := ImportFrom(Sources[k], doc[SourceBucket(Sources[k])], 0, counts, parse);
      if b.outcome.Raised? then Imported([b.items], b.counts, b.outcome)
      else
        var r := ImportSources(doc, k + 1, b.counts, parse);
        Imported([b.items] + r.batches, r.counts, r.outcome)
  }

  /** The items imported from the `k`-th bucket; none where the import
      stopped before it. */
  function BatchAt(r: Imported, k: nat): seq<Item> {
    if k < |r.batches| then r.batches[k] else []
  }

  /** A document written by pygtd.py before anything was ever sent to
      'waiting' has no such bucket: import_json then raises after at most
      the inbox, the actions and the calendar, imports no completed item,
      and has imported every inbox entry. */
  lemma WithoutWaiting(doc: Gtd.Data, counts: map<Kind, nat>, parse: DateTimeParser)
    requires Gtd.Inbox in doc && Gtd.Actions in doc && Gtd.Scheduled in doc && Gtd.Waiting !in doc
    ensures var r := ImportSources(doc, 0, counts, parse);
      && r.outcome.Raised? && |r.batches| <= 3 && BatchAt(r, 4) == []
      && BatchAt(r, 0) == ImportFrom(InboxSource, doc[Gtd.Inbox], 0, counts, parse).items
      && |BatchAt(r, 0)| == |doc[Gtd.Inbox].keys|
  {
    var r := ImportSources(doc, 0, counts, parse);
    var b0 := ImportFrom(InboxSource, doc[Gtd.Inbox], 0, counts, parse);
    PlainLoopsImportAll(InboxSource, doc[Gtd.Inbox], 0, counts, parse);
    if b0.outcome.Normal? {
      var b1 := ImportFrom(ActionsSource, doc[Gtd.Actions], 0, b0.counts, parse);
      if b1.outcome.Normal? {
        var b2 := ImportFrom(ScheduledSource, doc[Gtd.Scheduled], 0, b1.counts, parse);
        if b2.outcome.Normal? {
          assert ImportSources(doc, 3, b2.counts, parse) == Imported([], b2.counts, Raised(KeyError));
        }
      }
    }
  }

  /** Imported items are stamped with their key, so their age is a
      TypeError. */
  lemma ImportedAgeFails(s: Source, b: Gtd.Bucket, counts: map<Kind, nat>, parse: DateTimeParser, j: nat, now: int)
    requires j < |ImportFrom(s, b, 0, counts, parse).items|
    ensures Age(ImportFrom(s, b, 0, counts, parse).items[j], now) == Err(TypeError)
  {
    ImportedItem(s, b, 0, counts, parse, j);
  }

  /** One import loop: `for key, value in data[...].items()`, each item
      constructed, stamped with its key and appended.  The constructors'
      own `time()` readings (`clock`) are overwritten. */
  method ReadBucket(s: Source, b: Gtd.Bucket, classes: ClassCounters, clock: int, parse: DateTimeParser)
    returns (batch: seq<Item>, outcome: Outcome)
    modifies classes
    ensures ImportFrom(s, b, 0, old(classes.counts), parse) == Batch(batch, classes.counts, outcome)
  {
    batch := [];
    var i := 0;
    while i < |b.keys|
      invariant i <= |b.keys|
      invariant ImportFrom(s, b, 0, old(classes.counts), parse) == After(batch, ImportFrom(s, b, i, classes.counts, parse))
      decreases |b.keys| - i
    {
      ghost var before := classes.counts;
      var read := ReadEntry(s, b, i, classes, clock, parse);
      if read.Err? {
        assert ImportFrom(s, b, i, before, parse) == Batch([], classes.counts, Raised(read.error));
        assert batch + [] == batch;
        return batch, Raised(read.error);
      }
      assert ImportFrom(s, b, i, before, parse) == After([read.value], ImportFrom(s, b, i + 1, classes.counts, parse));
      AfterAfter(batch, [read.value], ImportFrom(s, b, i + 1, classes.counts, parse));
      batch := batch + [read.value];
      i := i + 1;
    }
    outcome := Normal;
  }

  /** The body of the import loop for the `i`-th key: the entry's fields
      read, the item constructed (advancing its class's counter), stamped
      with the key and, for a completed entry, completed. */
  method ReadEntry(s: Source, b: Gtd.Bucket, i: nat, classes: ClassCounters, clock: int, parse: DateTimeParser)
    returns (read: Result<Item>)
    requires i < |b.keys|
    modifies classes
    ensures read.Ok? ==>
      ImportFrom(s, b, i, old(classes.counts), parse) == After([read.value], ImportFrom(s, b, i + 1, classes.counts, parse))
    ensures read.Err? ==> ImportFrom(s, b, i, old(classes.counts), parse) == Batch([], classes.counts, Raised(read.error))
  {
    var key := b.keys[i];
    KeysIn(b, key);
    var value := b.vals[key];
    var fields := Fields(s, value, parse);
    if fields.Err? {
      return Err(fields.error);
    }
    var item := NewItem(classes, fields.value.0, fields.value.1, clock);
    item := item.(created := KeyText(key));
    var completion := Completion(s, value);
    if completion.Err? {
      return Err(completion.error);
    }
    item := item.(completed := completion.value);
    StepOk(s, b, i, old(classes.counts), parse, item);
    read := Ok(item);
  }

  /** An entry read and completed: its item, then the rest. */
  lemma StepOk(s: Source, b: Gtd.Bucket, i: nat, counts: map<Kind, nat>, parse: DateTimeParser, item: Item)
    requires i < |b.keys| && b.keys[i] in b.vals
    requires Fields(s, b.vals[b.keys[i]], parse).Ok? && Completion(s, b.vals[b.keys[i]]).Ok?
    requires var f := Fields(s, b.vals[b.keys[i]], parse).value;
      item == Item(Lookup(counts, SourceKind(s)) + 1, KeyText(b.keys[i]), Completion(s, b.vals[b.keys[i]]).value, f.0, f.1)
    ensures ImportFrom(s, b, i, counts, parse) == After([item], ImportFrom(s, b, i + 1, Bump(counts, SourceKind(s)), parse))
  {
  }

  lemma AfterAfter(a: seq<Item>, c: seq<Item>, r: Batch)
    ensures After(a, After(c, r)) == After(a + c, r)
  {
    assert a + (c + r.items) == (a + c) + r.items;
  }

  /** The items appended before `r` went on. */
  function After(items: seq<Item>, r: Batch): Batch {
    Batch(items + r.items, r.counts, r.outcome)
  }

  /** import_json into the lists of `d`: each bucket's entries are
      appended to its list, in order, until a bucket is missing or an entry
      cannot be read. */
  method ImportJson(doc: Gtd.Data, classes: ClassCounters, inbox: Inbox, nextActions: NextActionList,
                    calendar: Calendar, waitingFor: ItemList, completedItems: ItemList,
                    clock: int, parse: DateTimeParser)
    returns (outcome: Outcome)
    requires waitingFor != completedItems
    modifies classes, inbox, nextActions, calendar, waitingFor, completedItems
    ensures var r := ImportSources(doc, 0, old(classes.counts), parse);
      && outcome == r.outcome && classes.counts == r.counts
      && inbox.items == old(inbox.items) + BatchAt(r, 0)
      && nextActions.items == old(nextActions.items) + BatchAt(r, 1)
      && calendar.items == old(calendar.items) + BatchAt(r, 2)
      && waitingFor.items == old(waitingFor.items) + BatchAt(r, 3)
      && completedItems.items == old(completedItems.items) + BatchAt(r, 4)
  {
    ghost var r := ImportSources(doc, 0, classes.counts, parse);
    var batch;
    if Gtd.Inbox !in doc {
      return Raised(KeyError);
    }
    batch, outcome := ReadBucket(InboxSource, doc[Gtd.Inbox], classes, clock, parse);
    inbox.items := inbox.items + batch;
    if outcome.Raised? {
      return;
    }
    ghost var r1 := ImportSources(doc, 1, classes.counts, parse);
    assert r == Imported([batch] + r1.batches, r1.counts, r1.outcome);
    outcome := ImportRest(doc, classes, nextActions, calendar, waitingFor, completedItems, clock, parse);
  }

  /** The loops after the inbox's. */
  method ImportRest(doc: Gtd.Data, classes: ClassCounters, nextActions: NextActionList,
                    calendar: Calendar, waitingFor: ItemList, completedItems: ItemList,
                    clock: int, parse: DateTimeParser)
    returns (outcome: Outcome)
    requires waitingFor != completedItems
    modifies classes, nextActions, calendar, waitingFor, completedItems
    ensures var r := ImportSources(doc, 1, old(classes.counts), parse);
      && outcome == r.outcome && classes.counts == r.counts
      && nextActions.items == old(nextActions.items) + BatchAt(r, 0)
      && calendar.items == old(calendar.items) + BatchAt(r, 1)
      && waitingFor.items == old(waitingFor.items) + BatchAt(r, 2)
      && completedItems.items == old(completedItems.items) + BatchAt(r, 3)
  {
    ghost var r := ImportSources(doc, 1, classes.counts, parse);
    var batch;
    if Gtd.Actions !in doc {
      return Raised(KeyError);
    }
    batch, outcome := ReadBucket(ActionsSource, doc[Gtd.Actions], classes, clock, parse);
    nextActions.items := nextActions.items + batch;
    if outcome.Raised? {
      return;
    }
    ghost var r2 := ImportSources(doc, 2, classes.counts, parse);
    assert r == Imported([batch] + r2.batches, r2.counts, r2.outcome);
    outcome := ImportCalendar(doc, classes, calendar, waitingFor, completedItems, clock, parse);
  }

  /** The 'scheduled' loop and those after it. */
  method ImportCalendar(doc: Gtd.Data, classes: ClassCounters, calendar: Calendar, waitingFor: ItemList,
                        completedItems: ItemList, clock: int, parse: DateTimeParser)
    returns (outcome: Outcome)
    requires waitingFor != completedItems
    modifies classes, calendar, waitingFor, completedItems
    ensures var r := ImportSources(doc, 2, old(classes.counts), parse);
      && outcome == r.outcome && classes.counts == r.counts
      && calendar.items == old(calendar.items) + BatchAt(r, 0)
      && waitingFor.items == old(waitingFor.items) + BatchAt(r, 1)
      && completedItems.items == old(completedItems.items) + BatchAt(r, 2)
  {
    ghost var r := ImportSources(doc, 2, classes.counts, parse);
    var batch;
    if Gtd.Scheduled !in doc {
      return Raised(KeyError);
    }
    batch, outcome := ReadBucket(ScheduledSource, doc[Gtd.Scheduled], classes, clock, parse);
    calendar.items := calendar.items + batch;
    if outcome.Raised? {
      return;
    }
    ghost var r3 := ImportSources(doc, 3, classes.counts, parse);
    assert r == Imported([batch] + r3.batches, r3.counts, r3.outcome);
    outcome := ImportLast(doc, classes, waitingFor, completedItems, clock, parse);
  }

  /** The 'waiting' and 'completed' loops. */
  method ImportLast(doc: Gtd.Data, classes: ClassCounters, waitingFor: ItemList, completedItems: ItemList,
                    clock: int, parse: DateTimeParser)
    returns (outcome: Outcome)
    requires waitingFor != completedItems
    modifies classes, waitingFor, completedItems
    ensures var r := ImportSources(doc, 3, old(classes.counts), parse);
      && outcome == r.outcome && classes.counts == r.counts
      && waitingFor.items == old(waitingFor.items) + BatchAt(r, 0)
      && completedItems.items == old(completedItems.items) + BatchAt(r, 1)
  {
    var batch;
    if Gtd.Waiting !in doc {
      return Raised(KeyError);
    }
    batch, outcome := ReadBucket(WaitingSource, doc[Gtd.Waiting], classes, clock, parse);
    waitingFor.items := waitingFor.items + batch;
    if outcome.Raised? {
      return;
    }
    if Gtd.Completed !in doc {
      return Raised(KeyError);
    }
    batch, outcome := ReadBucket(CompletedSource, doc[Gtd.Completed], classes, clock, parse);
    completedItems.items := completedItems.items + batch;
  }
}
