/** The bucket store shared by both revisions of the GTD script
    (pygtd.py and pychieve/pygtd.py): the JSON document of buckets, the
    shapes of the entries the scripts write into it, and the operator's
    replies when an inbox item is presented for triage.

    Input: every call of `input()` takes the next line of standard input.
    Standard input is modelled as the sequence of lines still to be read;
    running out of lines is the EOFError that `input()` raises. */
module Gtd {
  import opened Py
  import opened Dicts

  /** A bucket key: the time stamp the item was captured at, as the JSON
      object key under which it is stored. */
  type Key = string

  /** The values the scripts store under a key. */
  datatype Entry =
    | Text(text: string)
      // inbox, actions, someday_maybe, waiting, reference: a bare string
    | Appointment(date: string, text: string)
      // scheduled: {'date': ..., 'text': ...}
    | Project(shortName: string, text: string, nextActions: Option<seq<Key>>)
      // projects: {'short_name': ..., 'text': ...[, 'next_actions': [...]]};
      // None when the 'next_actions' field is absent
    | Done(completionDate: string, item: Entry)
      // completed: {'completion_date': ..., 'text': <the entry completed>}

  /** The top-level keys of the document: the buckets the scripts name, and
      any other key a loaded file may hold. */
  datatype Name =
    | Inbox | Actions | Projects | SomedayMaybe | WaitingFor | Scheduled | Reference
    | Waiting | Completed | Other(text: string)

  /** The JSON key of a bucket. */
  function NameText(n: Name): string {
    match n
    case Inbox => "inbox"
    case Actions => "actions"
    case Projects => "projects"
    case SomedayMaybe => "someday_maybe"
    case WaitingFor => "waiting_for"
    case Scheduled => "scheduled"
    case Reference => "reference"
    case Waiting => "waiting"
    case Completed => "completed"
    case Other(text) => text
  }

  /** The bucket a JSON key denotes. */
  function NameOf(s: string): (n: Name)
    ensures NameText(n) == s
  {
    if s == "inbox" then Inbox
    else if s == "actions" then Actions
    else if s == "projects" then Projects
    else if s == "someday_maybe" then SomedayMaybe
    else if s == "waiting_for" then WaitingFor
    else if s == "scheduled" then Scheduled
    else if s == "reference" then Reference
    else if s == "waiting" then Waiting
    else if s == "completed" then Completed
    else Other(s)
  }

  /** A name is written the one way `NameOf` reads it back: `Other` holds
      only keys that are not the named buckets'. */
  predicate Canonical(n: Name) {
    n.Other? ==> NameOf(n.text) == n
  }

  /** Distinct bucket names have distinct JSON keys, so the document keeps
      one bucket per key. */
  lemma NameRoundTrip(n: Name)
    requires Canonical(n)
    ensures NameOf(NameText(n)) == n
  {
  }

  /** A bucket: a JSON object, so a dict whose keys are listed once each. */
  type Bucket = d: Dict<Entry> | d.Valid() witness Dict([], map[])

  /** The JSON document: bucket name to bucket. */
  type Data = map<Name, Bucket>

  /** The default buckets exist: the invariant of every document the
      scripts themselves write. */
  ghost predicate Sound(data: Data) {
    forall b :: Default(b) ==> b in data
  }

  /** The seven buckets of the initial document. */
  predicate Default(b: Name) {
    b.Inbox? || b.Actions? || b.Projects? || b.SomedayMaybe? || b.WaitingFor? || b.Scheduled? || b.Reference?
  }

  /** The initial value of the module-level `data`: seven empty buckets. */
  function DefaultData(): (d: Data)
    ensures Sound(d)
    ensures forall b :: b in d <==> b in {Inbox, Actions, Projects, SomedayMaybe, WaitingFor, Scheduled, Reference}
    ensures forall b :: b in d ==> d[b] == Empty()
  {
    map[Inbox := Empty(), Actions := Empty(), Projects := Empty(), SomedayMaybe := Empty(),
        WaitingFor := Empty(), Scheduled := Empty(), Reference := Empty()]
  }

  // ---------------------------------------------------------------------------
  // Writing and deleting single keys

  /** `data[bucket][key] = e` for an existing bucket. */
  function Store(data: Data, bucket: Name, key: Key, e: Entry): (r: Data)
    requires Sound(data) && bucket in data
    ensures Sound(r)
  {
    data[bucket := Put(data[bucket], key, e)]
  }

  /** A bucket, or `{}` where it does not exist yet. */
  function BucketOr(data: Data, b: Name): (r: Bucket)
    ensures b in data ==> r == data[b]
    ensures b !in data ==> r == Empty()
  {
    if b in data then data[b] else Empty()
  }

  /** `data[bucket][key] = e`, first creating the bucket when it is missing
      (the `except KeyError: data[bucket] = {}` pattern). */
  function StoreCreating(data: Data, bucket: Name, key: Key, e: Entry): (r: Data)
    requires Sound(data)
    ensures Sound(r) && bucket in r
  {
    data[bucket := Put(BucketOr(data, bucket), key, e)]
  }

  /** Where the bucket exists, creating it first changes nothing. */
  lemma StoreExisting(data: Data, bucket: Name, key: Key, e: Entry)
    requires Sound(data) && bucket in data
    ensures StoreCreating(data, bucket, key, e) == Store(data, bucket, key, e)
  {
    assert BucketOr(data, bucket) == data[bucket];
  }

  /** `del data[bucket][key]`. */
  function Remove(data: Data, bucket: Name, key: Key): (r: Data)
    requires Sound(data) && bucket in data && key in data[bucket].vals
    ensures Sound(r)
  {
    data[bucket := Del(data[bucket], key)]
  }

  /** Whether `key` is stored in `bucket`. */
  predicate Holds(data: Data, bucket: Name, key: Key) {
    bucket in data && key in data[bucket].vals
  }

  /** The keys a bucket holds are the keys it lists. */
  lemma HoldsListed(data: Data, bucket: Name)
    requires bucket in data
    ensures forall k :: Holds(data, bucket, k) <==> k in data[bucket].keys
  {
    forall k ensures Holds(data, bucket, k) <==> k in data[bucket].keys {
      KeysIn(data[bucket], k);
    }
  }

  /** empty(container) with the confirmation typed at its prompt: only an
      answer containing a lower-case y erases, and only a non-empty bucket;
      a missing bucket is a KeyError.  Both revisions share this code. */
  datatype Emptying = Cleared | AlreadyEmpty | Aborted | EmptyFailed(error: Error)

  function EmptyBucket(data: Data, container: Name, confirmation: string): (r: (Emptying, Data))
    requires Sound(data)
    ensures Sound(r.1)
    ensures r.0 == Cleared <==> 'y' in confirmation && container in data && data[container].keys != []
    ensures r.0 == Cleared ==> r.1 == data[container := Empty()]
    ensures r.0 != Cleared ==> r.1 == data
    ensures r.0 == Aborted <==> 'y' !in confirmation
    ensures r.0 == EmptyFailed(KeyError) <==> 'y' in confirmation && container !in data
  {
    if 'y' !in confirmation then (Aborted, data)
    else if container !in data then (EmptyFailed(KeyError), data)
    else if data[container].keys != [] then (Cleared, data[container := Empty()])
    else (AlreadyEmpty, data)
  }

  /** What one presentation of an inbox item led to. */
  datatype Step = Settled | Again | Halted(error: Error)

  /** The state a run of reading and updating ended in: the document, the
      input left, how it ended, and whether it wrote the file. */
  datatype Session = Session(data: Data, rest: seq<string>, outcome: Outcome, saved: bool)

  // ---------------------------------------------------------------------------
  // The triage menu

  /** The menu letters in the order the dispatch tests them:
      (a) next action, (d) do it now, (c) calendar, (w) waiting for,
      (p) project, (s) someday/maybe, (r) reference, (t) trash. */
  const Letters: string := "adcwpsrt"

  /** The disposition a (lower-cased) response selects: the first menu letter,
      in menu order, that occurs anywhere in the response. */
  function Disposition(response: string): Option<char> {
    FirstOccurring(Letters, 0, response)
  }

  function FirstOccurring(letters: string, from: nat, response: string): Option<char>
    requires from <= |letters|
    decreases |letters| - from
  {
    if from == |letters| then None
    else if letters[from] in response then Some(letters[from])
    else FirstOccurring(letters, from + 1, response)
  }

  /** No menu letter in the response: no disposition; otherwise the letter
      chosen occurs in the response and no earlier menu letter does. */
  lemma {:induction false} FirstOccurringSpec(letters: string, from: nat, response: string)
    requires from <= |letters|
    ensures var r := FirstOccurring(letters, from, response);
      && (r.None? <==> forall i :: from <= i < |letters| ==> letters[i] !in response)
      && (r.Some? ==> exists i :: from <= i < |letters| && letters[i] == r.value
                        && r.value in response
                        && forall j :: from <= j < i ==> letters[j] !in response)
    decreases |letters| - from
  {
    if from < |letters| && letters[from] !in response {
      FirstOccurringSpec(letters, from + 1, response);
      var r := FirstOccurring(letters, from, response);
      if r.Some? {
        var i :| from + 1 <= i < |letters| && letters[i] == r.value
                 && r.value in response
                 && forall j :: from + 1 <= j < i ==> letters[j] !in response;
        assert forall j :: from <= j < i ==> letters[j] !in response;
      }
    }
  }

  lemma DispositionSpec(response: string)
    ensures var r := Disposition(response);
      && (r.None? <==> forall i :: 0 <= i < |Letters| ==> Letters[i] !in response)
      && (r.Some? ==> exists i :: 0 <= i < |Letters| && Letters[i] == r.value
                        && r.value in response
                        && forall j :: 0 <= j < i ==> Letters[j] !in response)
  {
    FirstOccurringSpec(Letters, 0, response);
  }

  // ---------------------------------------------------------------------------
  // Reading the operator's reply to one presentation of an inbox item

  /** What one presentation of an inbox item reads from standard input:
      the menu response and whatever the chosen branch then prompts for. */
  datatype Answer =
    | Act(text: string)                      // (a), then the next action
    | DidIt                                  // (d), then "Done?" answered with a y
    | NotDone                                // (d), then any other answer
    | Schedule(text: string, when: string)   // (c), then text and a confirmed date
    | Wait                                   // (w)
    | Plan(text: string, shortName: string)  // (p), then outcome and short name
    | Defer                                  // (s)
    | File                                   // (r)
    | Trash                                  // (t)
    | Invalid                                // no menu letter

  /** The answers after which the same item is presented again. */
  predicate Represents(a: Answer) { a.NotDone? || a.Invalid? }

  /** The outcome of reading from standard input: a value and the lines left
      unread, or the exception that stopped the reading. */
  datatype Read<T> = Got(value: T, rest: seq<string>) | Failed(error: Error)

  /** `r` is what remains of `lines` after reading at least one line. */
  predicate Consumed(lines: seq<string>, rest: seq<string>) {
    |rest| < |lines| && rest == lines[|lines| - |rest|..]
  }

  /** dateutil's `parse` followed by `str()`: the normalised date string, or
      None where the parser raises ValueError. */
  type DateParser = string -> Option<string>

  /** The date loop of new_appointment: read a date (parsing it at once),
      then an "Ok?" answer, until an answer contains a y. */
  function ConfirmedDate(lines: seq<string>, parse: DateParser): (r: Read<string>)
    ensures r.Got? ==> Consumed(lines, r.rest)
    decreases |lines|
  {
    if lines == [] then Failed(EOFError)
    else match parse(lines[0])
      case None => Failed(ValueError)
      case Some(when) =>
        if |lines| < 2 then Failed(EOFError)
        else if 'y' in Lower(lines[1]) then Got(when, lines[2..])
        else
          var r := ConfirmedDate(lines[2..], parse);
          assert r.Got? ==> lines[2..][|lines[2..]| - |r.rest|..] == lines[|lines| - |r.rest|..];
          r
  }

  /** `rest` is what remains of `lines` after reading none or more lines. */
  predicate Suffix(lines: seq<string>, rest: seq<string>) {
    |rest| <= |lines| && rest == lines[|lines| - |rest|..]
  }

  /** What the branch picked by the menu letter `choice` reads after the
      response itself. */
  function ReadBranch(choice: Option<char>, more: seq<string>, parse: DateParser): (r: Read<Answer>)
    ensures r.Got? ==> Suffix(more, r.rest)
  {
    if choice == Some('a') then
      if more == [] then Failed(EOFError) else Got(Act(more[0]), more[1..])
    else if choice == Some('d') then
      if |more| < 2 then Failed(EOFError)
      else Got(if 'y' in Lower(more[1]) then DidIt else NotDone, more[2..])
    else if choice == Some('c') then
      if more == [] then Failed(EOFError)
      else match ConfirmedDate(more[1..], parse)
        case Failed(e) => Failed(e)
        case Got(when, rest) =>
          assert more[1..][|more[1..]| - |rest|..] == more[|more| - |rest|..];
          Got(Schedule(more[0], when), rest)
    else if choice == Some('w') then Got(Wait, more)
    else ReadFurther(choice, more)
  }

  /** The branches after (w), which read nothing or two lines. */
  function ReadFurther(choice: Option<char>, more: seq<string>): (r: Read<Answer>)
    ensures r.Got? ==> Suffix(more, r.rest)
  {
    if choice == Some('p') then
      if |more| < 2 then Failed(EOFError) else Got(Plan(more[0], more[1]), more[2..])
    else if choice == Some('s') then Got(Defer, more)
    else if choice == Some('r') then Got(File, more)
    else if choice == Some('t') then Got(Trash, more)
    else Got(Invalid, more)
  }

  /** Everything one presentation reads: the response, lower-cased, picks
      the branch, which then reads the lines it prompts for. */
  function ReadAnswer(lines: seq<string>, parse: DateParser): (r: Read<Answer>)
    ensures r.Got? ==> Consumed(lines, r.rest)
  {
    if lines == [] then Failed(EOFError)
    else
      var r := ReadBranch(Disposition(Lower(lines[0])), lines[1..], parse);
      assert r.Got? ==> lines[1..][|lines[1..]| - |r.rest|..] == lines[|lines| - |r.rest|..];
      r
  }

  /** process_inbox_item: present the item until an answer settles it.  An
      answer with no menu letter, or a (d) not confirmed as done, presents
      the same item again; every presentation reads at least one line, so
      the retries end when input does. */
  function Triage(lines: seq<string>, parse: DateParser): (r: Read<Answer>)
    ensures r.Got? ==> !Represents(r.value) && Consumed(lines, r.rest)
    decreases |lines|
  {
    match ReadAnswer(lines, parse)
    case Failed(e) => Failed(e)
    case Got(a, rest) =>
      if Represents(a) then
        var r := Triage(rest, parse);
        assert r.Got? ==> rest[|rest| - |r.rest|..] == lines[|lines| - |r.rest|..];
        r
      else Got(a, rest)
  }

  /** A response without any menu letter presents the same item again and
      consumes only that response. */
  lemma InvalidRepresents(response: string, lines: seq<string>, parse: DateParser)
    requires forall i :: 0 <= i < |Letters| ==> Letters[i] !in Lower(response)
    ensures Triage([response] + lines, parse) == Triage(lines, parse)
  {
    var all := [response] + lines;
    assert all[0] == response && all[1..] == lines;
    DispositionSpec(Lower(response));
    assert Disposition(Lower(response)) == None;
    assert ReadAnswer(all, parse) == Got(Invalid, lines);
  }

  /** A (d) whose "Done?" gets no y presents the same item again. */
  lemma NotDoneRepresents(response: string, anyKey: string, done: string, lines: seq<string>, parse: DateParser)
    requires Disposition(Lower(response)) == Some('d')
    requires 'y' !in Lower(done)
    ensures Triage([response, anyKey, done] + lines, parse) == Triage(lines, parse)
  {
    assert ([response, anyKey, done] + lines)[1..][2..] == lines;
  }

  /** A response with several menu letters takes the earliest in menu order,
      wherever the letters stand: "ta" files a next action, it does not
      trash the item, and "sw" waits rather than defers. */
  lemma MenuOrderWins()
    ensures Disposition("ta") == Some('a')
    ensures Disposition("sw") == Some('w')
  {
    assert FirstOccurring(Letters, 0, "ta") == Some('a') by {
      assert Letters[0] == 'a' && "ta"[1] == 'a';
    }
    assert FirstOccurring(Letters, 3, "sw") == Some('w') by {
      assert Letters[3] == 'w' && "sw"[1] == 'w';
    }
    assert FirstOccurring(Letters, 0, "sw") == FirstOccurring(Letters, 3, "sw") by {
      assert Letters[0] == 'a' && Letters[1] == 'd' && Letters[2] == 'c';
      assert 'a' !in "sw" && 'd' !in "sw" && 'c' !in "sw";
    }
  }
}
