/** pychieve/pygtd.py: the earlier revision of the GTD script.  It keeps the
    document and file of pygtd.py (`PyGtd.State`), and load_data, save_data,
    add_to_inbox, empty, new_action, new_appointment and new_project are
    the same code there; delete_from_inbox(id) is pygtd.py's with the
    container fixed to the inbox.  What differs is the triage: (w) writes
    into 'waiting' without creating it first, so on a document that lacks
    that bucket it raises KeyError; process_inbox does not test for an
    empty inbox; and `main` dispatches on the command-line flags. */
module PychieveGtd {
  import opened Py
  import opened Dicts
  import opened Gtd
  import PyGtd

  // ---------------------------------------------------------------------------
  // Settling a triaged inbox item

  /** What a settled answer does in this revision: (w) indexes
      `data['waiting']`, a KeyError where that bucket is missing, raised
      before anything is written; every other answer, and (w) where the
      bucket exists, files the item as pygtd.py does. */
  function Settle(data: Data, id: Key, a: Answer): (r: Result<Data>)
    requires Sound(data) && Holds(data, Inbox, id) && !Represents(a)
    ensures r.Err? <==> a.Wait? && Waiting !in data
    ensures r.Err? ==> r.error == KeyError
    ensures r.Ok? ==> Sound(r.value)
  {
    if a.Wait? && Waiting !in data then Err(KeyError) else Ok(PyGtd.Apply(data, id, a))
  }

  /** Where it succeeds, settling writes the filed entry into the
      destination, takes the key out of the inbox unless the answer was (p),
      leaves every other bucket alone and creates no bucket: (w) only
      succeeds where 'waiting' exists already. */
  lemma SettleEffect(data: Data, id: Key, a: Answer)
    requires Sound(data) && Holds(data, Inbox, id) && !Represents(a)
    requires Settle(data, id, a).Ok?
    ensures var r := Settle(data, id, a).value;
      && (forall b :: b in r <==> b in data)
      && (PyGtd.Moves(a) || a.Plan? ==>
            r[PyGtd.Destination(a)] == Put(data[PyGtd.Destination(a)], id, PyGtd.Filed(a, data[Inbox].vals[id])))
      && r[Inbox] == (if a.Plan? then data[Inbox] else Del(data[Inbox], id))
      && forall b :: b in data && b != Inbox && b != PyGtd.Destination(a) ==> r[b] == data[b]
  {
    PyGtd.ApplyEffect(data, id, a);
    assert PyGtd.Destination(a) in data by {
      if a.Wait? {
      } else {
        assert Default(PyGtd.Destination(a));
      }
    }
  }

  // ---------------------------------------------------------------------------
  // process_inbox

  /** process_inbox from position `i` of the snapshot `keys` on: each key
      is looked up in the inbox (a KeyError where it is missing), triaged
      and settled; the first exception ends the pass, reporting the input
      as it stood when that item was presented. */
  function Pass(read: PyGtd.Reader, data: Data, keys: seq<Key>, i: nat, lines: seq<string>): (s: Session)
    requires PyGtd.Settles(read) && Sound(data) && i <= |keys|
    ensures Sound(s.data)
    decreases |keys| - i
  {
    if i == |keys| then Session(data, lines, Normal, false)
    else if !Holds(data, Inbox, keys[i]) then Session(data, lines, Raised(KeyError), false)
    else match read(lines)
      case Failed(e) => Session(data, lines, Raised(e), false)
      case Got(a, more) =>
        match Settle(data, keys[i], a)
        case Err(e) => Session(data, lines, Raised(e), false)
        case Ok(d) => PyGtd.Saved(Pass(read, d, keys, i + 1, more))
  }

  /** On a document that has a 'waiting' bucket the two revisions triage
      alike: the pass is pygtd.py's, item for item. */
  lemma {:induction false} PassAgrees(read: PyGtd.Reader, d: Data, keys: seq<Key>, i: nat, lines: seq<string>)
    requires PyGtd.Settles(read) && Sound(d) && i <= |keys| && Waiting in d
    ensures Pass(read, d, keys, i, lines) == PyGtd.InboxPass(read, d, keys, i, lines)
    decreases |keys| - i, 1
  {
    if i < |keys| && Holds(d, Inbox, keys[i]) && read(lines).Got? {
      AgreesStep(read, d, keys, i, lines, read(lines).value, read(lines).rest);
    }
  }

  lemma AgreesStep(read: PyGtd.Reader, d: Data, keys: seq<Key>, i: nat, lines: seq<string>, a: Answer, more: seq<string>)
    requires PyGtd.Settles(read) && Sound(d) && i < |keys| && Waiting in d && Holds(d, Inbox, keys[i])
    requires read(lines) == Got(a, more)
    ensures Pass(read, d, keys, i, lines) == PyGtd.InboxPass(read, d, keys, i, lines)
    decreases |keys| - i, 0
  {
    var r := PyGtd.Apply(d, keys[i], a);
    assert Settle(d, keys[i], a) == Ok(r);
    PyGtd.ApplyEffect(d, keys[i], a);
    assert Waiting in r by {
      if PyGtd.Destination(a) != Waiting {
        assert Waiting in d;
      }
    }
    PyGtd.PassUnfold(read, d, keys, i, lines, a, more);
    PassAgrees(read, r, keys, i + 1, more);
  }

  /** Hence, where 'waiting' exists, a whole pass files the inbox exactly as
      pygtd.py's does: the answers read are applied to the snapshot in
      order, no KeyError is raised, and each settled key stays in the inbox
      exactly when its answer was (p). */
  lemma PassFilesWithWaiting(read: PyGtd.Reader, data: Data, lines: seq<string>)
    requires PyGtd.Settles(read) && Sound(data) && Waiting in data
    ensures var keys := data[Inbox].keys;
      var r := PyGtd.ReadAnswers(read, lines, |keys|);
      var s := Pass(read, data, keys, 0, lines);
      && s.data == PyGtd.FileFrom(data, keys, 0, r.answers)
      && s.rest == r.rest && s.outcome == r.outcome && (s.saved <==> r.answers != [])
      && forall j :: 0 <= j < |r.answers| ==> (Holds(s.data, Inbox, keys[j]) <==> r.answers[j].Plan?)
  {
    PassAgrees(read, data, data[Inbox].keys, 0, lines);
    PyGtd.InboxPassFiles(read, data, lines);
  }

  /** This revision never creates 'waiting': on a document without it, the
      bucket is still missing when the pass ends, however it ends. */
  lemma {:induction false} PassKeepsWaitingMissing(read: PyGtd.Reader, d: Data, keys: seq<Key>, i: nat, lines: seq<string>)
    requires PyGtd.Settles(read) && Sound(d) && i <= |keys| && Waiting !in d
    ensures Waiting !in Pass(read, d, keys, i, lines).data
    decreases |keys| - i, 1
  {
    if i < |keys| && Holds(d, Inbox, keys[i]) && read(lines).Got? {
      MissingStep(read, d, keys, i, lines, read(lines).value, read(lines).rest);
    }
  }

  lemma MissingStep(read: PyGtd.Reader, d: Data, keys: seq<Key>, i: nat, lines: seq<string>, a: Answer, more: seq<string>)
    requires PyGtd.Settles(read) && Sound(d) && i < |keys| && Waiting !in d && Holds(d, Inbox, keys[i])
    requires read(lines) == Got(a, more)
    ensures Waiting !in Pass(read, d, keys, i, lines).data
    decreases |keys| - i, 0
  {
    if !a.Wait? {
      var r := PyGtd.Apply(d, keys[i], a);
      assert Settle(d, keys[i], a) == Ok(r);
      PyGtd.ApplyEffect(d, keys[i], a);
      assert PyGtd.Destination(a) != Waiting;
      PassKeepsWaitingMissing(read, r, keys, i + 1, more);
    }
  }

  /** So on such a document the first (w) answer ends the pass with a
      KeyError: the item answered (w) is still in the inbox. */
  lemma WaitRaises(read: PyGtd.Reader, d: Data, keys: seq<Key>, i: nat, lines: seq<string>, more: seq<string>)
    requires PyGtd.Settles(read) && Sound(d) && i < |keys| && Holds(d, Inbox, keys[i]) && Waiting !in d
    requires read(lines) == Got(Wait, more)
    ensures var s := Pass(read, d, keys, i, lines);
      s == Session(d, lines, Raised(KeyError), false) && Holds(s.data, Inbox, keys[i])
  {
  }

  /** The initial document has no 'waiting' bucket. */
  lemma DefaultLacksWaiting()
    ensures Waiting !in DefaultData()
  {
  }

  // ---------------------------------------------------------------------------
  // Command-line flags

  /** The flags of `main`: the container group, the action group (-l, -e),
      -d and -q. */
  datatype Flags = Flags(
    inbox: bool, next: bool, projects: bool, somedayMaybe: bool, waitingFor: bool, scheduled: bool,
    list: bool, empty: bool, processInbox: bool, quick: bool)

  /** The container flags in the order `main` tests them. */
  function ContainerFlags(f: Flags): seq<bool> {
    [f.inbox, f.next, f.projects, f.somedayMaybe, f.waitingFor, f.scheduled]
  }

  /** The container each flag names, in the same order. */
  const ContainerNames: seq<string> :=
    ["inbox", "next_actions", "projects", "someday_maybe", "waiting_for", "scheduled"]

  /** argparse's mutually exclusive groups: at most one container flag, and
      not both -l and -e. */
  predicate Exclusive(f: Flags) {
    && (forall i, j :: 0 <= i < j < |ContainerFlags(f)| ==> !(ContainerFlags(f)[i] && ContainerFlags(f)[j]))
    && !(f.list && f.empty)
  }

  /** The container `main` selects. */
  function SelectContainer(f: Flags): Option<string> {
    if f.inbox then Some("inbox")
    else if f.next then Some("next_actions")
    else if f.projects then Some("projects")
    else if f.somedayMaybe then Some("someday_maybe")
    else if f.waitingFor then Some("waiting_for")
    else if f.scheduled then Some("scheduled")
    else None
  }

  /** The container selected is the one named by the first container flag
      set, and there is none when no container flag is set. */
  lemma SelectFirst(f: Flags)
    ensures var c := SelectContainer(f);
      && (c.None? <==> forall i :: 0 <= i < |ContainerFlags(f)| ==> !ContainerFlags(f)[i])
      && (c.Some? ==> exists i :: 0 <= i < |ContainerFlags(f)| && ContainerFlags(f)[i]
                        && c.value == ContainerNames[i]
                        && forall j :: 0 <= j < i ==> !ContainerFlags(f)[j])
  {
    var fl := ContainerFlags(f);
    var c := SelectContainer(f);
    if c.Some? {
      var i := if f.inbox then 0 else if f.next then 1 else if f.projects then 2
        else if f.somedayMaybe then 3 else if f.waitingFor then 4 else 5;
      assert fl[i] && c.value == ContainerNames[i];
      assert forall j :: 0 <= j < i ==> !fl[j];
    }
  }

  /** -n selects 'next_actions', which is not one of the document's buckets
      (next actions are kept under 'actions'): confirming `-n -e` is a
      KeyError on a document without such a key. */
  lemma NextActionsNotABucket(data: Data, confirmation: string)
    requires Sound(data) && Other("next_actions") !in data && 'y' in confirmation
    ensures NameOf("next_actions") == Other("next_actions")
    ensures EmptyBucket(data, NameOf("next_actions"), confirmation).0 == EmptyFailed(KeyError)
    ensures Other("next_actions") !in DefaultData()
  {
  }

  /** new_action, new_appointment and new_project take `id=time()`, a
      default evaluated once when the module is defined: two calls that
      rely on it store under the one key, and the later entry replaces the
      earlier one without adding a key. */
  lemma DefaultKeyShared(data: Data, b: Name, stamp: Key, first: Entry, second: Entry)
    requires Sound(data) && b in data
    ensures Store(Store(data, b, stamp, first), b, stamp, second) == Store(data, b, stamp, second)
    ensures Store(Store(data, b, stamp, first), b, stamp, second)[b].keys == Store(data, b, stamp, first)[b].keys
  {
    PutPut(data[b], stamp, first, second);
  }

  // ---------------------------------------------------------------------------
  // main

  /** How a run of `main` ended: the document, the input left, and whether
      it returned or raised. */
  datatype Ending = Ending(data: Data, rest: seq<string>, outcome: Outcome)

  /** The document load_data leaves: the file's when there is one. */
  function Loaded(data: Data, file: Option<Data>): Data {
    if file.Some? then file.value else data
  }

  /** `main` after load_data, on the document `loaded`: a command line the
      exclusive groups refuse ends the script; -q reads one line into the
      inbox; otherwise the text is captured, the inbox processed, and the
      container emptied, as the flags say. */
  function Run(f: Flags, text: string, stamp: Key, loaded: Data, lines: seq<string>, parse: DateParser): (e: Ending)
    requires Sound(loaded)
    ensures Sound(e.data)
  {
    if !Exclusive(f) then Ending(loaded, lines, Raised(SystemExit))
    else if f.quick then
      if lines == [] then Ending(loaded, lines, Raised(EOFError))
      else Ending(Store(loaded, Inbox, stamp, Text(lines[0])), lines[1..], Normal)
    else
      var s := Triaged(f, Captured(f, text, stamp, loaded), lines, parse);
      Finish(f, s.data, s.rest, s.outcome)
  }

  /** The text goes into the inbox when neither a container nor -e is
      given. */
  function Captured(f: Flags, text: string, stamp: Key, loaded: Data): (d: Data)
    requires Sound(loaded)
    ensures Sound(d)
  {
    if SelectContainer(f).None? && !f.empty then Store(loaded, Inbox, stamp, Text(text)) else loaded
  }

  /** -d processes the inbox. */
  function Triaged(f: Flags, d: Data, lines: seq<string>, parse: DateParser): (s: Session)
    requires Sound(d)
    ensures Sound(s.data)
  {
    if f.processInbox then Pass(PyGtd.Triaging(parse), d, d[Inbox].keys, 0, lines)
    else Session(d, lines, Normal, false)
  }

  /** -e with a container empties it after a confirmation, unless processing
      the inbox raised; -e alone only prints a message. */
  function Finish(f: Flags, d: Data, lines: seq<string>, outcome: Outcome): (e: Ending)
    requires Sound(d)
    ensures Sound(e.data)
  {
    var container := SelectContainer(f);
    if outcome.Raised? || !f.empty || container.None? then Ending(d, lines, outcome)
    else if lines == [] then Ending(d, lines, Raised(EOFError))
    else
      var (result, r) := EmptyBucket(d, NameOf(container.value), lines[0]);
      Ending(r, lines[1..], if result.EmptyFailed? then Raised(result.error) else Normal)
  }

  /** With no container and no -e, the text (the arguments, or else the
      clipboard) becomes the last inbox item, and -d then triages it with
      the rest; without -d nothing else happens. */
  lemma RunCaptures(f: Flags, text: string, stamp: Key, loaded: Data, lines: seq<string>, parse: DateParser)
    requires Sound(loaded) && Exclusive(f) && !f.quick && SelectContainer(f).None? && !f.empty
    requires stamp !in loaded[Inbox].vals
    ensures var d := Store(loaded, Inbox, stamp, Text(text));
      && d[Inbox].keys == loaded[Inbox].keys + [stamp]
      && (!f.processInbox ==> Run(f, text, stamp, loaded, lines, parse) == Ending(d, lines, Normal))
      && (f.processInbox ==>
            Run(f, text, stamp, loaded, lines, parse).data == Pass(PyGtd.Triaging(parse), d, d[Inbox].keys, 0, lines).data)
  {
  }

  /** -e without a container, and without -d, neither changes the document
      nor reads input: the text is not captured either. */
  lemma RunEmptyWithoutContainer(f: Flags, text: string, stamp: Key, loaded: Data, lines: seq<string>, parse: DateParser)
    requires Sound(loaded) && Exclusive(f) && !f.quick && f.empty && !f.processInbox
    requires SelectContainer(f).None?
    ensures Run(f, text, stamp, loaded, lines, parse) == Ending(loaded, lines, Normal)
  {
  }

  /** -q ignores every other flag (once the groups admit them) and the
      text: one line read into the inbox. */
  lemma RunQuick(f: Flags, text: string, stamp: Key, loaded: Data, line: string, lines: seq<string>, parse: DateParser)
    requires Sound(loaded) && Exclusive(f) && f.quick
    ensures Run(f, text, stamp, loaded, [line] + lines, parse)
      == Ending(Store(loaded, Inbox, stamp, Text(line)), lines, Normal)
  {
    assert ([line] + lines)[1..] == lines;
  }

  // ---------------------------------------------------------------------------
  // The script's procedures on the shared state

  /** Branches (s) and (r): the inbox entry is copied into 'someday_maybe'
      or 'reference', which must exist, it leaves the inbox, and the
      document is saved once more. */
  method SettleCopy(st: PyGtd.State, id: Key, a: Answer)
    requires st.Valid() && Holds(st.data, Inbox, id) && (a.Defer? || a.File?)
    modifies st
    ensures st.Valid() && Settle(old(st.data), id, a) == Ok(st.data) && st.file == Some(st.data)
  {
    var item := st.data[Inbox].vals[id];
    var dest := if a.Defer? then SomedayMaybe else Reference;
    CopyApplies(st.data, id, a);
    st.data := Store(st.data, dest, id, item);
    assert Sound(st.data);
    var o := st.DeleteFromInbox(id, Inbox);
    st.SaveData();
  }

  lemma CopyApplies(data: Data, id: Key, a: Answer)
    requires Sound(data) && Holds(data, Inbox, id) && (a.Defer? || a.File?)
    ensures var dest := if a.Defer? then SomedayMaybe else Reference;
      && dest in data && PyGtd.Destination(a) == dest
      && Settle(data, id, a) == Ok(Remove(Store(data, dest, id, data[Inbox].vals[id]), Inbox, id))
  {
    assert Default(SomedayMaybe) && Default(Reference);
    PyGtd.ApplyMoves(data, id, a);
  }

  /** Branch (w): `data['waiting'][id] = data['inbox'][id]` without a
      guard, then the item leaves the inbox and the document is saved. */
  method SettleWait(st: PyGtd.State, id: Key) returns (step: Step)
    requires st.Valid() && Holds(st.data, Inbox, id)
    modifies st
    ensures st.Valid()
    ensures Waiting !in old(st.data) ==>
      step == Halted(KeyError) && st.data == old(st.data) && st.file == old(st.file)
    ensures Waiting in old(st.data) ==>
      step == Settled && Settle(old(st.data), id, Wait) == Ok(st.data) && st.file == Some(st.data)
  {
    if Waiting !in st.data {
      return Halted(KeyError);
    }
    var item := st.data[Inbox].vals[id];
    PyGtd.ApplyMoves(st.data, id, Wait);
    st.data := Store(st.data, Waiting, id, item);
    assert Sound(st.data);
    var o := st.DeleteFromInbox(id, Inbox);
    st.SaveData();
    step := Settled;
  }

  /** The branch of process_inbox_item that the menu letter `choice`
      picks, reading the lines after the response. */
  method Respond(st: PyGtd.State, id: Key, choice: Option<char>, more: seq<string>, parse: DateParser)
    returns (step: Step, rest: seq<string>)
    requires st.Valid() && Holds(st.data, Inbox, id)
    modifies st
    ensures st.Valid()
    ensures match ReadBranch(choice, more, parse)
      case Failed(e) => step == Halted(e) && st.data == old(st.data) && st.file == old(st.file)
      case Got(a, after) =>
        && rest == after
        && (if Represents(a) then step == Again && st.data == old(st.data) && st.file == old(st.file)
            else match Settle(old(st.data), id, a)
              case Err(e) => step == Halted(e) && st.data == old(st.data) && st.file == old(st.file)
              case Ok(d) => step == Settled && st.data == d && st.file == Some(st.data))
  {
    ghost var answer := ReadBranch(choice, more, parse);
    if choice == Some('a') {
      assert more != [] ==> answer == Got(Act(more[0]), more[1..]);
      step, rest := st.SettleAction(id, more);
    } else if choice == Some('d') {
      step, rest := st.SettleDone(id, more);
    } else if choice == Some('c') {
      assert more == [] ==> answer == Failed(EOFError);
      step, rest := st.SettleAppointment(id, more, parse);
    } else if choice == Some('w') {
      assert answer == Got(Wait, more);
      step := SettleWait(st, id);
      rest := more;
    } else {
      step, rest := RespondFurther(st, id, choice, more);
    }
  }

  /** The branches of process_inbox_item after (w). */
  method RespondFurther(st: PyGtd.State, id: Key, choice: Option<char>, more: seq<string>)
    returns (step: Step, rest: seq<string>)
    requires st.Valid() && Holds(st.data, Inbox, id)
    modifies st
    ensures st.Valid()
    ensures match ReadFurther(choice, more)
      case Failed(e) => step == Halted(e) && st.data == old(st.data) && st.file == old(st.file)
      case Got(a, after) =>
        && rest == after
        && (if Represents(a) then step == Again && st.data == old(st.data) && st.file == old(st.file)
            else step == Settled && Settle(old(st.data), id, a) == Ok(st.data) && st.file == Some(st.data))
  {
    ghost var answer := ReadFurther(choice, more);
    if choice == Some('p') {
      assert |more| >= 2 ==> answer == Got(Plan(more[0], more[1]), more[2..]);
      step, rest := st.SettleProject(id, more);
    } else if choice == Some('s') {
      assert answer == Got(Defer, more);
      SettleCopy(st, id, Defer);
      step, rest := Settled, more;
    } else if choice == Some('r') {
      assert answer == Got(File, more);
      SettleCopy(st, id, File);
      step, rest := Settled, more;
    } else if choice == Some('t') {
      assert answer == Got(Trash, more);
      st.SettleDiscard(id, Trash);
      step, rest := Settled, more;
    } else {
      assert answer == Got(Invalid, more);
      step, rest := Again, more;
    }
  }

  /** One presentation of inbox item `id`. */
  method PresentItem(st: PyGtd.State, id: Key, lines: seq<string>, parse: DateParser)
    returns (step: Step, rest: seq<string>)
    requires st.Valid() && Holds(st.data, Inbox, id)
    modifies st
    ensures st.Valid()
    ensures match ReadAnswer(lines, parse)
      case Failed(e) => step == Halted(e) && st.data == old(st.data) && st.file == old(st.file)
      case Got(a, more) =>
        && rest == more
        && (if Represents(a) then step == Again && st.data == old(st.data) && st.file == old(st.file)
            else match Settle(old(st.data), id, a)
              case Err(e) => step == Halted(e) && st.data == old(st.data) && st.file == old(st.file)
              case Ok(d) => step == Settled && st.data == d && st.file == Some(st.data))
  {
    if lines == [] {
      return Halted(EOFError), lines;
    }
    var actionable := Lower(lines[0]);
    var choice := Disposition(actionable);
    step, rest := Respond(st, id, choice, lines[1..], parse);
  }

  /** process_inbox_item: present the item until an answer settles it or
      an exception ends the script. */
  method ProcessInboxItem(st: PyGtd.State, id: Key, lines: seq<string>, parse: DateParser)
    returns (rest: seq<string>, outcome: Outcome)
    requires st.Valid() && Holds(st.data, Inbox, id)
    modifies st
    ensures st.Valid()
    ensures match Triage(lines, parse)
      case Failed(e) => outcome == Raised(e) && rest == lines && st.data == old(st.data) && st.file == old(st.file)
      case Got(a, more) =>
        match Settle(old(st.data), id, a)
        case Err(e) => outcome == Raised(e) && rest == lines && st.data == old(st.data) && st.file == old(st.file)
        case Ok(d) => outcome == Normal && rest == more && st.data == d && st.file == Some(st.data)
  {
    rest := lines;
    while true
      invariant st.Valid() && st.data == old(st.data) && st.file == old(st.file)
      invariant Triage(rest, parse) == Triage(lines, parse)
      decreases |rest|
    {
      var step, more := PresentItem(st, id, rest, parse);
      match step
      case Settled => return more, Normal;
      case Halted(e) => return lines, Raised(e);
      case Again => rest := more;
    }
  }

  /** process_inbox: triage every key of the inbox as it stood when the
      pass began, in insertion order. */
  method ProcessInbox(st: PyGtd.State, lines: seq<string>, parse: DateParser) returns (rest: seq<string>, outcome: Outcome)
    requires st.Valid()
    modifies st
    ensures st.Valid()
    ensures var s := Pass(PyGtd.Triaging(parse), old(st.data), old(st.data)[Inbox].keys, 0, lines);
      && st.data == s.data && rest == s.rest && outcome == s.outcome
      && st.file == if s.saved then Some(st.data) else old(st.file)
  {
    var keylist := st.data[Inbox].keys;
    rest := lines;
    ghost var saved := false;
    var i := 0;
    while i < |keylist|
      invariant i <= |keylist| && st.Valid()
      invariant Pass(PyGtd.Triaging(parse), old(st.data), keylist, 0, lines)
        == if saved then PyGtd.Saved(Pass(PyGtd.Triaging(parse), st.data, keylist, i, rest))
           else Pass(PyGtd.Triaging(parse), st.data, keylist, i, rest)
      invariant st.file == if saved then Some(st.data) else old(st.file)
      decreases |keylist| - i
    {
      if !Holds(st.data, Inbox, keylist[i]) {
        return rest, Raised(KeyError);
      }
      var more, o := ProcessInboxItem(st, keylist[i], rest, parse);
      if o.Raised? {
        return rest, o;
      }
      saved := true;
      rest := more;
      i := i + 1;
    }
    outcome := Normal;
  }

  /** main: load the document, then act on the flags; the text is the
      joined arguments or the clipboard, `stamp` the clock reading that
      add_to_inbox takes.  Every change is saved, so the file ends holding
      the document however the script ends. */
  method RunMain(st: PyGtd.State, f: Flags, text: string, stamp: Key, lines: seq<string>, parse: DateParser)
    returns (rest: seq<string>, outcome: Outcome)
    requires st.Valid()
    modifies st
    ensures st.Valid() && st.file == Some(st.data)
    ensures var e := Run(f, text, stamp, Loaded(old(st.data), old(st.file)), lines, parse);
      st.data == e.data && rest == e.rest && outcome == e.outcome
  {
    st.LoadData();
    if !Exclusive(f) {
      return lines, Raised(SystemExit);
    }
    if f.quick {
      if lines == [] {
        return lines, Raised(EOFError);
      }
      st.AddToInbox(stamp, lines[0]);
      return lines[1..], Normal;
    }
    if SelectContainer(f).None? && !f.empty {
      st.AddToInbox(stamp, text);
    }
    rest, outcome := TriageStage(st, f, lines, parse);
    rest, outcome := EmptyStage(st, f, rest, outcome);
  }

  /** `if args.process_inbox: process_inbox()`. */
  method TriageStage(st: PyGtd.State, f: Flags, lines: seq<string>, parse: DateParser)
    returns (rest: seq<string>, outcome: Outcome)
    requires st.Valid() && st.file == Some(st.data)
    modifies st
    ensures st.Valid() && st.file == Some(st.data)
    ensures var s := Triaged(f, old(st.data), lines, parse);
      st.data == s.data && rest == s.rest && outcome == s.outcome
  {
    if f.processInbox {
      ghost var before := st.data;
      rest, outcome := ProcessInbox(st, lines, parse);
      PassUnsaved(PyGtd.Triaging(parse), before, before[Inbox].keys, 0, lines);
    } else {
      rest, outcome := lines, Normal;
    }
  }

  /** `if args.empty: if container: empty(container)`, reached only when
      processing the inbox returned. */
  method EmptyStage(st: PyGtd.State, f: Flags, lines: seq<string>, before: Outcome)
    returns (rest: seq<string>, outcome: Outcome)
    requires st.Valid() && st.file == Some(st.data)
    modifies st
    ensures st.Valid() && st.file == Some(st.data)
    ensures var e := Finish(f, old(st.data), lines, before);
      st.data == e.data && rest == e.rest && outcome == e.outcome
  {
    rest, outcome := lines, before;
    var container := SelectContainer(f);
    if before.Raised? || !f.empty || container.None? {
      return;
    }
    var result;
    result, rest := st.Empty(NameOf(container.value), lines);
    outcome := if result.EmptyFailed? then Raised(result.error) else Normal;
  }

  /** A pass that wrote nothing changed nothing. */
  lemma PassUnsaved(read: PyGtd.Reader, d: Data, keys: seq<Key>, i: nat, lines: seq<string>)
    requires PyGtd.Settles(read) && Sound(d) && i <= |keys|
    ensures !Pass(read, d, keys, i, lines).saved ==> Pass(read, d, keys, i, lines).data == d
  {
  }
}
