/** pygtd.py: the GTD script.  The module-level `data` document and the
    JSON file it is saved to are the fields of `State`; every command is a
    method that reads its replies from the lines of standard input it is
    given and returns the lines it left unread.  What each command does to
    the document is stated by a pure function of the old document, and the
    properties of the script are lemmas about those functions. */
module PyGtd {
  import opened Py
  import opened Dicts
  import opened Gtd

  // ---------------------------------------------------------------------------
  // Filing a triaged inbox item

  /** The bucket a settled answer writes into; Inbox for the answers that
      only discard the item. */
  function Destination(a: Answer): Name {
    match a
    case Act(_) => Actions
    case Schedule(_, _) => Scheduled
    case Wait => Waiting
    case Plan(_, _) => Projects
    case Defer => SomedayMaybe
    case File => Reference
    case _ => Inbox
  }

  /** The answers that move the item out of the inbox into another bucket. */
  predicate Moves(a: Answer) {
    a.Act? || a.Schedule? || a.Wait? || a.Defer? || a.File?
  }

  /** The entry written into the destination: the typed next action, the
      appointment, the new project, or else the inbox entry itself. */
  function Filed(a: Answer, item: Entry): Entry {
    match a
    case Act(text) => Text(text)
    case Schedule(text, when) => Appointment(when, text)
    case Plan(text, shortName) => Project(shortName, text, None)
    case _ => item
  }

  /** `data[dest][id] = e` (creating `dest` when missing), then
      `del data['inbox'][id]`. */
  function Refile(data: Data, id: Key, dest: Name, e: Entry): (r: Data)
    requires Sound(data) && Holds(data, Inbox, id) && dest != Inbox
    ensures Sound(r) && dest in r
  {
    Remove(StoreCreating(data, dest, id, e), Inbox, id)
  }

  /** What a settled answer does to the document: the filed entry is
      written into the destination under the same key (creating 'waiting'
      or 'reference' when missing), and the key leaves the inbox unless the
      answer was (p).  `ApplyEffect` states it bucket by bucket. */
  function Apply(data: Data, id: Key, a: Answer): (r: Data)
    requires Sound(data) && Holds(data, Inbox, id) && !Represents(a)
    ensures Sound(r)
  {
    var item := data[Inbox].vals[id];
    if a.Plan? then Store(data, Projects, id, Filed(a, item))
    else if Moves(a) then Refile(data, id, Destination(a), Filed(a, item))
    else Remove(data, Inbox, id)
  }

  /** An answer that moves the item is a write into its destination
      followed by a delete from the inbox. */
  lemma ApplyMoves(data: Data, id: Key, a: Answer)
    requires Sound(data) && Holds(data, Inbox, id) && Moves(a)
    ensures var e := Filed(a, data[Inbox].vals[id]);
      && Apply(data, id, a) == Remove(StoreCreating(data, Destination(a), id, e), Inbox, id)
      && (Destination(a) in data ==> Apply(data, id, a) == Remove(Store(data, Destination(a), id, e), Inbox, id))
  {
    if Destination(a) in data {
      StoreExisting(data, Destination(a), id, Filed(a, data[Inbox].vals[id]));
    }
  }

  /** A settled answer re-files the item under the same key: (a), (c), (w),
      (s) and (r) write it into their bucket and take it out of the inbox,
      (w) and (r) creating their bucket when it is missing, and (w) writing
      'waiting', not 'waiting_for'; (d) confirmed and (t) only take it out;
      (p) records a project under the key but leaves the item in the inbox.
      No other bucket changes. */
  lemma ApplyEffect(data: Data, id: Key, a: Answer)
    requires Sound(data) && Holds(data, Inbox, id) && !Represents(a)
    ensures var r := Apply(data, id, a);
      && Destination(a) in r && (forall b :: b != Destination(a) ==> (b in r <==> b in data))
      && (Moves(a) || a.Plan? ==>
            r[Destination(a)] == Put(BucketOr(data, Destination(a)), id, Filed(a, data[Inbox].vals[id])))
      && r[Inbox] == (if a.Plan? then data[Inbox] else Del(data[Inbox], id))
      && forall b :: b in data && b != Inbox && b != Destination(a) ==> r[b] == data[b]
  {
    if a.Plan? {
      PlanEffect(data, id, a);
    } else if Moves(a) {
      MoveEffect(data, id, a);
    } else {
      DropEffect(data, id, a);
    }
  }

  lemma PlanEffect(data: Data, id: Key, a: Answer)
    requires Sound(data) && Holds(data, Inbox, id) && a.Plan?
    ensures var r := Apply(data, id, a);
      && Projects in r && (forall b :: b in r <==> b in data)
      && r[Projects] == Put(data[Projects], id, Filed(a, data[Inbox].vals[id]))
      && r[Inbox] == data[Inbox]
      && forall b :: b in data && b != Inbox && b != Projects ==> r[b] == data[b]
  {
  }

  lemma MoveEffect(data: Data, id: Key, a: Answer)
    requires Sound(data) && Holds(data, Inbox, id) && Moves(a)
    ensures var r := Apply(data, id, a);
      && Destination(a) in r && (forall b :: b != Destination(a) ==> (b in r <==> b in data))
      && r[Destination(a)] == Put(BucketOr(data, Destination(a)), id, Filed(a, data[Inbox].vals[id]))
      && r[Inbox] == Del(data[Inbox], id)
      && forall b :: b in data && b != Inbox && b != Destination(a) ==> r[b] == data[b]
  {
  }

  lemma DropEffect(data: Data, id: Key, a: Answer)
    requires Sound(data) && Holds(data, Inbox, id) && !Represents(a) && !Moves(a) && !a.Plan?
    ensures var r := Apply(data, id, a);
      && Destination(a) == Inbox && (forall b :: b in r <==> b in data)
      && r[Inbox] == Del(data[Inbox], id)
      && forall b :: b in data && b != Inbox ==> r[b] == data[b]
  {
  }

  /** The triaged key stays in the inbox only after (p), and is held by
      the destination of every answer that has one. */
  lemma ApplyHolds(data: Data, id: Key, a: Answer)
    requires Sound(data) && Holds(data, Inbox, id) && !Represents(a)
    ensures Holds(Apply(data, id, a), Inbox, id) <==> a.Plan?
    ensures Moves(a) || a.Plan? ==> Holds(Apply(data, id, a), Destination(a), id)
  {
    ApplyEffect(data, id, a);
  }

  /** Keys other than the one triaged keep their inbox membership, and
      every bucket other than the inbox keeps holding them. */
  lemma ApplyKeeps(data: Data, id: Key, a: Answer)
    requires Sound(data) && Holds(data, Inbox, id) && !Represents(a)
    ensures forall k :: k != id ==> (Holds(Apply(data, id, a), Inbox, k) <==> Holds(data, Inbox, k))
    ensures forall b, k :: b != Inbox && k != id && Holds(data, b, k) ==> Holds(Apply(data, id, a), b, k)
  {
    ApplyEffect(data, id, a);
    var r := Apply(data, id, a);
    forall b, k | b != Inbox && k != id && Holds(data, b, k) ensures Holds(r, b, k) {
      if b != Destination(a) {
        assert r[b] == data[b];
      }
    }
  }

  /** Whatever the answer, the key is afterwards stored in exactly the
      buckets the answer names: its destination, plus the inbox for (p). */
  lemma FiledOnce(data: Data, id: Key, a: Answer)
    requires Sound(data) && Holds(data, Inbox, id) && !Represents(a)
    requires forall b :: b in data && b != Inbox ==> !Holds(data, b, id)
    ensures forall b :: Holds(Apply(data, id, a), b, id) <==>
      (Moves(a) && b == Destination(a)) || (a.Plan? && (b == Projects || b == Inbox))
  {
    ApplyEffect(data, id, a);
    var r := Apply(data, id, a);
    forall b ensures Holds(r, b, id) <==>
      (Moves(a) && b == Destination(a)) || (a.Plan? && (b == Projects || b == Inbox))
    {
      if b == Inbox || b == Destination(a) {
      } else if b in data {
        assert r[b] == data[b];
      }
    }
  }

  /** The document after settling the keys from position `i` on with the
      answers, one after another; it stops at a key no longer in the inbox,
      where process_inbox raises KeyError. */
  function FileFrom(data: Data, keys: seq<Key>, i: nat, answers: seq<Answer>): (r: Data)
    requires Sound(data) && i + |answers| <= |keys|
    requires forall j :: 0 <= j < |answers| ==> !Represents(answers[j])
    ensures Sound(r)
    decreases |answers|
  {
    if answers == [] || !Holds(data, Inbox, keys[i]) then data
    else FileFrom(Apply(data, keys[i], answers[0]), keys, i + 1, answers[1..])
  }

  /** Every key from position `i` on is in the inbox. */
  ghost predicate Present(data: Data, keys: seq<Key>, i: nat) {
    forall j :: i <= j < |keys| ==> Holds(data, Inbox, keys[j])
  }

  /** Settling one key never takes another out of the inbox. */
  lemma StillPresent(d: Data, keys: seq<Key>, i: nat, a: Answer)
    requires Sound(d) && Distinct(keys) && i < |keys| && !Represents(a)
    requires Present(d, keys, i)
    ensures Present(Apply(d, keys[i], a), keys, i + 1)
  {
    DistinctIndices(keys);
    ApplyKeeps(d, keys[i], a);
  }

  /** A key that is not settled keeps its inbox membership, and every
      bucket other than the inbox keeps holding it. */
  lemma {:induction false} FileFromKeeps(d: Data, keys: seq<Key>, i: nat, answers: seq<Answer>, k: Key)
    requires Sound(d) && i + |answers| <= |keys|
    requires forall j :: 0 <= j < |answers| ==> !Represents(answers[j])
    requires forall j :: i <= j < i + |answers| ==> keys[j] != k
    ensures var r := FileFrom(d, keys, i, answers);
      && (Holds(r, Inbox, k) <==> Holds(d, Inbox, k))
      && forall b :: b != Inbox && Holds(d, b, k) ==> Holds(r, b, k)
    decreases |answers|, 1
  {
    if answers != [] && Holds(d, Inbox, keys[i]) {
      KeepsStep(d, keys, i, answers, k);
    }
  }

  lemma KeepsStep(d: Data, keys: seq<Key>, i: nat, answers: seq<Answer>, k: Key)
    requires Sound(d) && i + |answers| <= |keys| && answers != [] && Holds(d, Inbox, keys[i])
    requires forall j :: 0 <= j < |answers| ==> !Represents(answers[j])
    requires forall j :: i <= j < i + |answers| ==> keys[j] != k
    ensures var r := FileFrom(d, keys, i, answers);
      && (Holds(r, Inbox, k) <==> Holds(d, Inbox, k))
      && forall b :: b != Inbox && Holds(d, b, k) ==> Holds(r, b, k)
    decreases |answers|, 0
  {
    FileFromStep(d, keys, i, answers);
    ApplyKeeps(d, keys[i], answers[0]);
    FileFromKeeps(Apply(d, keys[i], answers[0]), keys, i + 1, answers[1..], k);
  }

  /** Settling the first key, then the rest. */
  lemma FileFromCons(d: Data, keys: seq<Key>, i: nat, a: Answer, later: seq<Answer>)
    requires Sound(d) && i + 1 + |later| <= |keys| && Holds(d, Inbox, keys[i]) && !Represents(a)
    requires forall j :: 0 <= j < |later| ==> !Represents(later[j])
    ensures forall j :: 0 <= j < |[a] + later| ==> !Represents(([a] + later)[j])
    ensures FileFrom(d, keys, i, [a] + later) == FileFrom(Apply(d, keys[i], a), keys, i + 1, later)
  {
    assert ([a] + later)[1..] == later;
  }

  lemma FileFromStep(d: Data, keys: seq<Key>, i: nat, answers: seq<Answer>)
    requires Sound(d) && i + |answers| <= |keys| && answers != [] && Holds(d, Inbox, keys[i])
    requires forall j :: 0 <= j < |answers| ==> !Represents(answers[j])
    ensures FileFrom(d, keys, i, answers) == FileFrom(Apply(d, keys[i], answers[0]), keys, i + 1, answers[1..])
  {
  }

  /** Settling distinct keys that are all in the inbox: the key at `j`
      stays in the inbox exactly when its answer was (p), and a moved item
      is held by its destination. */
  lemma {:induction false} FileFromFiles(d: Data, keys: seq<Key>, i: nat, answers: seq<Answer>)
    requires Sound(d) && Distinct(keys) && i + |answers| <= |keys| && Present(d, keys, i)
    requires forall j :: 0 <= j < |answers| ==> !Represents(answers[j])
    ensures var r := FileFrom(d, keys, i, answers);
      forall j :: i <= j < i + |answers| ==>
        && (Holds(r, Inbox, keys[j]) <==> answers[j - i].Plan?)
        && (Moves(answers[j - i]) || answers[j - i].Plan? ==> Holds(r, Destination(answers[j - i]), keys[j]))
    decreases |answers|, 1
  {
    if answers != [] {
      FilesStep(d, keys, i, answers);
    }
  }

  lemma FilesStep(d: Data, keys: seq<Key>, i: nat, answers: seq<Answer>)
    requires Sound(d) && Distinct(keys) && i + |answers| <= |keys| && Present(d, keys, i)
    requires answers != [] && forall j :: 0 <= j < |answers| ==> !Represents(answers[j])
    ensures var r := FileFrom(d, keys, i, answers);
      forall j :: i <= j < i + |answers| ==>
        && (Holds(r, Inbox, keys[j]) <==> answers[j - i].Plan?)
        && (Moves(answers[j - i]) || answers[j - i].Plan? ==> Holds(r, Destination(answers[j - i]), keys[j]))
    decreases |answers|, 0
  {
    FileFromStep(d, keys, i, answers);
    StillPresent(d, keys, i, answers[0]);
    FileFromFiles(Apply(d, keys[i], answers[0]), keys, i + 1, answers[1..]);
    DistinctIndices(keys);
    FileFromKeeps(Apply(d, keys[i], answers[0]), keys, i + 1, answers[1..], keys[i]);
    ApplyHolds(d, keys[i], answers[0]);
  }

  /** How the answer for one inbox item is read from the input. */
  type Reader = seq<string> -> Read<Answer>

  /** Every answer the reader returns settles its item. */
  ghost predicate Settles(read: Reader) {
    forall lines :: read(lines).Got? ==> !Represents(read(lines).value)
  }

  /** process_inbox_item's reading, for a given date parser. */
  function Triaging(parse: DateParser): (read: Reader)
    ensures Settles(read)
  {
    lines => Triage(lines, parse)
  }

  /** The answers of one process_inbox pass: the items are triaged one
      after another, each reading its answer from where the last one
      stopped, and the first exception ends the pass. */
  datatype Replies = Replies(answers: seq<Answer>, rest: seq<string>, outcome: Outcome)

  function ReadAnswers(read: Reader, lines: seq<string>, n: nat): (r: Replies)
    requires Settles(read)
    ensures |r.answers| <= n && (r.outcome.Normal? ==> |r.answers| == n)
    ensures forall i :: 0 <= i < |r.answers| ==> !Represents(r.answers[i])
    decreases n
  {
    if n == 0 then Replies([], lines, Normal)
    else match read(lines)
      case Failed(e) => Replies([], lines, Raised(e))
      case Got(a, more) =>
        var r := ReadAnswers(read, more, n - 1);
        Replies([a] + r.answers, r.rest, r.outcome)
  }

  /** process_inbox from position `i` of the snapshot `keys` on: each key
      is looked up in the inbox (a KeyError where it is missing) and
      triaged; the first exception ends the pass. */
  function InboxPass(read: Reader, data: Data, keys: seq<Key>, i: nat, lines: seq<string>): (s: Session)
    requires Settles(read) && Sound(data) && i <= |keys|
    ensures Sound(s.data)
    decreases |keys| - i
  {
    if i == |keys| then Session(data, lines, Normal, false)
    else if !Holds(data, Inbox, keys[i]) then Session(data, lines, Raised(KeyError), false)
    else match read(lines)
      case Failed(e) => Session(data, lines, Raised(e), false)
      case Got(a, more) => Saved(InboxPass(read, Apply(data, keys[i], a), keys, i + 1, more))
  }

  /** One item of the pass: a key still in the inbox, triaged to `a`. */
  lemma PassUnfold(read: Reader, d: Data, keys: seq<Key>, i: nat, lines: seq<string>, a: Answer, more: seq<string>)
    requires Settles(read) && Sound(d) && i < |keys| && Holds(d, Inbox, keys[i])
    requires read(lines) == Got(a, more)
    ensures InboxPass(read, d, keys, i, lines) == Saved(InboxPass(read, Apply(d, keys[i], a), keys, i + 1, more))
  {
  }

  /** One answer read, the rest read after it. */
  lemma ReadUnfold(read: Reader, lines: seq<string>, n: nat, a: Answer, more: seq<string>)
    requires Settles(read) && n > 0 && read(lines) == Got(a, more)
    ensures ReadAnswers(read, lines, n).answers == [a] + ReadAnswers(read, more, n - 1).answers
    ensures ReadAnswers(read, lines, n).rest == ReadAnswers(read, more, n - 1).rest
    ensures ReadAnswers(read, lines, n).outcome == ReadAnswers(read, more, n - 1).outcome
  {
  }

  /** The document the pass from the `i`-th key leaves is the answers it
      read, applied to the keys in order. */
  ghost predicate FilesAsRead(read: Reader, d: Data, keys: seq<Key>, i: nat, lines: seq<string>)
    requires Settles(read) && Sound(d) && i <= |keys|
  {
    InboxPass(read, d, keys, i, lines).data == FileFrom(d, keys, i, ReadAnswers(read, lines, |keys| - i).answers)
  }

  /** The document a pass leaves is the answers it read, applied to the
      keys in order. */
  lemma {:induction false} PassData(read: Reader, d: Data, keys: seq<Key>, i: nat, lines: seq<string>)
    requires Settles(read) && Sound(d) && i <= |keys|
    ensures FilesAsRead(read, d, keys, i, lines)
    decreases |keys| - i, 1
  {
    if i < |keys| && Holds(d, Inbox, keys[i]) && read(lines).Got? {
      DataStep(read, d, keys, i, lines, read(lines).value, read(lines).rest);
    }
  }

  lemma DataStep(read: Reader, d: Data, keys: seq<Key>, i: nat, lines: seq<string>, a: Answer, more: seq<string>)
    requires Settles(read) && Sound(d) && i < |keys| && Holds(d, Inbox, keys[i])
    requires read(lines) == Got(a, more)
    ensures FilesAsRead(read, d, keys, i, lines)
    decreases |keys| - i, 0
  {
    DataUnfold(read, d, keys, i, lines, a, more);
    PassData(read, Apply(d, keys[i], a), keys, i + 1, more);
  }

  /** One settled key of a pass: the document is as read when the rest of
      the pass's is. */
  lemma DataUnfold(read: Reader, d: Data, keys: seq<Key>, i: nat, lines: seq<string>, a: Answer, more: seq<string>)
    requires Settles(read) && Sound(d) && i < |keys| && Holds(d, Inbox, keys[i])
    requires read(lines) == Got(a, more)
    ensures Sound(Apply(d, keys[i], a))
    ensures FilesAsRead(read, Apply(d, keys[i], a), keys, i + 1, more) ==> FilesAsRead(read, d, keys, i, lines)
  {
    assert read(lines).Got?;
    var later := ReadAnswers(read, more, |keys| - (i + 1)).answers;
    PassUnfold(read, d, keys, i, lines, a, more);
    ReadUnfold(read, lines, |keys| - i, a, more);
    FileFromCons(d, keys, i, a, later);
  }

  /** The pass from the `i`-th key leaves the input where the reading
      stopped, ends as the reading ends, and writes the file exactly when
      it settles some item. */
  ghost predicate EndsAsRead(read: Reader, d: Data, keys: seq<Key>, i: nat, lines: seq<string>)
    requires Settles(read) && Sound(d) && i <= |keys|
  {
    var r := ReadAnswers(read, lines, |keys| - i);
    var s := InboxPass(read, d, keys, i, lines);
    s.rest == r.rest && s.outcome == r.outcome && (s.saved <==> r.answers != [])
  }

  /** Over distinct keys all in the inbox, a pass leaves the input where the
      reading stopped, ends as the reading ends (no KeyError), and writes
      the file exactly when it settles some item. */
  lemma {:induction false} PassEnds(read: Reader, d: Data, keys: seq<Key>, i: nat, lines: seq<string>)
    requires Settles(read) && Sound(d) && Distinct(keys) && i <= |keys| && Present(d, keys, i)
    ensures EndsAsRead(read, d, keys, i, lines)
    decreases |keys| - i, 1
  {
    if i < |keys| && read(lines).Got? {
      EndsStep(read, d, keys, i, lines, read(lines).value, read(lines).rest);
    }
  }

  lemma EndsStep(read: Reader, d: Data, keys: seq<Key>, i: nat, lines: seq<string>, a: Answer, more: seq<string>)
    requires Settles(read) && Sound(d) && Distinct(keys) && i < |keys| && Present(d, keys, i)
    requires read(lines) == Got(a, more)
    ensures EndsAsRead(read, d, keys, i, lines)
    decreases |keys| - i, 0
  {
    EndsUnfold(read, d, keys, i, lines, a, more);
    PassEnds(read, Apply(d, keys[i], a), keys, i + 1, more);
  }

  /** One settled key of a pass: the rest of the keys are still in the
      inbox, and the pass ends as the reading does when the rest of it
      does. */
  lemma EndsUnfold(read: Reader, d: Data, keys: seq<Key>, i: nat, lines: seq<string>, a: Answer, more: seq<string>)
    requires Settles(read) && Sound(d) && Distinct(keys) && i < |keys| && Present(d, keys, i)
    requires read(lines) == Got(a, more)
    ensures Sound(Apply(d, keys[i], a)) && Present(Apply(d, keys[i], a), keys, i + 1)
    ensures EndsAsRead(read, Apply(d, keys[i], a), keys, i + 1, more) ==> EndsAsRead(read, d, keys, i, lines)
  {
    assert Holds(d, Inbox, keys[i]);
    assert read(lines).Got?;
    PassUnfold(read, d, keys, i, lines, a, more);
    ReadUnfold(read, lines, |keys| - i, a, more);
    StillPresent(d, keys, i, a);
  }

  /** A whole process_inbox pass is the answers read from the input applied
      to the inbox snapshot in order: no KeyError is raised, since each key
      is still in the inbox when its turn comes; the pass leaves the input
      where the reading stopped, ends as the reading ends, and writes the
      file exactly when it settled some item.  Each settled key stays in
      the inbox exactly when its answer was (p), and a moved item is held by
      its destination. */
  lemma InboxPassFiles(read: Reader, data: Data, lines: seq<string>)
    requires Settles(read) && Sound(data)
    ensures var keys := data[Inbox].keys;
      var r := ReadAnswers(read, lines, |keys|);
      var s := InboxPass(read, data, keys, 0, lines);
      && s.data == FileFrom(data, keys, 0, r.answers)
      && s.rest == r.rest && s.outcome == r.outcome && (s.saved <==> r.answers != [])
      && forall j :: 0 <= j < |r.answers| ==>
           && (Holds(s.data, Inbox, keys[j]) <==> r.answers[j].Plan?)
           && (Moves(r.answers[j]) ==> Holds(s.data, Destination(r.answers[j]), keys[j]))
  {
    var keys := data[Inbox].keys;
    forall j | 0 <= j < |keys| ensures Holds(data, Inbox, keys[j]) {
      KeysIn(data[Inbox], keys[j]);
    }
    PassData(read, data, keys, 0, lines);
    PassEnds(read, data, keys, 0, lines);
    FileFromFiles(data, keys, 0, ReadAnswers(read, lines, |keys|).answers);
  }

  /** A pass over the whole inbox that settles every item leaves in it
      exactly the items answered (p), and every moved item in its
      destination. */
  lemma CompletePass(data: Data, answers: seq<Answer>)
    requires Sound(data) && |answers| == |data[Inbox].keys|
    requires forall i :: 0 <= i < |answers| ==> !Represents(answers[i])
    ensures var keys := data[Inbox].keys;
      var r := FileFrom(data, keys, 0, answers);
      && (forall k :: Holds(r, Inbox, k) <==>
            exists i :: 0 <= i < |keys| && keys[i] == k && answers[i].Plan?)
      && (forall i :: 0 <= i < |keys| && Moves(answers[i]) ==> Holds(r, Destination(answers[i]), keys[i]))
  {
    var keys := data[Inbox].keys;
    forall i | 0 <= i < |keys| ensures Holds(data, Inbox, keys[i]) {
      KeysIn(data[Inbox], keys[i]);
    }
    FileFromFiles(data, keys, 0, answers);
    forall k | k !in keys ensures !Holds(FileFrom(data, keys, 0, answers), Inbox, k) {
      KeysIn(data[Inbox], k);
      FileFromKeeps(data, keys, 0, answers, k);
    }
  }

  // ---------------------------------------------------------------------------
  // complete(id, container)

  /** complete: the entry moves to 'completed' under the same key, wrapped
      with the completion time, and leaves its container; 'completed' is
      created when missing. */
  function CompleteIn(data: Data, id: Key, container: Name, now: string): (r: Data)
    requires Sound(data) && Holds(data, container, id)
    ensures Sound(r) && Completed in r && forall b :: b != Completed ==> (b in r <==> b in data)
    ensures container != Completed ==>
      Holds(r, Completed, id) && r[Completed].vals[id] == Done(now, data[container].vals[id])
    ensures !Holds(r, container, id)
    ensures forall k :: k != id ==> (Holds(r, container, k) <==> Holds(data, container, k))
    ensures forall b :: b in data && b != container && b != Completed ==> r[b] == data[b]
  {
    Remove(StoreCreating(data, Completed, id, Done(now, data[container].vals[id])), container, id)
  }

  // ---------------------------------------------------------------------------
  // print_actions

  /** The command typed at the print_actions prompt, lower-cased: the
      number is the run of digits at its very start (`\d*` matched at
      position 0, None when empty) and the action the first letter a-z. */
  datatype Command = Command(num: Option<nat>, action: Option<char>)

  function LeadingDigits(s: string): (r: string)
    ensures |r| <= |s| && r == s[..|r|] && AllDigits(r)
    ensures r == s || !IsDigit(s[|r|])
  {
    if s != [] && IsDigit(s[0]) then [s[0]] + LeadingDigits(s[1..]) else []
  }

  predicate IsLetter(c: char) { 'a' <= c <= 'z' }

  function FirstLetter(s: string): (r: Option<char>)
    ensures r.None? <==> forall i :: 0 <= i < |s| ==> !IsLetter(s[i])
    ensures r.Some? ==> exists i :: 0 <= i < |s| && s[i] == r.value && IsLetter(r.value)
                          && forall j :: 0 <= j < i ==> !IsLetter(s[j])
  {
    if s == [] then None
    else if IsLetter(s[0]) then Some(s[0])
    else
      var r := FirstLetter(s[1..]);
      assert forall i :: 0 <= i < |s[1..]| ==> s[1..][i] == s[i + 1];
      r
  }

  function ParseCommand(choice: string): (c: Command)
    ensures c.num.Some? <==> choice != [] && IsDigit(choice[0])
    ensures c.action == FirstLetter(choice)
  {
    var ds := LeadingDigits(choice);
    Command(if ds == [] then None else Some(DigitsValue(ds)), FirstLetter(choice))
  }

  /** The examples the prompt itself gives, "1 d" and "5t", and a letter
      before the number, which leaves the number out. */
  lemma CommandExamples()
    ensures ParseCommand("1 d") == Command(Some(1), Some('d'))
    ensures ParseCommand("5t") == Command(Some(5), Some('t'))
    ensures ParseCommand("d1").num == None
  {
    assert LeadingDigits("1 d") == "1" by {
      assert LeadingDigits(" d") == [];
    }
    assert FirstLetter("1 d") == Some('d') by {
      assert FirstLetter("1 d") == FirstLetter(" d") == FirstLetter("d");
    }
    assert LeadingDigits("5t") == "5" by {
      assert LeadingDigits("t") == [];
    }
    assert FirstLetter("5t") == FirstLetter("t");
    assert DigitsValue("1") == 1 && DigitsValue("5") == 5 by {
      assert "1"[..0] == [] && "5"[..0] == [];
    }
  }

  /** Every action entry must be a string, since each is printed by string
      concatenation at the top of every round. */
  predicate ActionsPrintable(data: Data)
    requires Actions in data
  {
    forall k :: k in data[Actions].vals ==> data[Actions].vals[k].Text?
  }

  /** The trash branch as written: delete_from_inbox(key) with its default
      container, 'inbox'. */
  function TrashAsWritten(data: Data, key: Key): (r: Result<Data>)
    requires Sound(data)
    ensures r.Ok? <==> Holds(data, Inbox, key)
    ensures r.Ok? ==> !Holds(r.value, Inbox, key) && Actions in r.value && r.value[Actions] == data[Actions]
  {
    if Holds(data, Inbox, key) then Ok(Remove(data, Inbox, key)) else Err(KeyError)
  }

  /** A next action is never also an inbox item, so trashing it as written
      always raises KeyError and leaves the action in place. */
  lemma TrashAsWrittenFails(data: Data, key: Key)
    requires Sound(data) && Holds(data, Actions, key) && !Holds(data, Inbox, key)
    ensures TrashAsWritten(data, key) == Err(KeyError)
  {
  }

  /** A concrete document: one next action, empty inbox; trashing action 0
      as written raises KeyError. */
  lemma TrashAsWrittenCounterexample()
    ensures var data := DefaultData()[Actions := Put(Empty(), "1700000000.0", Text("call X"))];
      Sound(data) && data[Actions].keys == ["1700000000.0"]
      && TrashAsWritten(data, data[Actions].keys[0]) == Err(KeyError)
  {
    var data := DefaultData()[Actions := Put(Empty(), "1700000000.0", Text("call X"))];
    assert DefaultData()[Inbox] == Empty<Entry>();
  }

  /** The trash branch corrected: the action is deleted from 'actions'. */
  function TrashAction(data: Data, key: Key): (r: Data)
    requires Sound(data) && Holds(data, Actions, key)
    ensures Sound(r) && forall b :: b in r <==> b in data
    ensures !Holds(r, Actions, key)
    ensures r[Actions].keys == Without(data[Actions].keys, key)
    ensures forall k :: k != key && Holds(data, Actions, k) ==>
      Holds(r, Actions, k) && r[Actions].vals[k] == data[Actions].vals[k]
    ensures forall b :: b in data && b != Actions ==> r[b] == data[b]
  {
    Remove(data, Actions, key)
  }

  /** How one round of the print_actions loop ends: it goes round again
      on a document and the unread input, noting whether it saved, or the
      loop stops with a session. */
  datatype Round = Next(data: Data, rest: seq<string>, saved: bool) | Stop(session: Session)

  /** One round of the print_actions loop: it prints the actions, which
      must all be strings, and reads a command, then acts on it at the
      round's clock reading `clock[0]`. */
  function ActionsRound(data: Data, lines: seq<string>, clock: seq<string>): (r: Round)
    requires Sound(data) && |clock| >= |lines|
    ensures r.Next? ==> Sound(r.data) && |r.rest| < |lines|
    ensures r.Stop? ==> r.session.data == data && !r.session.saved && |r.session.rest| <= |lines|
  {
    if !ActionsPrintable(data) then Stop(Session(data, lines, Raised(TypeError), false))
    else if lines == [] then Stop(Session(data, lines, Raised(EOFError), false))
    else Perform(data, ParseCommand(Lower(lines[0])), lines[1..], clock[0])
  }

  /** What a round does with its command: q ends the loop, a nonzero
      number past the end of the list is refused, #t asks for a y before
      deleting, #d completes the action at `now`, anything else asks
      again. */
  function Perform(data: Data, cmd: Command, more: seq<string>, now: string): (r: Round)
    requires Sound(data)
    ensures r.Next? ==> Sound(r.data) && |r.rest| <= |more|
    ensures r.Stop? ==> r.session.data == data && !r.session.saved && |r.session.rest| <= |more|
  {
    var keylist := data[Actions].keys;
    if cmd.action == Some('q') then Stop(Session(data, more, Normal, false))
    else if cmd.num.Some? && cmd.num.value != 0 && cmd.num.value >= |keylist| then
      Next(data, more, false)
    else if cmd.action == Some('t') || cmd.action == Some('d') then
      if cmd.num.None? then Stop(Session(data, more, Raised(TypeError), false))
      else if cmd.num.value >= |keylist| then Stop(Session(data, more, Raised(IndexError), false))
      else
        var key := keylist[cmd.num.value];
        KeysIn(data[Actions], key);
        if cmd.action == Some('t') then
          if more == [] then Stop(Session(data, more, Raised(EOFError), false))
          else if 'y' in Lower(more[0]) then Next(TrashAction(data, key), more[1..], true)
          else Next(data, more[1..], false)
        else Next(CompleteIn(data, key, Actions, now), more, true)
    else Next(data, more, false)
  }

  /** The print_actions loop, round after round until one stops it; each
      round reads the clock once, so `clock` holds a reading for every
      round the input can feed. */
  function ActionsSession(data: Data, lines: seq<string>, clock: seq<string>): (s: Session)
    requires Sound(data) && |clock| >= |lines|
    ensures Sound(s.data) && |s.rest| <= |lines|
    decreases |lines|
  {
    match ActionsRound(data, lines, clock)
    case Stop(s) => s
    case Next(d, more, saved) =>
      var s := ActionsSession(d, more, clock[1..]);
      if saved then Saved(s) else s
  }

  function Saved(s: Session): (r: Session)
    ensures r.saved && r.data == s.data && r.rest == s.rest && r.outcome == s.outcome
  {
    s.(saved := true)
  }

  /** A number past the end of the list changes nothing and asks again. */
  lemma OutOfRange(data: Data, command: string, lines: seq<string>, clock: seq<string>)
    requires Sound(data) && ActionsPrintable(data) && |clock| > |lines|
    requires ParseCommand(Lower(command)).action != Some('q')
    requires ParseCommand(Lower(command)).num.Some?
    requires ParseCommand(Lower(command)).num.value >= |data[Actions].keys|
    requires ParseCommand(Lower(command)).num.value > 0
    ensures ActionsSession(data, [command] + lines, clock) == ActionsSession(data, lines, clock[1..])
  {
    RoundActs(data, command, lines, clock);
  }

  /** Trashing action number n with a y removes exactly that action. */
  lemma TrashRemovesNumbered(data: Data, n: nat, command: string, yes: string, lines: seq<string>, clock: seq<string>)
    requires Sound(data) && ActionsPrintable(data) && |clock| >= |lines| + 2
    requires ParseCommand(Lower(command)) == Command(Some(n), Some('t'))
    requires n < |data[Actions].keys| && Holds(data, Actions, data[Actions].keys[n]) && 'y' in Lower(yes)
    ensures ActionsSession(data, [command, yes] + lines, clock)
        == Saved(ActionsSession(TrashAction(data, data[Actions].keys[n]), lines, clock[1..]))
  {
    TrashRound(data, n, command, yes, lines, clock);
    assert |clock[1..]| >= |lines|;
  }

  lemma TrashRound(data: Data, n: nat, command: string, yes: string, lines: seq<string>, clock: seq<string>)
    requires Sound(data) && ActionsPrintable(data) && |clock| >= |lines| + 2
    requires ParseCommand(Lower(command)) == Command(Some(n), Some('t'))
    requires n < |data[Actions].keys| && Holds(data, Actions, data[Actions].keys[n]) && 'y' in Lower(yes)
    ensures ActionsRound(data, [command, yes] + lines, clock) == Next(TrashAction(data, data[Actions].keys[n]), lines, true)
  {
    assert [command, yes] + lines == [command] + ([yes] + lines);
    RoundActs(data, command, [yes] + lines, clock);
    PerformTrash(data, n, yes, lines, clock[0]);
  }

  lemma PerformTrash(data: Data, n: nat, yes: string, lines: seq<string>, now: string)
    requires Sound(data) && n < |data[Actions].keys| && Holds(data, Actions, data[Actions].keys[n]) && 'y' in Lower(yes)
    ensures Perform(data, Command(Some(n), Some('t')), [yes] + lines, now) == Next(TrashAction(data, data[Actions].keys[n]), lines, true)
  {
    assert ([yes] + lines)[0] == yes && ([yes] + lines)[1..] == lines;
  }

  /** Completing action number n moves it to 'completed', stamped with the
      round's clock reading, and saves; the menu goes on with the rest of
      the input and the next readings. */
  lemma DoneRound(data: Data, n: nat, command: string, lines: seq<string>, clock: seq<string>)
    requires Sound(data) && ActionsPrintable(data) && |clock| > |lines|
    requires ParseCommand(Lower(command)) == Command(Some(n), Some('d'))
    requires n < |data[Actions].keys| && Holds(data, Actions, data[Actions].keys[n])
    ensures ActionsSession(data, [command] + lines, clock)
        == Saved(ActionsSession(CompleteIn(data, data[Actions].keys[n], Actions, clock[0]), lines, clock[1..]))
  {
    DoneStep(data, n, command, lines, clock);
  }

  lemma DoneStep(data: Data, n: nat, command: string, lines: seq<string>, clock: seq<string>)
    requires Sound(data) && ActionsPrintable(data) && |clock| > |lines|
    requires ParseCommand(Lower(command)) == Command(Some(n), Some('d'))
    requires n < |data[Actions].keys| && Holds(data, Actions, data[Actions].keys[n])
    ensures ActionsRound(data, [command] + lines, clock) == Next(CompleteIn(data, data[Actions].keys[n], Actions, clock[0]), lines, true)
  {
    RoundActs(data, command, lines, clock);
    PerformDone(data, n, lines, clock[0]);
  }

  /** A round whose actions print acts on the first line's command. */
  lemma RoundActs(data: Data, command: string, lines: seq<string>, clock: seq<string>)
    requires Sound(data) && ActionsPrintable(data) && |clock| > |lines|
    ensures ActionsRound(data, [command] + lines, clock) == Perform(data, ParseCommand(Lower(command)), lines, clock[0])
  {
    assert ([command] + lines)[1..] == lines;
  }

  lemma PerformDone(data: Data, n: nat, more: seq<string>, now: string)
    requires Sound(data) && n < |data[Actions].keys| && Holds(data, Actions, data[Actions].keys[n])
    ensures Perform(data, Command(Some(n), Some('d')), more, now) == Next(CompleteIn(data, data[Actions].keys[n], Actions, now), more, true)
  {
  }

  // ---------------------------------------------------------------------------
  // process_projects and list_projects

  /** `project['next_actions']` as written: a KeyError for a project
      record without the field, which is every record new_project writes. */
  function NextActionsAsWritten(e: Entry): (r: Result<seq<Key>>)
    ensures r.Ok? <==> e.Project? && e.nextActions.Some?
    ensures e.Text? ==> r == Err(TypeError)
  {
    match e
    case Text(_) => Err(TypeError)
    case Project(_, _, na) => if na.Some? then Ok(na.value) else Err(KeyError)
    case _ => Err(KeyError)
  }

  /** Every project the triage files, by (p), lacks the field, so the
      project pass and the listing fail on it as written. */
  lemma NewProjectUnlisted(text: string, shortName: string, item: Entry)
    ensures NextActionsAsWritten(Filed(Plan(text, shortName), item)) == Err(KeyError)
  {
  }

  /** `project['next_actions']` as evidently intended: a project without
      the field has no next actions yet. */
  function NextActions(e: Entry): (r: Result<seq<Key>>)
    ensures r.Ok? <==> e.Project?
    ensures e.Project? && e.nextActions.Some? ==> r == Ok(e.nextActions.value)
    ensures e.Project? && e.nextActions.None? ==> r == Ok([])
    ensures NextActionsAsWritten(e).Ok? ==> r == NextActionsAsWritten(e)
  {
    match e
    case Text(_) => Err(TypeError)
    case Project(_, _, na) => Ok(na.GetOr([]))
    case _ => Err(KeyError)
  }

  /** A project filed by the triage has an empty next-action list. */
  lemma NewProjectListed(text: string, shortName: string, item: Entry)
    ensures NextActions(Filed(Plan(text, shortName), item)) == Ok([])
  {
  }

  /** How a run of process_projects ends: the document in memory, the
      unread input, the outcome, and the document the last save_data
      wrote (None when nothing was saved). */
  datatype Run = Run(data: Data, rest: seq<string>, outcome: Outcome, file: Option<Data>)

  /** A run that follows a save of `saved`: the file holds the later run's
      last save, or else `saved`. */
  function After(saved: Option<Data>, r: Run): (s: Run)
    ensures s.data == r.data && s.rest == r.rest && s.outcome == r.outcome
    ensures s.file == if r.file.Some? then r.file else saved
  {
    if r.file.Some? then r else r.(file := saved)
  }

  /** A later save supersedes an earlier one. */
  lemma AfterAfter(saved: Option<Data>, later: Option<Data>, r: Run)
    ensures After(saved, After(later, r)) == After(if later.Some? then later else saved, r)
  {
  }

  /** process_projects' visit of project `p`: a KeyError when it is gone,
      the error of reading its next actions, nothing when it has some, and
      otherwise the empty list set, then one action read from input and
      stored under `stamp`, which becomes the project's next action and is
      saved. */
  function Visit(data: Data, p: Key, lines: seq<string>, stamp: Key): (v: Run)
    requires Sound(data)
    ensures Sound(v.data)
    ensures v.file.Some? ==> v.file == Some(v.data) && v.outcome.Normal? && lines != [] && v.rest == lines[1..]
    ensures v.file.None? && v.outcome.Normal? ==> v.data == data && v.rest == lines
    ensures v.outcome.Raised? ==> v.file.None? && v.rest == lines
  {
    if !Holds(data, Projects, p) then Run(data, lines, Raised(KeyError), None)
    else
      var e := data[Projects].vals[p];
      match NextActions(e)
      case Err(err) => Run(data, lines, Raised(err), None)
      case Ok(na) =>
        if na != [] then Run(data, lines, Normal, None)
        else
          var d0 := Store(data, Projects, p, e.(nextActions := Some([])));
          if lines == [] then Run(d0, lines, Raised(EOFError), None)
          else
            var d1 := Store(d0, Actions, stamp, Text(lines[0]));
            var d2 := Store(d1, Projects, p, e.(nextActions := Some([stamp])));
            Run(d2, lines[1..], Normal, Some(d2))
  }

  /** The pass is the visit of its first project, then, unless that
      raised, the pass over the others. */
  lemma VisitStep(data: Data, keys: seq<Key>, lines: seq<string>, stamps: seq<Key>)
    requires Sound(data) && |stamps| >= |keys| && keys != []
    ensures var v := Visit(data, keys[0], lines, stamps[0]);
      ProjectsPass(data, keys, lines, stamps)
        == if v.outcome.Raised? then v else After(v.file, ProjectsPass(v.data, keys[1..], v.rest, stamps[1..]))
  {
    var v := Visit(data, keys[0], lines, stamps[0]);
    if v.outcome.Normal? && v.file.None? {
      var r := ProjectsPass(data, keys[1..], lines, stamps[1..]);
      assert After(None, r) == r;
    }
  }

  /** VisitStep from the `i`-th project on. */
  lemma VisitAt(data: Data, keys: seq<Key>, i: nat, lines: seq<string>, stamps: seq<Key>)
    requires Sound(data) && i < |keys| <= |stamps|
    ensures var v := Visit(data, keys[i], lines, stamps[i]);
      ProjectsPass(data, keys[i..], lines, stamps[i..])
        == if v.outcome.Raised? then v else After(v.file, ProjectsPass(v.data, keys[i + 1..], v.rest, stamps[i + 1..]))
  {
    assert keys[i..][0] == keys[i] && keys[i..][1..] == keys[i + 1..];
    assert stamps[i..][0] == stamps[i] && stamps[i..][1..] == stamps[i + 1..];
    VisitStep(data, keys[i..], lines, stamps[i..]);
  }

  /** process_projects over the project keys still to visit: a project
      without next actions gets one, read from input and stored under the
      clock reading `stamps[0]`, which becomes its one next action.  The
      empty list is set in memory before the prompt, so input that ends
      there leaves it in memory but not in the file. */
  function ProjectsPass(data: Data, keys: seq<Key>, lines: seq<string>, stamps: seq<Key>): (s: Run)
    requires Sound(data) && |stamps| >= |keys|
    ensures Sound(s.data)
    decreases |keys|
  {
    if keys == [] then Run(data, lines, Normal, None)
    else if !Holds(data, Projects, keys[0]) then Run(data, lines, Raised(KeyError), None)
    else
      var p := keys[0];
      var e := data[Projects].vals[p];
      match NextActions(e)
      case Err(err) => Run(data, lines, Raised(err), None)
      case Ok(na) =>
        if na != [] then ProjectsPass(data, keys[1..], lines, stamps[1..])
        else
          var d0 := Store(data, Projects, p, e.(nextActions := Some([])));
          if lines == [] then Run(d0, lines, Raised(EOFError), None)
          else
            var d1 := Store(d0, Actions, stamps[0], Text(lines[0]));
            var d2 := Store(d1, Projects, p, e.(nextActions := Some([stamps[0]])));
            After(Some(d2), ProjectsPass(d2, keys[1..], lines[1..], stamps[1..]))
  }

  /** The pass keeps every action and every project, and leaves alone a
      project it does not visit. */
  lemma {:induction false} ProjectsPassKeeps(data: Data, keys: seq<Key>, lines: seq<string>, stamps: seq<Key>, k: Key)
    requires Sound(data) && |stamps| >= |keys|
    ensures Holds(data, Actions, k) ==> Holds(ProjectsPass(data, keys, lines, stamps).data, Actions, k)
    ensures Holds(data, Projects, k) ==> Holds(ProjectsPass(data, keys, lines, stamps).data, Projects, k)
    ensures Holds(data, Projects, k) && k !in keys ==>
      ProjectsPass(data, keys, lines, stamps).data[Projects].vals[k] == data[Projects].vals[k]
    decreases |keys|
  {
    if keys != [] && Holds(data, Projects, keys[0]) && NextActions(data[Projects].vals[keys[0]]).Ok? {
      var e := data[Projects].vals[keys[0]];
      if NextActions(e).value != [] {
        ProjectsPassKeeps(data, keys[1..], lines, stamps[1..], k);
      } else if lines != [] {
        var d0 := Store(data, Projects, keys[0], e.(nextActions := Some([])));
        var d1 := Store(d0, Actions, stamps[0], Text(lines[0]));
        var d2 := Store(d1, Projects, keys[0], e.(nextActions := Some([stamps[0]])));
        ProjectsPassKeeps(d2, keys[1..], lines[1..], stamps[1..], k);
      }
    }
  }

  /** After a complete pass every project has a next action; one that had
      none has exactly one, the new action stored under its clock reading,
      and one that had some is unchanged. */
  ghost predicate Filled(data: Data, keys: seq<Key>, stamps: seq<Key>, s: Run)
    requires Sound(data) && |stamps| >= |keys|
    requires forall i :: 0 <= i < |keys| ==> Holds(data, Projects, keys[i])
  {
    s.outcome.Normal? ==> forall i :: 0 <= i < |keys| ==> FilledAt(data, keys[i], stamps[i], s.data)
  }

  /** Project `k` of `data` is filled in `r`, with `stamp` the key its new
      action would be stored under. */
  ghost predicate FilledAt(data: Data, k: Key, stamp: Key, r: Data)
    requires Holds(data, Projects, k)
  {
    && Holds(r, Projects, k)
    && var before := data[Projects].vals[k];
    var after := r[Projects].vals[k];
    && after.Project? && after.nextActions.Some? && after.nextActions.value != []
    && (NextActions(before) == Ok([]) ==>
          after == before.(nextActions := Some([stamp])) && Holds(r, Actions, stamp))
    && (NextActions(before).Ok? && NextActions(before).value != [] ==> after == before)
  }

  lemma {:induction false} ProjectsPassFills(data: Data, keys: seq<Key>, lines: seq<string>, stamps: seq<Key>)
    requires Sound(data) && |stamps| >= |keys| && Distinct(keys)
    requires forall i :: 0 <= i < |keys| ==> Holds(data, Projects, keys[i])
    ensures Filled(data, keys, stamps, ProjectsPass(data, keys, lines, stamps))
    decreases |keys|, 1
  {
    if keys != [] && NextActions(data[Projects].vals[keys[0]]).Ok? {
      if NextActions(data[Projects].vals[keys[0]]).value != [] {
        FillsKept(data, keys, lines, stamps);
      } else if lines != [] {
        FillsNew(data, keys, lines, stamps);
      }
    }
  }

  /** The rest of the keys: distinct from the first, and indexed one less. */
  lemma RestKeys(keys: seq<Key>, stamps: seq<Key>)
    requires Distinct(keys) && keys != [] && |stamps| >= |keys|
    ensures Distinct(keys[1..])
    ensures forall j :: 0 < j < |keys| ==> keys[j] != keys[0]
    ensures forall i :: 0 < i < |keys| ==> keys[i] == keys[1..][i - 1] && stamps[i] == stamps[1..][i - 1]
  {
    DistinctIndices(keys);
    DistinctIndices(keys[1..]);
  }

  /** A first project that already has next actions is left alone. */
  lemma FillsKept(data: Data, keys: seq<Key>, lines: seq<string>, stamps: seq<Key>)
    requires Sound(data) && |stamps| >= |keys| && Distinct(keys) && keys != []
    requires forall i :: 0 <= i < |keys| ==> Holds(data, Projects, keys[i])
    requires Holds(data, Projects, keys[0])
    requires NextActions(data[Projects].vals[keys[0]]).Ok? && NextActions(data[Projects].vals[keys[0]]).value != []
    ensures Filled(data, keys, stamps, ProjectsPass(data, keys, lines, stamps))
    decreases |keys|, 0
  {
    RestKeys(keys, stamps);
    ProjectsPassFills(data, keys[1..], lines, stamps[1..]);
    ProjectsPassKeeps(data, keys[1..], lines, stamps[1..], keys[0]);
  }

  /** The document after a first project without next actions was given
      the action typed on the first line. */
  function WithNewAction(data: Data, keys: seq<Key>, lines: seq<string>, stamps: seq<Key>): (r: Data)
    requires Sound(data) && keys != [] && lines != [] && stamps != []
    requires Holds(data, Projects, keys[0]) && data[Projects].vals[keys[0]].Project?
    ensures Sound(r)
  {
    var e := data[Projects].vals[keys[0]];
    var d0 := Store(data, Projects, keys[0], e.(nextActions := Some([])));
    var d1 := Store(d0, Actions, stamps[0], Text(lines[0]));
    Store(d1, Projects, keys[0], e.(nextActions := Some([stamps[0]])))
  }

  /** What the new action changes: the project's next actions and the new
      action, nothing else among the projects. */
  lemma NewActionStored(data: Data, keys: seq<Key>, lines: seq<string>, stamps: seq<Key>)
    requires Sound(data) && keys != [] && lines != [] && stamps != []
    requires Holds(data, Projects, keys[0]) && data[Projects].vals[keys[0]].Project?
    ensures var r := WithNewAction(data, keys, lines, stamps);
      && Holds(r, Actions, stamps[0]) && Holds(r, Projects, keys[0])
      && r[Projects].vals[keys[0]] == data[Projects].vals[keys[0]].(nextActions := Some([stamps[0]]))
      && forall k :: Holds(data, Projects, k) && k != keys[0] ==>
           Holds(r, Projects, k) && r[Projects].vals[k] == data[Projects].vals[k]
  {
  }

  /** The pass from position `i` on, over a project that already has
      next actions. */
  lemma SkipAt(data: Data, keys: seq<Key>, i: nat, lines: seq<string>, stamps: seq<Key>)
    requires Sound(data) && i < |keys| <= |stamps|
    requires Holds(data, Projects, keys[i]) && NextActions(data[Projects].vals[keys[i]]).Ok?
    requires NextActions(data[Projects].vals[keys[i]]).value != []
    ensures ProjectsPass(data, keys[i..], lines, stamps[i..]) == ProjectsPass(data, keys[i + 1..], lines, stamps[i + 1..])
  {
    assert keys[i..][0] == keys[i] && keys[i..][1..] == keys[i + 1..];
    assert stamps[i..][1..] == stamps[i + 1..];
  }

  /** The pass from position `i` on, over a project without next actions,
      when a line of input is left. */
  lemma NewAt(data: Data, keys: seq<Key>, i: nat, lines: seq<string>, stamps: seq<Key>)
    requires Sound(data) && i < |keys| <= |stamps| && lines != []
    requires Holds(data, Projects, keys[i]) && NextActions(data[Projects].vals[keys[i]]) == Ok([])
    ensures var e := data[Projects].vals[keys[i]];
      var d0 := Store(data, Projects, keys[i], e.(nextActions := Some([])));
      var d1 := Store(d0, Actions, stamps[i], Text(lines[0]));
      var d2 := Store(d1, Projects, keys[i], e.(nextActions := Some([stamps[i]])));
      ProjectsPass(data, keys[i..], lines, stamps[i..]) == After(Some(d2), ProjectsPass(d2, keys[i + 1..], lines[1..], stamps[i + 1..]))
  {
    assert keys[i..][0] == keys[i] && keys[i..][1..] == keys[i + 1..];
    assert stamps[i..][0] == stamps[i] && stamps[i..][1..] == stamps[i + 1..];
  }

  /** The pass from position `i` on, over a project without next actions,
      when the input has ended. */
  lemma EndAt(data: Data, keys: seq<Key>, i: nat, stamps: seq<Key>)
    requires Sound(data) && i < |keys| <= |stamps|
    requires Holds(data, Projects, keys[i]) && NextActions(data[Projects].vals[keys[i]]) == Ok([])
    ensures var e := data[Projects].vals[keys[i]];
      ProjectsPass(data, keys[i..], [], stamps[i..])
        == Run(Store(data, Projects, keys[i], e.(nextActions := Some([]))), [], Raised(EOFError), None)
  {
    assert keys[i..][0] == keys[i];
  }

  lemma NewUnfold(data: Data, keys: seq<Key>, lines: seq<string>, stamps: seq<Key>)
    requires Sound(data) && |stamps| >= |keys| && keys != [] && lines != []
    requires Holds(data, Projects, keys[0]) && NextActions(data[Projects].vals[keys[0]]) == Ok([])
    ensures ProjectsPass(data, keys, lines, stamps)
      == After(Some(WithNewAction(data, keys, lines, stamps)),
               ProjectsPass(WithNewAction(data, keys, lines, stamps), keys[1..], lines[1..], stamps[1..]))
  {
  }

  /** Filling the first project and then the rest fills them all. */
  lemma FilledCons(data: Data, d: Data, keys: seq<Key>, stamps: seq<Key>, s: Run)
    requires Sound(data) && Sound(d) && |stamps| >= |keys| && keys != []
    requires forall i :: 0 <= i < |keys| ==> Holds(data, Projects, keys[i])
    requires forall i :: 0 < i < |keys| ==> Holds(d, Projects, keys[i]) && Holds(data, Projects, keys[i]) && d[Projects].vals[keys[i]] == data[Projects].vals[keys[i]]
    requires FilledAt(data, keys[0], stamps[0], s.data)
    requires Filled(d, keys[1..], stamps[1..], s)
    ensures Filled(data, keys, stamps, s)
  {
    assert forall i :: 0 < i < |keys| ==> keys[i] == keys[1..][i - 1] && stamps[i] == stamps[1..][i - 1];
  }

  /** A first project without next actions gets the one typed. */
  lemma FillsNew(data: Data, keys: seq<Key>, lines: seq<string>, stamps: seq<Key>)
    requires Sound(data) && |stamps| >= |keys| && Distinct(keys) && keys != [] && lines != []
    requires forall i :: 0 <= i < |keys| ==> Holds(data, Projects, keys[i])
    requires Holds(data, Projects, keys[0]) && NextActions(data[Projects].vals[keys[0]]) == Ok([])
    ensures Filled(data, keys, stamps, ProjectsPass(data, keys, lines, stamps))
    decreases |keys|, 0
  {
    RestKeys(keys, stamps);
    NewUnfold(data, keys, lines, stamps);
    NewActionStored(data, keys, lines, stamps);
    var d := WithNewAction(data, keys, lines, stamps);
    ProjectsPassFills(d, keys[1..], lines[1..], stamps[1..]);
    ProjectsPassKeeps(d, keys[1..], lines[1..], stamps[1..], keys[0]);
    ProjectsPassKeeps(d, keys[1..], lines[1..], stamps[1..], stamps[0]);
    FilledCons(data, d, keys, stamps, ProjectsPass(d, keys[1..], lines[1..], stamps[1..]));
  }

  /** What list_projects prints, line by line. */
  datatype Line = Heading(text: string) | NoNextAction | ActionLine(entry: Entry)

  /** Project `k` can be listed: it exists, it is a project record, and
      every next action it names exists. */
  predicate Listable(data: Data, k: Key)
    requires Sound(data)
  {
    && Holds(data, Projects, k)
    && NextActions(data[Projects].vals[k]).Ok?
    && forall a :: a in NextActions(data[Projects].vals[k]).value ==> Holds(data, Actions, a)
  }

  function Headings(ls: seq<Line>): (r: seq<string>)
    ensures |r| <= |ls|
  {
    if ls == [] then []
    else (if ls[0].Heading? then [ls[0].text] else []) + Headings(ls[1..])
  }

  lemma {:induction false} HeadingsAppend(a: seq<Line>, b: seq<Line>)
    ensures Headings(a + b) == Headings(a) + Headings(b)
  {
    if a != [] {
      HeadingsAppend(a[1..], b);
      assert (a + b)[1..] == a[1..] + b;
    } else {
      assert a + b == b;
    }
  }

  /** A heading followed by lines without headings adds one heading. */
  lemma HeadingsCons(text: string, body: seq<Line>, tail: seq<Line>)
    requires Headings(body) == []
    ensures Headings([Heading(text)] + body + tail) == [text] + Headings(tail)
  {
    HeadingsAppend([Heading(text)], body);
    HeadingsAppend([Heading(text)] + body, tail);
  }

  /** The lines of the next actions `ks`, one per action in order; a
      KeyError when one of them is no longer among the actions. */
  function ActionLines(data: Data, ks: seq<Key>): (r: Result<seq<Line>>)
    requires Sound(data)
    ensures r.Ok? <==> forall a :: a in ks ==> Holds(data, Actions, a)
    ensures r.Ok? ==> |r.value| == |ks| && Headings(r.value) == []
    ensures r.Ok? ==> forall i :: 0 <= i < |ks| ==>
      Holds(data, Actions, ks[i]) && r.value[i] == ActionLine(data[Actions].vals[ks[i]])
  {
    if ks == [] then Ok([])
    else if !Holds(data, Actions, ks[0]) then Err(KeyError)
    else match ActionLines(data, ks[1..])
      case Err(err) =>
        assert forall a :: a in ks[1..] ==> a in ks;
        Err(err)
      case Ok(tail) =>
        assert forall a :: a in ks ==> a == ks[0] || a in ks[1..];
        var r := [ActionLine(data[Actions].vals[ks[0]])] + tail;
        assert r[1..] == tail;
        Ok(r)
  }

  /** list_projects over the project keys `keys`: each project's text, a
      warning when it has no next action, then each of its next actions. */
  function Listing(data: Data, keys: seq<Key>): (r: Result<seq<Line>>)
    requires Sound(data)
    ensures r.Ok? <==> forall i :: 0 <= i < |keys| ==> Listable(data, keys[i])
    ensures r.Ok? ==> |Headings(r.value)| == |keys|
    ensures r.Ok? ==> forall i :: 0 <= i < |keys| ==>
      Holds(data, Projects, keys[i]) && Headings(r.value)[i] == data[Projects].vals[keys[i]].text
  {
    if keys == [] then Ok([])
    else if !Listable(data, keys[0]) then
      if !Holds(data, Projects, keys[0]) then Err(KeyError)
      else
        var e := data[Projects].vals[keys[0]];
        match NextActions(e)
        case Err(err) => Err(err)
        case Ok(na) => ActionLines(data, na)
    else
      var e := data[Projects].vals[keys[0]];
      var na := NextActions(e).value;
      var lines := ActionLines(data, na).value;
      var tail := Listing(data, keys[1..]);
      assert forall i :: 0 < i < |keys| ==> keys[i] == keys[1..][i - 1];
      if tail.Err? then tail
      else
        var warning := if na == [] then [NoNextAction] else [];
        HeadingsAppend(warning, lines);
        HeadingsCons(e.text, warning + lines, tail.value);
        Ok([Heading(e.text)] + (warning + lines) + tail.value)
  }

  /** A project the triage filed, alone in 'projects', is listed with its
      text and the no-next-action warning. */
  lemma FiledProjectListing(text: string, shortName: string, id: Key, item: Entry)
    ensures var data := DefaultData()[Projects := Put(Empty(), id, Filed(Plan(text, shortName), item))];
      Sound(data) && ListProjects(data) == Ok([Heading(text), NoNextAction])
  {
    var data := DefaultData()[Projects := Put(Empty(), id, Filed(Plan(text, shortName), item))];
    var keys := data[Projects].keys;
    assert keys == [id];
    assert Listable(data, id);
    assert ActionLines(data, []) == Ok([]);
    assert Listing(data, keys[1..]) == Ok([]);
    assert Listing(data, keys) == Ok([Heading(text)] + ([NoNextAction] + []) + []);
    assert [Heading(text)] + ([NoNextAction] + []) + [] == [Heading(text), NoNextAction];
    assert ListProjects(data) == Listing(data, keys);
  }

  /** list_projects over the current document: the lines printed, or the
      exception raised. */
  function ListProjects(data: Data): (r: Result<seq<Line>>)
    requires Sound(data)
    ensures r.Ok? <==> forall k :: k in data[Projects].vals ==> Listable(data, k)
    ensures r.Ok? ==> |Headings(r.value)| == data[Projects].Size()
  {
    ListableEach(data);
    Listing(data, data[Projects].keys)
  }

  /** Every project key is listable exactly when every listed key is. */
  lemma ListableEach(data: Data)
    requires Sound(data)
    ensures (forall i :: 0 <= i < |data[Projects].keys| ==> Listable(data, data[Projects].keys[i]))
        <==> (forall k :: k in data[Projects].vals ==> Listable(data, k))
  {
    var keys := data[Projects].keys;
    HoldsListed(data, Projects);
    if forall i :: 0 <= i < |keys| ==> Listable(data, keys[i]) {
      forall k | k in data[Projects].vals ensures Listable(data, k) {
        assert Holds(data, Projects, k) && k in keys;
        var i :| 0 <= i < |keys| && keys[i] == k;
      }
    }
  }

  // ---------------------------------------------------------------------------
  // The store

  class State {
    /** The module-level `data`. */
    var data: Data
    /** The JSON file DATA_FILE: the document last written, None while the
        file does not exist. */
    var file: Option<Data>
    /** The `time()` readings frozen into the default `id` arguments of
        new_appointment and new_project when the module was loaded. */
    const appointmentDefault: Key
    const projectDefault: Key

    ghost predicate Valid()
      reads this
    {
      Sound(data) && (file.Some? ==> Sound(file.value))
    }

    /** Loading the module: the seven empty buckets, and the file as found. */
    constructor (file: Option<Data>, appointmentDefault: Key, projectDefault: Key)
      requires file.Some? ==> Sound(file.value)
      ensures Valid() && data == DefaultData() && this.file == file
      ensures this.appointmentDefault == appointmentDefault && this.projectDefault == projectDefault
    {
      data := DefaultData();
      this.file := file;
      this.appointmentDefault := appointmentDefault;
      this.projectDefault := projectDefault;
    }

    /** load_data: create the file from the document if it is missing,
        else replace the document by the file's. */
    method LoadData()
      requires Valid()
      modifies this
      ensures Valid() && file == Some(data)
      ensures old(file).None? ==> data == old(data)
      ensures old(file).Some? ==> data == old(file).value
    {
      if file.None? {
        file := Some(data);
      } else {
        data := file.value;
        assert Sound(data);
      }
    }

    /** save_data */
    method SaveData()
      requires Valid()
      modifies this
      ensures Valid() && data == old(data) && file == Some(data)
    {
      file := Some(data);
    }

    /** add_to_inbox: the text goes into the inbox under the clock reading
        `stamp`; a fresh stamp adds one item at the end, a repeated one
        overwrites. */
    method AddToInbox(stamp: Key, text: string)
      requires Valid()
      modifies this
      ensures Valid() && file == Some(data)
      ensures data == Store(old(data), Inbox, stamp, Text(text))
      ensures stamp !in old(data)[Inbox].vals ==> data[Inbox].keys == old(data)[Inbox].keys + [stamp]
    {
      data := Store(data, Inbox, stamp, Text(text));
      assert Sound(data);
      SaveData();
    }

    /** empty(container): the confirmation is the next input line. */
    method Empty(container: Name, lines: seq<string>) returns (result: Emptying, rest: seq<string>)
      requires Valid()
      modifies this
      ensures Valid()
      ensures lines == [] ==> result == EmptyFailed(EOFError) && rest == lines && data == old(data) && file == old(file)
      ensures lines != [] ==> rest == lines[1..] && (result, data) == EmptyBucket(old(data), container, lines[0])
      ensures lines != [] ==> file == if result == Cleared then Some(data) else old(file)
    {
      if lines == [] {
        return EmptyFailed(EOFError), lines;
      }
      var confirmation := lines[0];
      rest := lines[1..];
      if 'y' in confirmation {
        if container !in data {
          result := EmptyFailed(KeyError);
        } else if data[container].keys != [] {
          data := data[container := Dicts.Empty()];
          assert Sound(data);
          SaveData();
          result := Cleared;
        } else {
          result := AlreadyEmpty;
        }
      } else {
        result := Aborted;
      }
    }

    /** delete_from_inbox(id, container): a KeyError when the key is absent. */
    method DeleteFromInbox(id: Key, container: Name) returns (outcome: Outcome)
      requires Valid()
      modifies this
      ensures Valid()
      ensures Holds(old(data), container, id) ==>
        outcome == Normal && data == Remove(old(data), container, id) && file == Some(data)
      ensures !Holds(old(data), container, id) ==>
        outcome == Raised(KeyError) && data == old(data) && file == old(file)
    {
      if !Holds(data, container, id) {
        return Raised(KeyError);
      }
      data := Remove(data, container, id);
      assert Sound(data);
      SaveData();
      outcome := Normal;
    }

    /** complete(id, container), with `now` the formatted completion time. */
    method Complete(id: Key, container: Name, now: string) returns (outcome: Outcome)
      requires Valid()
      modifies this
      ensures Valid()
      ensures Holds(old(data), container, id) ==>
        outcome == Normal && data == CompleteIn(old(data), id, container, now) && file == Some(data)
      ensures !Holds(old(data), container, id) ==>
        outcome == Raised(KeyError) && data == old(data) && file == old(file)
    {
      if !Holds(data, container, id) {
        return Raised(KeyError);
      }
      var text := data[container].vals[id];
      data := StoreCreating(data, Completed, id, Done(now, text));
      assert Sound(data);
      outcome := DeleteFromInbox(id, container);
    }

    /** new_action(id): the next input line becomes the action under `id`. */
    method NewAction(id: Key, lines: seq<string>) returns (rest: seq<string>, outcome: Outcome)
      requires Valid()
      modifies this
      ensures Valid()
      ensures lines == [] ==> outcome == Raised(EOFError) && rest == lines && data == old(data) && file == old(file)
      ensures lines != [] ==>
        && outcome == Normal && rest == lines[1..]
        && data == Store(old(data), Actions, id, Text(lines[0])) && file == Some(data)
    {
      if lines == [] {
        return lines, Raised(EOFError);
      }
      data := Store(data, Actions, id, Text(lines[0]));
      assert Sound(data);
      SaveData();
      return lines[1..], Normal;
    }

    /** new_appointment(id): a description, then dates until one is
        confirmed; without an `id` the frozen default is the key. */
    method NewAppointment(id: Option<Key>, lines: seq<string>, parse: DateParser)
      returns (rest: seq<string>, outcome: Outcome)
      requires Valid()
      modifies this
      ensures Valid()
      ensures lines == [] ==> outcome == Raised(EOFError) && data == old(data) && file == old(file)
      ensures lines != [] ==> match ConfirmedDate(lines[1..], parse)
        case Failed(e) => outcome == Raised(e) && data == old(data) && file == old(file)
        case Got(when, more) =>
          && outcome == Normal && rest == more && file == Some(data)
          && data == Store(old(data), Scheduled, id.GetOr(appointmentDefault), Appointment(when, lines[0]))
    {
      if lines == [] {
        return lines, Raised(EOFError);
      }
      var text := lines[0];
      rest := lines[1..];
      var ok := false;
      var when := "";
      while !ok
        invariant !ok ==> ConfirmedDate(rest, parse) == ConfirmedDate(lines[1..], parse)
        invariant ok ==> ConfirmedDate(lines[1..], parse) == Got(when, rest)
        decreases |rest|, !ok
      {
        if rest == [] {
          return rest, Raised(EOFError);
        }
        var parsed := parse(rest[0]);
        if parsed.None? {
          return rest, Raised(ValueError);
        }
        when := parsed.value;
        if |rest| < 2 {
          return rest, Raised(EOFError);
        }
        var isok := Lower(rest[1]);
        rest := rest[2..];
        if 'y' in isok {
          ok := true;
        }
      }
      data := Store(data, Scheduled, id.GetOr(appointmentDefault), Appointment(when, text));
      assert Sound(data);
      SaveData();
      outcome := Normal;
    }

    /** new_project(id): the desired outcome, then a short name; the record
        has no next_actions field. */
    method NewProject(id: Option<Key>, lines: seq<string>) returns (rest: seq<string>, outcome: Outcome)
      requires Valid()
      modifies this
      ensures Valid()
      ensures |lines| < 2 ==> outcome == Raised(EOFError) && data == old(data) && file == old(file)
      ensures |lines| >= 2 ==>
        && outcome == Normal && rest == lines[2..] && file == Some(data)
        && data == Store(old(data), Projects, id.GetOr(projectDefault), Project(lines[1], lines[0], None))
    {
      if |lines| < 2 {
        return lines, Raised(EOFError);
      }
      data := Store(data, Projects, id.GetOr(projectDefault), Project(lines[1], lines[0], None));
      assert Sound(data);
      SaveData();
      return lines[2..], Normal;
    }

    /** Branch (a): new_action(id) reads the action, then the item leaves
        the inbox. */
    method SettleAction(id: Key, more: seq<string>) returns (step: Step, rest: seq<string>)
      requires Valid() && Holds(data, Inbox, id)
      modifies this
      ensures Valid()
      ensures more == [] ==> step == Halted(EOFError) && data == old(data) && file == old(file)
      ensures more != [] ==>
        && step == Settled && rest == more[1..]
        && data == Apply(old(data), id, Act(more[0])) && file == Some(data)
    {
      ghost var before := data;
      var left, o := NewAction(id, more);
      if o.Raised? {
        return Halted(o.error), more;
      }
      ApplyMoves(before, id, Act(more[0]));
      o := DeleteFromInbox(id, Inbox);
      return Settled, left;
    }

    /** Branch (c): new_appointment(id) reads the description and a date
        until one is confirmed, then the item leaves the inbox. */
    method SettleAppointment(id: Key, more: seq<string>, parse: DateParser) returns (step: Step, rest: seq<string>)
      requires Valid() && Holds(data, Inbox, id)
      modifies this
      ensures Valid()
      ensures more == [] ==> step == Halted(EOFError) && data == old(data) && file == old(file)
      ensures more != [] ==> match ConfirmedDate(more[1..], parse)
        case Failed(e) => step == Halted(e) && data == old(data) && file == old(file)
        case Got(when, after) =>
          && step == Settled && rest == after
          && data == Apply(old(data), id, Schedule(more[0], when)) && file == Some(data)
    {
      ghost var before := data;
      var left, o := NewAppointment(Some(id), more, parse);
      if o.Raised? {
        return Halted(o.error), more;
      }
      ApplyMoves(before, id, Schedule(more[0], ConfirmedDate(more[1..], parse).value));
      o := DeleteFromInbox(id, Inbox);
      return Settled, left;
    }

    /** Branch (p): new_project(id) reads the outcome and the short name;
        the item stays in the inbox. */
    method SettleProject(id: Key, more: seq<string>) returns (step: Step, rest: seq<string>)
      requires Valid() && Holds(data, Inbox, id)
      modifies this
      ensures Valid()
      ensures |more| < 2 ==> step == Halted(EOFError) && data == old(data) && file == old(file)
      ensures |more| >= 2 ==>
        && step == Settled && rest == more[2..]
        && data == Apply(old(data), id, Plan(more[0], more[1])) && file == Some(data)
    {
      var left, o := NewProject(Some(id), more);
      if o.Raised? {
        return Halted(o.error), more;
      }
      return Settled, left;
    }

    /** Branch (d): the "Done?" question; only an answer with a y settles
        the item. */
    method SettleDone(id: Key, more: seq<string>) returns (step: Step, rest: seq<string>)
      requires Valid() && Holds(data, Inbox, id)
      modifies this
      ensures Valid()
      ensures |more| < 2 ==> step == Halted(EOFError) && data == old(data) && file == old(file)
      ensures |more| >= 2 && 'y' in Lower(more[1]) ==>
        && step == Settled && rest == more[2..]
        && data == Apply(old(data), id, DidIt) && file == Some(data)
      ensures |more| >= 2 && 'y' !in Lower(more[1]) ==>
        step == Again && rest == more[2..] && data == old(data) && file == old(file)
    {
      if |more| < 2 {
        return Halted(EOFError), more;
      }
      var done := Lower(more[1]);
      rest := more[2..];
      if 'y' in done {
        SettleDiscard(id, DidIt);
        step := Settled;
      } else {
        step := Again;
      }
    }

    /** Branches (d), confirmed, and (t): the item only leaves the inbox;
        (d) saves the document once more. */
    method SettleDiscard(id: Key, a: Answer)
      requires Valid() && Holds(data, Inbox, id) && (a.DidIt? || a.Trash?)
      modifies this
      ensures Valid() && data == Apply(old(data), id, a) && file == Some(data)
    {
      var o := DeleteFromInbox(id, Inbox);
      if a.DidIt? {
        SaveData();
      }
    }

    /** Branches (w) and (r): the inbox entry is copied into 'waiting' or
        'reference', created when missing, then it leaves the inbox. */
    method SettleCreating(id: Key, a: Answer)
      requires Valid() && Holds(data, Inbox, id) && (a.Wait? || a.File?)
      modifies this
      ensures Valid() && data == Apply(old(data), id, a) && file == Some(data)
    {
      var item := data[Inbox].vals[id];
      ApplyMoves(data, id, a);
      data := StoreCreating(data, Destination(a), id, item);
      assert Sound(data);
      var o := DeleteFromInbox(id, Inbox);
    }

    /** Branch (s): the inbox entry is copied into 'someday_maybe', it
        leaves the inbox, and the document is saved once more. */
    method SettleDefer(id: Key)
      requires Valid() && Holds(data, Inbox, id)
      modifies this
      ensures Valid() && data == Apply(old(data), id, Defer) && file == Some(data)
    {
      var item := data[Inbox].vals[id];
      ApplyMoves(data, id, Defer);
      data := Store(data, SomedayMaybe, id, item);
      assert Sound(data);
      var o := DeleteFromInbox(id, Inbox);
      SaveData();
    }

    /** One presentation of inbox item `id` (the body of
        process_inbox_item without its recursive call). */
    method PresentItem(id: Key, lines: seq<string>, parse: DateParser) returns (step: Step, rest: seq<string>)
      requires Valid() && Holds(data, Inbox, id)
      modifies this
      ensures Valid()
      ensures match ReadAnswer(lines, parse)
        case Failed(e) => step == Halted(e) && data == old(data) && file == old(file)
        case Got(a, more) =>
          && rest == more && Consumed(lines, more)
          && (if Represents(a) then step == Again && data == old(data) && file == old(file)
              else step == Settled && data == Apply(old(data), id, a) && file == Some(data))
    {
      if lines == [] {
        return Halted(EOFError), lines;
      }
      var actionable := Lower(lines[0]);
      var choice := Disposition(actionable);
      step, rest := Respond(id, choice, lines[1..], parse);
    }

    /** The branch of process_inbox_item that the menu letter `choice`
        picks, reading the lines after the response. */
    method Respond(id: Key, choice: Option<char>, more: seq<string>, parse: DateParser) returns (step: Step, rest: seq<string>)
      requires Valid() && Holds(data, Inbox, id)
      modifies this
      ensures Valid()
      ensures match ReadBranch(choice, more, parse)
        case Failed(e) => step == Halted(e) && data == old(data) && file == old(file)
        case Got(a, after) =>
          && rest == after
          && (if Represents(a) then step == Again && data == old(data) && file == old(file)
              else step == Settled && data == Apply(old(data), id, a) && file == Some(data))
    {
      ghost var answer := ReadBranch(choice, more, parse);
      if choice == Some('a') {
        assert more != [] ==> answer == Got(Act(more[0]), more[1..]);
        step, rest := SettleAction(id, more);
      } else if choice == Some('d') {
        step, rest := SettleDone(id, more);
      } else if choice == Some('c') {
        assert more == [] ==> answer == Failed(EOFError);
        step, rest := SettleAppointment(id, more, parse);
      } else if choice == Some('w') {
        assert answer == Got(Wait, more);
        SettleCreating(id, Wait);
        step, rest := Settled, more;
      } else {
        step, rest := RespondFurther(id, choice, more);
      }
    }

    /** The branches of process_inbox_item after (w). */
    method RespondFurther(id: Key, choice: Option<char>, more: seq<string>) returns (step: Step, rest: seq<string>)
      requires Valid() && Holds(data, Inbox, id)
      modifies this
      ensures Valid()
      ensures match ReadFurther(choice, more)
        case Failed(e) => step == Halted(e) && data == old(data) && file == old(file)
        case Got(a, after) =>
          && rest == after
          && (if Represents(a) then step == Again && data == old(data) && file == old(file)
              else step == Settled && data == Apply(old(data), id, a) && file == Some(data))
    {
      ghost var answer := ReadFurther(choice, more);
      if choice == Some('p') {
        assert |more| >= 2 ==> answer == Got(Plan(more[0], more[1]), more[2..]);
        step, rest := SettleProject(id, more);
      } else if choice == Some('s') {
        assert answer == Got(Defer, more);
        SettleDefer(id);
        step, rest := Settled, more;
      } else if choice == Some('r') {
        assert answer == Got(File, more);
        SettleCreating(id, File);
        step, rest := Settled, more;
      } else if choice == Some('t') {
        assert answer == Got(Trash, more);
        SettleDiscard(id, Trash);
        step, rest := Settled, more;
      } else {
        assert answer == Got(Invalid, more);
        step, rest := Again, more;
      }
    }

    /** process_inbox_item: present the item until an answer settles it. */
    method ProcessInboxItem(id: Key, lines: seq<string>, parse: DateParser) returns (rest: seq<string>, outcome: Outcome)
      requires Valid() && Holds(data, Inbox, id)
      modifies this
      ensures Valid()
      ensures match Triage(lines, parse)
        case Failed(e) => outcome == Raised(e) && rest == lines && data == old(data) && file == old(file)
        case Got(a, more) => outcome == Normal && rest == more && data == Apply(old(data), id, a) && file == Some(data)
    {
      rest := lines;
      while true
        invariant Valid() && data == old(data) && file == old(file)
        invariant Triage(rest, parse) == Triage(lines, parse)
        decreases |rest|
      {
        var step, more := PresentItem(id, rest, parse);
        match step
        case Settled => return more, Normal;
        case Halted(e) => return lines, Raised(e);
        case Again => rest := more;
      }
    }

    /** process_inbox: triage every key of the inbox as it stood when the
        pass began, in insertion order; False on an empty inbox. */
    method ProcessInbox(lines: seq<string>, parse: DateParser)
      returns (nonEmpty: bool, rest: seq<string>, outcome: Outcome)
      requires Valid()
      modifies this
      ensures Valid()
      ensures nonEmpty <==> old(data)[Inbox].keys != []
      ensures var s := InboxPass(Triaging(parse), old(data), old(data)[Inbox].keys, 0, lines);
        && data == s.data && rest == s.rest && outcome == s.outcome
        && file == if s.saved then Some(data) else old(file)
    {
      var keylist := data[Inbox].keys;
      if |keylist| == 0 {
        return false, lines, Normal;
      }
      nonEmpty := true;
      rest := lines;
      ghost var saved := false;
      var i := 0;
      while i < |keylist|
        invariant i <= |keylist| && Valid()
        invariant InboxPass(Triaging(parse), old(data), keylist, 0, lines)
          == if saved then Saved(InboxPass(Triaging(parse), data, keylist, i, rest))
             else InboxPass(Triaging(parse), data, keylist, i, rest)
        invariant file == if saved then Some(data) else old(file)
        decreases |keylist| - i
      {
        if !Holds(data, Inbox, keylist[i]) {
          return true, rest, Raised(KeyError);
        }
        var more, o := ProcessInboxItem(keylist[i], rest, parse);
        if o.Raised? {
          return true, rest, o;
        }
        saved := true;
        rest := more;
        i := i + 1;
      }
      outcome := Normal;
    }

    /** print_actions, with the trash branch deleting from 'actions'. */
    method PrintActions(lines: seq<string>, clock: seq<string>) returns (rest: seq<string>, outcome: Outcome)
      requires Valid() && |clock| >= |lines|
      modifies this
      ensures Valid()
      ensures var s := ActionsSession(old(data), lines, clock);
        data == s.data && rest == s.rest && outcome == s.outcome
        && file == if s.saved then Some(data) else old(file)
    {
      rest := lines;
      var times := clock;
      ghost var saved := false;
      while true
        invariant Valid() && |times| >= |rest|
        invariant ActionsSession(old(data), lines, clock)
          == if saved then Saved(ActionsSession(data, rest, times)) else ActionsSession(data, rest, times)
        invariant file == if saved then Some(data) else old(file)
        decreases |rest|
      {
        var keylist := data[Actions].keys;
        if !ActionsPrintable(data) {
          return rest, Raised(TypeError);
        }
        if rest == [] {
          return rest, Raised(EOFError);
        }
        var now := times[0];
        var cmd := ParseCommand(Lower(rest[0]));
        assert ActionsRound(data, rest, times) == Perform(data, cmd, rest[1..], now);
        times := times[1..];
        rest := rest[1..];
        if cmd.action == Some('q') {
          return rest, Normal;
        }
        if cmd.num.Some? && cmd.num.value != 0 && cmd.num.value >= |keylist| {
          continue;
        }
        if cmd.action == Some('t') || cmd.action == Some('d') {
          if cmd.num.None? {
            return rest, Raised(TypeError);
          }
          if cmd.num.value >= |keylist| {
            return rest, Raised(IndexError);
          }
          var key := keylist[cmd.num.value];
          KeysIn(data[Actions], key);
          if cmd.action == Some('t') {
            if rest == [] {
              return rest, Raised(EOFError);
            }
            var confdelete := Lower(rest[0]);
            rest := rest[1..];
            if 'y' in confdelete {
              var o := DeleteFromInbox(key, Actions);
              saved := true;
            }
          } else {
            var o := Complete(key, Actions, now);
            saved := true;
          }
        }
      }
    }

    /** The body of process_projects for project `p`, which has no next
        actions: an empty list is set, a next action is read and stored
        under `stamp`, and `stamp` becomes the project's one next action. */
    method FillProject(p: Key, stamp: Key, lines: seq<string>) returns (rest: seq<string>, outcome: Outcome)
      requires Valid() && Holds(data, Projects, p) && data[Projects].vals[p].Project?
      modifies this
      ensures Valid()
      ensures var e := old(data)[Projects].vals[p];
        var d0 := Store(old(data), Projects, p, e.(nextActions := Some([])));
        if lines == [] then
          data == d0 && rest == lines && outcome == Raised(EOFError) && file == old(file)
        else
          && data == Store(Store(d0, Actions, stamp, Text(lines[0])), Projects, p, e.(nextActions := Some([stamp])))
          && rest == lines[1..] && outcome == Normal && file == Some(data)
    {
      var e := data[Projects].vals[p];
      data := Store(data, Projects, p, e.(nextActions := Some([])));
      rest, outcome := NewAction(stamp, lines);
      if outcome.Raised? {
        return;
      }
      data := Store(data, Projects, p, e.(nextActions := Some([stamp])));
      SaveData();
    }

    /** The body of process_projects' loop for project `p`. */
    method VisitProject(p: Key, stamp: Key, lines: seq<string>) returns (rest: seq<string>, outcome: Outcome)
      requires Valid()
      modifies this
      ensures Valid()
      ensures var v := Visit(old(data), p, lines, stamp);
        data == v.data && rest == v.rest && outcome == v.outcome
        && file == if v.file.Some? then v.file else old(file)
    {
      rest := lines;
      if !Holds(data, Projects, p) {
        return rest, Raised(KeyError);
      }
      var e := data[Projects].vals[p];
      match NextActions(e) {
        case Err(err) =>
          return rest, Raised(err);
        case Ok(na) =>
          if na != [] {
            return rest, Normal;
          }
          rest, outcome := FillProject(p, stamp, lines);
      }
    }

    /** process_projects, with a missing next_actions field read as an
        empty list; `stamps[i]` is the clock reading taken for the i-th
        project. */
    method ProcessProjects(lines: seq<string>, stamps: seq<Key>) returns (rest: seq<string>, outcome: Outcome)
      requires Valid() && |stamps| >= |data[Projects].keys|
      modifies this
      ensures Valid()
      ensures var s := ProjectsPass(old(data), old(data)[Projects].keys, lines, stamps);
        data == s.data && rest == s.rest && outcome == s.outcome
        && file == if s.file.Some? then s.file else old(file)
    {
      var keys := data[Projects].keys;
      var i := 0;
      rest := lines;
      ghost var last: Option<Data> := None;
      while i < |keys|
        invariant 0 <= i <= |keys| && Valid()
        invariant ProjectsPass(old(data), keys, lines, stamps)
          == After(last, ProjectsPass(data, keys[i..], rest, stamps[i..]))
        invariant file == if last.Some? then last else old(file)
        decreases |keys| - i
      {
        ghost var v := Visit(data, keys[i], rest, stamps[i]);
        VisitAt(data, keys, i, rest, stamps);
        rest, outcome := VisitProject(keys[i], stamps[i], rest);
        if outcome.Raised? {
          return;
        }
        AfterAfter(last, v.file, ProjectsPass(data, keys[i + 1..], rest, stamps[i + 1..]));
        if v.file.Some? {
          last := v.file;
        }
        i := i + 1;
      }
      assert keys[i..] == [];
      outcome := Normal;
    }
  }
}
