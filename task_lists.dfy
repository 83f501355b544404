/** The helpers quickstart.py and gootd.py share around the Google Tasks
    calls (the two files have the same code for them): list titles made
    into Python-style names, the UTC offset written for ISO date-times, the
    map from list names to list ids, and the ids of a list's tasks. */
module TaskLists {
  import opened Py
  import opened Dicts

  // ---------------------------------------------------------------------------
  // pythonize

  /** `s.replace(target, replacement)` for single characters: every occurrence. */
  function Replace(s: string, target: char, replacement: char): (r: string)
    ensures |r| == |s|
    ensures forall i :: 0 <= i < |s| ==> r[i] == (if s[i] == target then replacement else s[i])
    decreases |s|
  {
    if s == [] then []
    else
      var rest := Replace(s[1..], target, replacement);
      [if s[0] == target then replacement else s[0]] + rest
  }

  /** What pythonize makes of one character. */
  function NameChar(c: char): char {
    if c == ' ' then '_' else LowerChar(c)
  }

  /** pythonize(s) = `s.lower().replace(' ', '_')`. */
  function Pythonize(s: string): (r: string)
    ensures |r| == |s|
    ensures ' ' !in r
    ensures forall i :: 0 <= i < |s| ==> r[i] == NameChar(s[i])
  {
    LowerAt(s);
    var r := Replace(Lower(s), ' ', '_');
    assert forall i :: 0 <= i < |r| ==> r[i] != ' ';
    r
  }

  /** The name of a list is lower case: no upper-case letter survives. */
  lemma PythonizeLower(s: string)
    ensures forall i :: 0 <= i < |s| ==> !IsUpper(Pythonize(s)[i])
  {
    LowerSpec(s);
  }

  /** Names are already pythonized: pythonizing again changes nothing. */
  lemma PythonizeIdempotent(s: string)
    ensures Pythonize(Pythonize(s)) == Pythonize(s)
  {
    var p := Pythonize(s);
    forall i | 0 <= i < |p|
      ensures Pythonize(p)[i] == p[i]
    {
      LowerSpec(s);
      assert p[i] != ' ';
      assert !IsUpper(p[i]);
    }
  }

  /** The example of the docstring: "Hello World" becomes "hello_world". */
  lemma HelloWorld(s: string)
    requires s == "Hello World"
    ensures Pythonize(s) == "hello_world"
  {
    var hello, space, world := s[..5], s[5..6], s[6..];
    assert s == (hello + space) + world;
    PythonizeAppend(hello + space, world);
    PythonizeAppend(hello, space);
    var r := Pythonize(hello);
    assert r[0] == 'h' && r[1] == 'e' && r[2] == 'l' && r[3] == 'l' && r[4] == 'o';
    r := Pythonize(world);
    assert r[0] == 'w' && r[1] == 'o' && r[2] == 'r' && r[3] == 'l' && r[4] == 'd';
    r := Pythonize(space);
    assert r[0] == '_';
  }

  /** Pythonizing works character by character. */
  lemma PythonizeAppend(a: string, b: string)
    ensures Pythonize(a + b) == Pythonize(a) + Pythonize(b)
  {
    var p, q := Pythonize(a + b), Pythonize(a) + Pythonize(b);
    forall i | 0 <= i < |p|
      ensures p[i] == q[i]
    {
      PythonizeAppendAt(a, b, i);
    }
  }

  lemma PythonizeAppendAt(a: string, b: string, i: nat)
    requires i < |a| + |b|
    ensures Pythonize(a + b)[i] == (Pythonize(a) + Pythonize(b))[i]
  {
    if i < |a| {
      assert (a + b)[i] == a[i];
    } else {
      assert (a + b)[i] == b[i - |a|];
    }
  }

  // ---------------------------------------------------------------------------
  // tz_offset's format step

  /** `f'{hours:+03}:00'`: always a sign, the magnitude's digits padded
      with zeros to a width of three with the sign, then ":00". */
  function Offset(hours: int): (r: string)
    ensures |r| >= 6 && r[|r| - 3..] == ":00"
    ensures r[0] == (if hours >= 0 then '+' else '-')
    ensures AllDigits(r[1..|r| - 3]) && DigitsValue(r[1..|r| - 3]) == (if hours >= 0 then hours else -hours)
    ensures -100 < hours < 100 ==> |r| == 6
  {
    var magnitude: nat := if hours >= 0 then hours else -hours;
    var digits := NatToString(magnitude);
    var padded := if |digits| < 2 then "0" + digits else digits;
    assert AllDigits(padded) && DigitsValue(padded) == magnitude by {
      if |digits| < 2 {
        assert padded[..|padded| - 1] == "0";
        assert DigitsValue("0") == 10 * DigitsValue([]) + 0;
      }
    }
    assert magnitude < 100 ==> |digits| <= 2 by {
      if magnitude < 100 {
        NatToStringShort(magnitude);
      }
    }
    var r := [if hours >= 0 then '+' else '-'] + padded + ":00";
    assert r[1..|r| - 3] == padded;
    r
  }

  /** A number below 100 has at most two digits. */
  lemma NatToStringShort(n: nat)
    requires n < 100
    ensures |NatToString(n)| <= 2
  {
    if n >= 10 {
      assert NatToString(n) == NatToString(n / 10) + [DigitChar(n % 10)];
    }
  }

  /** The examples of the docstring. */
  lemma OffsetExamples()
    ensures Offset(-4) == "-04:00"
    ensures Offset(9) == "+09:00"
  {
    assert NatToString(4) == "4";
    assert NatToString(9) == "9";
  }

  // ---------------------------------------------------------------------------
  // The list-name to list-id map

  /** A task list as the Tasks API describes it. */
  datatype TaskList = TaskList(title: string, id: string)

  /** The map after storing each list's id under its pythonized title, in
      order: `lists[pythonize(item['title'])] = item['id']`. */
  function ListIds(items: seq<TaskList>): (lists: Dict<string>)
    ensures lists.Valid()
    ensures items == [] ==> lists.keys == []
    decreases |items|
  {
    if items == [] then Empty()
    else
      var last := items[|items| - 1];
      Put(ListIds(items[..|items| - 1]), Pythonize(last.title), last.id)
  }

  /** The names in the map are exactly the pythonized titles. */
  lemma {:induction false} ListIdsNames(items: seq<TaskList>, name: string)
    ensures name in ListIds(items).vals <==> exists i :: 0 <= i < |items| && Pythonize(items[i].title) == name
    decreases |items|
  {
    if items != [] {
      var init := items[..|items| - 1];
      ListIdsNames(init, name);
      if name in ListIds(init).vals {
        var i :| 0 <= i < |init| && Pythonize(init[i].title) == name;
        assert items[i] == init[i];
      }
      if exists i :: 0 <= i < |items| && Pythonize(items[i].title) == name {
        var i :| 0 <= i < |items| && Pythonize(items[i].title) == name;
        if i < |init| {
          assert init[i] == items[i];
        }
      }
    }
  }

  /** Each name maps to the id of the last list with that name: a later
      list whose title pythonizes the same overwrites an earlier one. */
  lemma {:induction false} ListIdsLastWins(items: seq<TaskList>, i: nat)
    requires i < |items|
    requires forall j :: i < j < |items| ==> Pythonize(items[j].title) != Pythonize(items[i].title)
    ensures Pythonize(items[i].title) in ListIds(items).vals
    ensures ListIds(items).vals[Pythonize(items[i].title)] == items[i].id
    decreases |items|
  {
    var init := items[..|items| - 1];
    if i < |init| {
      assert init[i] == items[i];
      ListIdsLastWins(init, i);
    }
  }

  /** fetch_g_tasks / get_tasks: the loop filling `lists`. */
  method BuildListIds(items: seq<TaskList>) returns (lists: Dict<string>)
    ensures lists == ListIds(items)
  {
    lists := Dict([], map[]);
    for k := 0 to |items|
      invariant lists == ListIds(items[..k])
    {
      assert items[..k + 1][..k] == items[..k];
      lists := Put(lists, Pythonize(items[k].title), items[k].id);
    }
    assert items[..|items|] == items;
  }

  // ---------------------------------------------------------------------------
  // clear_g_list's ids

  /** A task as the Tasks API describes it. */
  datatype Task = Task(id: string, title: string)

  /** `[x['id'] for x in tasks]`: one id per task, in the tasks' order. */
  function TaskIds(tasks: seq<Task>): (ids: seq<string>)
    ensures |ids| == |tasks|
    ensures forall i :: 0 <= i < |tasks| ==> ids[i] == tasks[i].id
    decreases |tasks|
  {
    if tasks == [] then []
    else [tasks[0].id] + TaskIds(tasks[1..])
  }
}
