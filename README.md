# pygtd in Dafny

This project models the core of *pygtd*, a set of small Python scripts for
the "Getting Things Done" method, and proves properties of the model.

## The GTD bucket store

`pygtd.py` and its earlier revision `pychieve/pygtd.py` keep one JSON document. The document is a dictionary of *buckets*:

- `inbox`, `actions`, `projects`, `someday_maybe`, `waiting_for`, `scheduled` and `reference`;
- `waiting` and `completed`, which the scripts create on demand.

Each bucket maps a time-stamp key to an entry. The scripts capture text into the inbox. They then *triage* each inbox item:

- The operator's reply picks one disposition: the first menu letter of `adcwpsrt` that occurs anywhere in the lower-cased reply.
- For `a`, `c`, `w`, `s` and `r`, the item is re-filed under the same key in the destination bucket and removed from the inbox.
- For `p`, the item is filed as a project and stays in the inbox.
- For `t`, and for `d` when confirmed, the item is removed.
- An unconfirmed `d`, or a reply with no menu letter, presents the same item again.

`pygtd.py` also has three further commands:

- a next-actions menu, with a command parser and "done" and "trash" commands;
- a pass that gives every project without next actions a new one;
- a project listing.

The model files are these:

- `gtd.dfy`: the document shared by both revisions. It holds the entries, the bucket names and the default document. It also holds the reading of a reply from standard input, given as the sequence of lines still unread; running out of lines is `EOFError`.
- `pygtd.dfy`: `pygtd.py`.
  - The module-level `data` and the JSON file are the fields of class `State`, and every command is a method on it.
  - What a command does is stated by a pure function of the old document: `Apply`, `InboxPass`, `ActionsSession` and `ProjectsPass`. Lemmas prove what the command promises about that function.
- `pychieve_gtd.dfy`: `pychieve/pygtd.py`. This revision files `w` into a `waiting` bucket that its default document lacks. The module also models the container selection of `main`.
- `oopygtd.py` models the class-based rewrite in `oopygtd.dfy`:
  - per-class id counters;
  - item lists appended to and, for the calendar, sorted in place;
  - `import_json`, which copies every source key into `created`.
- `waist_tracker.dfy`: `pychieve/waist_tracker.py`. It covers the date-keyed measurements, the latest-date lookup, `add_record` and the once-a-day backup.
- `csv_records.dfy`: `pychieve/.scrap_csv_parse.py`. The same measurements are stored as `date,number` lines. `add_record` reads the lines, replaces or appends the record for a date, sorts by date and writes them back.
- `task_lists.dfy`: the helpers `quickstart.py` and `gootd.py` share around the Google Tasks calls. Both files have the same code for them, so each helper is defined once. The table cites `quickstart.py`; the copies in `gootd.py` are `pythonize` (gootd.py:63-69), the offset format (59), the list-id loop (142-144) and the task ids (175). The helpers are:
  - `pythonize`;
  - the `+HH:00` offset format;
  - the list-title to list-id map;
  - the list of task ids.

Four helper modules support these:

- `py.dfy` models the Python built-ins used: exceptions, `str.lower`, `str.split`, `int()` and `str()` of an integer.
- `dicts.dfy` is an insertion-ordered dictionary.
- `lex.dfy` is Python's string order, with `YYYY-MM-DD` keys ordered like the dates they name.
- `sorting.dfy` is a stable sort by key.

### Where the code and its description disagree

The model follows the code in each case:

- A date the parser refuses is described as re-prompted. The code lets the parser's `ValueError` escape from `new_appointment` (pygtd.py:163).
- A missing key is described as recovered locally. The code raises `KeyError` from `del` and from dictionary reads, for example pygtd.py:127 and pychieve/pygtd.py:181.

## Model

| member | source | states |
|---|---|---|
| Gtd.NameOf | pygtd.py:29-37 | a top-level key read from the file names a bucket whose JSON key is that same text |
| Gtd.NameRoundTrip | pygtd.py:29-37 | every bucket name the scripts use is read back from its own JSON key |
| Gtd.DefaultData | pygtd.py:29-37 | the initial document has exactly the seven named buckets, each empty |
| Gtd.StoreExisting | pygtd.py:212-218 | when the bucket exists, the try/except that creates a missing bucket before storing does the same as the plain assignment |
| Gtd.HoldsListed | pygtd.py:98 | a key is held by a bucket exactly when it is in that bucket's key list, so the snapshot `list(data['inbox'].keys())` lists the inbox's items |
| Gtd.EmptyBucket | pygtd.py:83-94 | clears the container exactly when the confirmation contains 'y', the container exists and is non-empty; otherwise the document is unchanged; no 'y' aborts; a 'y' for a missing container is a KeyError |
| Gtd.DispositionSpec | pygtd.py:195-239 | no disposition when no menu letter occurs in the reply; otherwise the chosen letter occurs in the reply and no earlier menu letter does |
| Gtd.MenuOrderWins | pygtd.py:195-236 | with several menu letters the earliest in menu order wins wherever it stands ("ta" is a next action, "sw" is waiting) |
| Gtd.ConfirmedDate | pygtd.py:161-167 | when a date is confirmed, the date loop has read at least one line and what remains is a suffix of the input |
| Gtd.ReadBranch | pygtd.py:195-239 | the branch a letter picks reads only a prefix of the lines after the reply |
| Gtd.ReadFurther | pygtd.py:219-239 | the p/s/r/t/invalid branches read only a prefix of the lines after the reply |
| Gtd.ReadAnswer | pygtd.py:186-194 | one presentation of an item consumes at least the reply line |
| Gtd.Triage | pygtd.py:182-239 | a triage that ends does so with an answer that does not present the item again, having consumed input |
| Gtd.InvalidRepresents | pygtd.py:237-239 | a reply without any menu letter presents the same item again and consumes only that reply |
| Gtd.NotDoneRepresents | pygtd.py:198-207 | a (d) whose "Done?" answer has no 'y' presents the same item again after three lines |
| PyGtd.Apply | pygtd.py:195-236 | settling an item keeps the document well-formed |
| PyGtd.ApplyMoves | pygtd.py:195-234 | for a/c/w/s/r the filed entry is stored under the same key in the destination (created if missing), then the key is removed from the inbox |
| PyGtd.ApplyEffect | pygtd.py:195-236 | a settled answer changes the destination bucket (by the filed entry under the same key) and the inbox (key removed, except for p); every other bucket stays unchanged |
| PyGtd.PlanEffect | pygtd.py:219-220 | (p) stores the project under the key, keeps the item in the inbox and changes no other bucket |
| PyGtd.MoveEffect | pygtd.py:195-234 | a/c/w/s/r put the filed entry in the destination, delete the key from the inbox, and change no other bucket |
| PyGtd.DropEffect | pygtd.py:198-236 | a confirmed (d) and (t) delete the key from the inbox and change no other bucket |
| PyGtd.ApplyHolds | pygtd.py:195-236 | after settling, the key is still in the inbox exactly for (p), and is in the destination bucket for a/c/w/p/s/r |
| PyGtd.ApplyKeeps | pygtd.py:195-236 | settling one key neither adds nor removes any other inbox key and keeps every other key of every other bucket |
| PyGtd.FiledOnce | pygtd.py:195-236 | a key held by no other bucket ends up in exactly the destination (and, for p, also the inbox) |
| PyGtd.FileFrom | pygtd.py:102-103 | settling the snapshot keys in order keeps the document well-formed |
| PyGtd.FileFromKeeps | pygtd.py:102-103 | settling the snapshot keys leaves every other key where it was |
| PyGtd.FileFromFiles | pygtd.py:102-103 | after settling the snapshot keys in order, each settled key is out of the inbox unless its answer was p, and is in its destination |
| PyGtd.ReadAnswers | pygtd.py:102-103 | reading answers for n items gives at most n, exactly n when no exception stopped it, none of them one that re-presents |
| PyGtd.PassData | pygtd.py:102-103 | the inbox pass's document is the answers read, applied in snapshot order to the snapshot keys |
| PyGtd.PassEnds | pygtd.py:102-103 | the pass ends with the input and outcome of reading the answers, and has saved exactly when it settled at least one item |
| PyGtd.InboxPass | pygtd.py:97-104 | the inbox pass keeps the document well-formed |
| PyGtd.InboxPassFiles | pygtd.py:97-104 | process_inbox visits the snapshot keys in insertion order: document, unread input, outcome and saving are those of the answers read, and each settled key leaves the inbox (not for p) for its destination |
| PyGtd.CompletePass | pygtd.py:97-104 | after a complete pass, the inbox holds exactly the snapshot keys answered with p, and each other moved key is in its destination |
| PyGtd.CompleteIn | pygtd.py:133-143 | complete moves the entry into 'completed' (created if missing) as {completion date, original entry} under the same key, removes it from its container, and changes nothing else |
| PyGtd.LeadingDigits | pygtd.py:252-255 | the number is the run of digits at the very start of the command, and it is maximal |
| PyGtd.FirstLetter | pygtd.py:253-260 | the action is the first lower-case letter anywhere in the command, or none |
| PyGtd.ParseCommand | pygtd.py:251-260 | a number is present exactly when the command starts with a digit; the action is the first letter |
| PyGtd.CommandExamples | pygtd.py:249 | "1 d" is number 1 with action d, "5t" is number 5 with action t, and "d1" has no number |
| PyGtd.TrashAsWritten | pygtd.py:267-271 | the trash command as written succeeds exactly when the key is in the inbox, and never touches 'actions' |
| PyGtd.TrashAsWrittenFails | pygtd.py:267-271 | trashing a next action that is not also an inbox item raises KeyError |
| PyGtd.TrashAsWrittenCounterexample | pygtd.py:267-271 | a document with one next action and an empty inbox: trashing action 0 raises KeyError |
| PyGtd.TrashAction | pygtd.py:267-271 | the corrected trash removes exactly that key from 'actions', keeps the order and values of the other actions, and changes no other bucket |
| PyGtd.ActionsRound | pygtd.py:243-282 | a round that goes on has read at least one line; a round that stops leaves the document unchanged and unsaved; the round takes one clock reading |
| PyGtd.Perform | pygtd.py:261-282 | acting on a parsed command keeps the document well-formed and reads at most the lines after it; q, and the TypeError, IndexError and EOFError stops, leave the document unchanged and unsaved |
| PyGtd.RoundActs | pygtd.py:243-260 | when every action prints, a round acts on the command of its first line at its clock reading |
| PyGtd.ActionsSession | pygtd.py:242-282 | the menu loop keeps the document well-formed and never reads more input than it is given; each round takes the next clock reading |
| PyGtd.OutOfRange | pygtd.py:264-266 | a nonzero number past the end of the list changes nothing and only consumes the command and its round's clock reading |
| PyGtd.TrashRemovesNumbered | pygtd.py:267-273 | "#t" confirmed with 'y' removes action number # and saves, then the menu continues on the new document with the next clock readings |
| PyGtd.TrashRound | pygtd.py:267-271 | one round of "#t" plus 'y' yields the document without action number # and marks it saved |
| PyGtd.PerformTrash | pygtd.py:267-271 | "#t" followed by a line containing 'y' deletes action number # from 'actions', saves and consumes both lines |
| PyGtd.DoneRound | pygtd.py:274-276 | "#d" completes action number # at the round's clock reading and saves, then the menu continues with the next readings |
| PyGtd.DoneStep | pygtd.py:274-276 | one round of "#d" yields CompleteIn of action number # at the round's clock reading, marked saved |
| PyGtd.PerformDone | pygtd.py:274-276 | "#d" on an existing action completes it at the given time, saves and reads nothing more |
| PyGtd.NextActionsAsWritten | pygtd.py:292 | reading 'next_actions' as written succeeds exactly for a project record that has the field; a plain string is a TypeError |
| PyGtd.NewProjectUnlisted | pygtd.py:173-179 | a project filed by new_project has no 'next_actions', so reading it as written raises KeyError |
| PyGtd.NextActions | pygtd.py:292-294 | the corrected read succeeds for every project record, treats a missing field as no actions, and agrees with the as-written read wherever that succeeds |
| PyGtd.NewProjectListed | pygtd.py:173-179 | with the corrected read, a project filed by new_project has no next actions |
| PyGtd.FiledProjectListing | pygtd.py:305-315 | with the corrected read, a project filed by the triage, alone in 'projects', is listed as its text followed by the no-next-action warning |
| PyGtd.After | pygtd.py:298-301 | a run after a save of `saved` keeps its document, input and outcome, and its file is its own last save, or `saved` if it made none |
| PyGtd.AfterAfter | pygtd.py:298-301 | of two saves in a row, the later one is what the file holds |
| PyGtd.Visit | pygtd.py:291-301 | visiting one project: a save happens only after an action line was read, and the file then holds the new document; a visit that saves nothing and raises nothing changes nothing and reads nothing; an exception leaves the input unread and nothing saved |
| PyGtd.VisitStep | pygtd.py:291-301 | the pass is the visit of its first project followed, unless that raised, by the pass over the rest on the visit's document and input |
| PyGtd.VisitAt | pygtd.py:291-301 | the same from the i-th project on |
| PyGtd.ProjectsPass | pygtd.py:289-302 | the projects pass keeps the document well-formed |
| PyGtd.ProjectsPassKeeps | pygtd.py:289-302 | the projects pass keeps every action and every project, and leaves a project it does not visit unchanged |
| PyGtd.ProjectsPassFills | pygtd.py:291-301 | after a complete pass every visited project has a next action: one that had none gets exactly the new action stored under its clock reading, and one that had some is unchanged |
| PyGtd.NewActionStored | pygtd.py:298-301 | the new action is stored under its stamp, the project's list becomes just that stamp, and other projects are unchanged |
| PyGtd.SkipAt | pygtd.py:294 | a project that has next actions is skipped without reading input |
| PyGtd.NewAt | pygtd.py:292-301 | a project with no next actions gets an empty list, then the action read from input, then the action's stamp, and the result is saved before the pass goes on |
| PyGtd.EndAt | pygtd.py:292-299 | input that ends at the prompt leaves the empty list in memory, not in the file, and raises EOFError |
| PyGtd.ActionLines | pygtd.py:314-315 | the action lines are printable exactly when every listed action exists, one line per action, in order |
| PyGtd.Listing | pygtd.py:310-315 | the listing succeeds exactly when every project is listable, with one heading per project: the project's text, in order |
| PyGtd.ListProjects | pygtd.py:305-315 | list_projects succeeds exactly when every project is listable, and then prints one heading per project |
| PyGtd.ListableEach | pygtd.py:310 | every project key in the list is listable exactly when every project in the bucket is |
| PyGtd.State.constructor | pygtd.py:29-37 | on loading the module, the document is the default one and the file is as found |
| PyGtd.State.LoadData | pygtd.py:45-53 | a missing file is created from the document; otherwise the document becomes the file's |
| PyGtd.State.SaveData | pygtd.py:56-59 | the file holds the document, which is unchanged |
| PyGtd.State.AddToInbox | pygtd.py:68-73 | the text is stored in the inbox under the clock key and saved; a fresh key is appended last |
| PyGtd.State.Empty | pygtd.py:83-94 | empty reads one confirmation and acts as EmptyBucket says, saving only when it cleared; no input is an EOFError that changes nothing |
| PyGtd.State.DeleteFromInbox | pygtd.py:126-130 | removes exactly that key from that container and saves; a missing key is a KeyError that changes nothing |
| PyGtd.State.Complete | pygtd.py:133-143 | on a held key the document becomes CompleteIn and is saved; otherwise KeyError, nothing changed |
| PyGtd.State.NewAction | pygtd.py:146-155 | the line read is stored as an action under the given key and saved; no input is an EOFError that changes nothing |
| PyGtd.State.NewAppointment | pygtd.py:158-170 | the text and a confirmed date are stored under the key (the load-time default when none is given) and saved; a refused date or missing input changes nothing |
| PyGtd.State.NewProject | pygtd.py:173-179 | the outcome and short name read are stored as a project with no 'next_actions' under the key (default at load time) and saved |
| PyGtd.State.SettleAction | pygtd.py:195-197 | (a) stores the next action read and removes the item from the inbox |
| PyGtd.State.SettleAppointment | pygtd.py:208-210 | (c) stores the appointment with its confirmed date and removes the item; a refused date changes nothing |
| PyGtd.State.SettleProject | pygtd.py:219-220 | (p) stores the project and keeps the item in the inbox |
| PyGtd.State.SettleDone | pygtd.py:198-207 | (d) removes the item when "Done?" has a 'y', else the item is presented again with nothing changed |
| PyGtd.State.SettleDiscard | pygtd.py:235-236 | a confirmed (d) and (t) remove the item from the inbox and save |
| PyGtd.State.SettleCreating | pygtd.py:211-234 | (w) and (r) store the item under the same key in 'waiting' or 'reference', creating the bucket if missing, and remove it from the inbox |
| PyGtd.State.SettleDefer | pygtd.py:221-225 | (s) moves the item to 'someday_maybe' and saves |
| PyGtd.State.PresentItem | pygtd.py:182-239 | one presentation either fails with the read's exception and no change, or presents again with no change, or applies the answer and saves |
| PyGtd.State.Respond | pygtd.py:195-239 | the branch for the chosen letter applies its answer, or presents again, or raises, as the reading says |
| PyGtd.State.RespondFurther | pygtd.py:219-239 | the p/s/r/t/invalid branches apply their answer or present again |
| PyGtd.State.ProcessInboxItem | pygtd.py:182-239 | process_inbox_item applies the first settling answer Triage reads and saves; on an exception nothing changes |
| PyGtd.State.ProcessInbox | pygtd.py:97-104 | returns whether the inbox was non-empty; the new document, unread input, outcome and file are those of InboxPass over the snapshot keys |
| PyGtd.State.PrintActions | pygtd.py:242-282 | the menu loop's document, unread input, outcome and file are those of ActionsSession, with one clock reading taken per round |
| PyGtd.State.FillProject | pygtd.py:292-301 | a project without actions gets an empty list, then one new action under the stamp, which becomes its list, and is saved; with no input only the empty list is set |
| PyGtd.State.VisitProject | pygtd.py:291-301 | the loop body for one project leaves the document, input, outcome and file that Visit gives |
| PyGtd.State.ProcessProjects | pygtd.py:289-302 | process_projects ends with the document, input, outcome and file of ProjectsPass over the project keys |
| PychieveGtd.Settle | pychieve/pygtd.py:164-197 | settling fails exactly for (w) when there is no 'waiting' bucket, with KeyError |
| PychieveGtd.SettleEffect | pychieve/pygtd.py:164-197 | a successful settle creates no bucket, puts the filed entry in the destination for a/c/w/p/s/r, removes the key from the inbox except for p, and changes nothing else |
| PychieveGtd.Pass | pychieve/pygtd.py:83-86 | the later revision's inbox pass keeps the document well-formed |
| PychieveGtd.PassAgrees | pychieve/pygtd.py:83-86 | with a 'waiting' bucket present, the later revision's pass is exactly the first revision's |
| PychieveGtd.PassFilesWithWaiting | pychieve/pygtd.py:83-86 | with 'waiting' present, the pass settles the snapshot keys in order from the answers read, and each key leaves the inbox except for p |
| PychieveGtd.PassKeepsWaitingMissing | pychieve/pygtd.py:180-183 | the pass never creates the 'waiting' bucket |
| PychieveGtd.WaitRaises | pychieve/pygtd.py:180-183 | without 'waiting', a (w) raises KeyError before the delete: document unchanged, item still in the inbox, nothing saved |
| PychieveGtd.DefaultLacksWaiting | pychieve/pygtd.py:27-35 | the default document has no 'waiting' bucket |
| PychieveGtd.SelectFirst | pychieve/pygtd.py:329-341 | the container is that of the first container flag set, in the order inbox, next, projects, someday_maybe, waiting_for, scheduled; none when no flag is set |
| PychieveGtd.NextActionsNotABucket | pychieve/pygtd.py:332-333 | the container 'next_actions' is no bucket of the document, so emptying it with 'y' raises KeyError |
| PychieveGtd.DefaultKeyShared | pychieve/pygtd.py:127-147 | two calls relying on the same default key write the same key: the second overwrites the first and the key order does not change |
| PychieveGtd.Run | pychieve/pygtd.py:239-362 | main keeps the document well-formed |
| PychieveGtd.Captured | pychieve/pygtd.py:352-353 | capturing the text keeps the document well-formed |
| PychieveGtd.Triaged | pychieve/pygtd.py:355-356 | the --process-inbox stage keeps the document well-formed |
| PychieveGtd.Finish | pychieve/pygtd.py:358-362 | the --empty stage keeps the document well-formed |
| PychieveGtd.RunCaptures | pychieve/pygtd.py:352-356 | with no container and no --empty, the text is appended to the inbox under the fresh stamp, and a requested inbox pass runs on that document |
| PychieveGtd.RunEmptyWithoutContainer | pychieve/pygtd.py:358-362 | --empty without a container changes nothing and reads nothing |
| PychieveGtd.RunQuick | pychieve/pygtd.py:345-347 | --quick reads one line into the inbox and stops |
| PychieveGtd.SettleCopy | pychieve/pygtd.py:186-195 | (s) and (r) copy the item into the existing bucket and remove it from the inbox, as Settle says |
| PychieveGtd.CopyApplies | pychieve/pygtd.py:186-195 | (s) and (r) write the existing bucket without creating it, then delete the key from the inbox |
| PychieveGtd.SettleWait | pychieve/pygtd.py:180-183 | (w) without 'waiting' halts with KeyError and changes nothing; with it the item moves there and is saved |
| PychieveGtd.Respond | pychieve/pygtd.py:164-200 | the branch for the chosen letter applies Settle, presents again, or raises, as the reading and Settle say |
| PychieveGtd.RespondFurther | pychieve/pygtd.py:184-200 | the p/s/r/t/invalid branches apply Settle or present again |
| PychieveGtd.PresentItem | pychieve/pygtd.py:151-200 | one presentation fails, presents again, or applies Settle, as the reading and Settle say |
| PychieveGtd.ProcessInboxItem | pychieve/pygtd.py:151-200 | the first settling answer is applied by Settle and saved; any exception leaves document and file unchanged |
| PychieveGtd.ProcessInbox | pychieve/pygtd.py:83-86 | the document, input, outcome and file are those of Pass over the snapshot keys |
| PychieveGtd.RunMain | pychieve/pygtd.py:239-362 | main ends with the document, input and outcome of Run on the loaded document, and the file holds the document |
| PychieveGtd.TriageStage | pychieve/pygtd.py:355-356 | the inbox stage ends as Triaged says |
| PychieveGtd.EmptyStage | pychieve/pygtd.py:358-362 | the empty stage ends as Finish says |
| PychieveGtd.PassUnsaved | pychieve/pygtd.py:83-86 | a pass that saved nothing changed nothing |
| OoGtd.Bump | oopygtd.py:40 | a construction adds one to its own class's counter and to no other |
| OoGtd.FinalCounts | oopygtd.py:37-41 | after a series of constructions each class's counter is its start plus the number of its own constructions |
| OoGtd.IdsRun | oopygtd.py:37-41 | from program start, the n-th construction of a class gets id n, whatever other classes do |
| OoGtd.ClassCounters.constructor | oopygtd.py:37 | at import time no subclass has its own counter |
| OoGtd.ClassCounters.Next | oopygtd.py:40-41 | the counter of that class goes up by one and the new value is the id |
| OoGtd.NewItem | oopygtd.py:39-43 | a new item has its class's next id, is created at the clock reading and is not completed |
| OoGtd.Age | oopygtd.py:30-33 | the age is now minus created, non-negative exactly when created is not later than now; a key string in created is a TypeError |
| OoGtd.LineReadsBack | oopygtd.py:63-65 | for an item whose text is a string, a printed line starts with the item's id, followed by a space and the text |
| OoGtd.PrintLines | oopygtd.py:63-65 | one line per item, in list order, until an item whose text is not a string raises TypeError at the concatenation |
| OoGtd.PrintArgs | oopygtd.py:80-82 | the two print arguments of each item, in list order: its id as a string and its text, whatever value it is; for a string text they print as the inbox's line |
| OoGtd.Inbox.constructor | oopygtd.py:56-57 | the inbox holds the given items |
| OoGtd.Inbox.Add | oopygtd.py:59-61 | exactly one new inbox item with the text is appended at the end; earlier items are unchanged |
| OoGtd.Inbox.Print | oopygtd.py:63-65 | one "id text" line per item, in order, until an item whose text is not a string raises TypeError |
| OoGtd.NextActionList.constructor | oopygtd.py:77-78 | the list holds the given items |
| OoGtd.NextActionList.Print | oopygtd.py:80-82 | the print arguments of each item, in order: the id and the text, which may be any value and raises nothing |
| OoGtd.ItemList.constructor | oopygtd.py:94-96 | the list holds the given items |
| OoGtd.ByDate | oopygtd.py:138 | the sort key compares dates and is a total preorder |
| OoGtd.Calendar.constructor | oopygtd.py:130-131 | the calendar holds the given items |
| OoGtd.Calendar.Add | oopygtd.py:133-134 | the item is appended at the end |
| OoGtd.Calendar.PrintUpcoming | oopygtd.py:136-153 | the items become a permutation of the old ones sorted by date, all of them shown, whatever `days` is; an item without a date raises AttributeError and leaves the list unchanged |
| OoGtd.UpcomingOrder | oopygtd.py:138 | after the sort an earlier position never has a later date |
| OoGtd.TextField | oopygtd.py:191-203 | `value['text']` is a TypeError exactly for a string entry, and otherwise the record's text |
| OoGtd.Fields | oopygtd.py:177-206 | the inbox, actions and waiting loops construct the item from the value itself, whatever it is; the calendar fails exactly when the value is no appointment (TypeError for a string, else KeyError) or its date does not parse (ValueError); the completed loop fails exactly for a string |
| OoGtd.ImportFrom | oopygtd.py:177-206 | one loop imports at most one item per entry, and one per entry when it ends normally |
| OoGtd.ImportedItem | oopygtd.py:177-206 | the j-th imported item comes from the j-th entry, in order: its id continues its class's count, created is the entry's key, text and fields are the entry's, and a completed entry's item carries the completion date |
| OoGtd.PlainLoopsImportAll | oopygtd.py:177-199 | the inbox, actions and waiting loops never raise: every entry is imported, in order, with the entry's value, string or record, as the item's text |
| OoGtd.PlainText | oopygtd.py:177-199 | in those loops, the j-th item's text is the j-th entry's value |
| OoGtd.ImportFromCounts | oopygtd.py:177-206 | a loop advances only its class's counter, by one per item imported, and by at most one more on an error |
| OoGtd.ImportSources | oopygtd.py:171-206 | the import reads at most one batch per source bucket, and all five when it ends normally |
| OoGtd.WithoutWaiting | oopygtd.py:196 | a document without 'waiting' makes the import raise: at most the inbox, actions and calendar batches are read, nothing from 'completed', and the inbox batch is the usual one when its loop ends normally |
| OoGtd.ImportedAgeFails | oopygtd.py:30-33 | an imported item's age is a TypeError, because created holds the key string |
| OoGtd.ReadBucket | oopygtd.py:177-180 | the loop's items, counters and outcome are those of ImportFrom |
| OoGtd.ReadEntry | oopygtd.py:178-180 | one entry read gives the item ImportFrom puts first; an error is the one ImportFrom stops with |
| OoGtd.ImportJson | oopygtd.py:171-206 | each list gets its bucket's imported items appended in order, and the counters and outcome are those of ImportSources |
| OoGtd.ImportRest | oopygtd.py:182-186 | the actions loop, then the later ones, append as ImportSources says |
| OoGtd.ImportCalendar | oopygtd.py:188-193 | the calendar loop, then the later ones, append as ImportSources says |
| OoGtd.ImportLast | oopygtd.py:195-206 | the 'waiting' and 'completed' loops append as ImportSources says |
| WaistTracker.MaxKey | pychieve/waist_tracker.py:74 | `max` of the date keys is one of them and no key is greater |
| WaistTracker.CurrentOf | pychieve/waist_tracker.py:71-90 | an empty document gives False; otherwise a missing field (KeyError), a number (TypeError) or no dates (ValueError) fail, and a result is a stored measurement |
| WaistTracker.CurrentIsGreatest | pychieve/waist_tracker.py:73-76 | the measurement returned is the one at the greatest date key |
| WaistTracker.CurrentIsLatest | pychieve/waist_tracker.py:73-76 | for `YYYY-MM-DD` keys, the measurement returned is the one at the latest date |
| WaistTracker.Added | pychieve/waist_tracker.py:97-107 | a bad date or measurement is a ValueError, a missing 'waist' field a KeyError, a 'waist' number a TypeError; otherwise the waist measurement for the normalised date is set (added or overwritten), and every other date and field is unchanged |
| WaistTracker.AddedIsCurrent | pychieve/waist_tracker.py:97-107 | a record added for the latest date is then the current waist |
| WaistTracker.AddedTwice | pychieve/waist_tracker.py:106 | adding the same date twice keeps only the second measurement, and the shoulders are untouched |
| WaistTracker.Backup | pychieve/waist_tracker.py:20-27 | returns False with nothing copied when today's backup exists; otherwise copies the data file to it and returns True; with no data file, FileNotFoundError |
| WaistTracker.BackupOncePerDay | pychieve/waist_tracker.py:20-27 | a second backup on the same day returns False and copies nothing |
| WaistTracker.BackupKeepsData | pychieve/waist_tracker.py:20-27 | the backup never changes or removes the data file |
| WaistTracker.Tracker.constructor | pychieve/waist_tracker.py:15-17 | the module globals before `load_data` runs: no data, today's date, backups on; importing the module is this constructor followed by LoadData (waist_tracker.py:43) |
| WaistTracker.Tracker.BackupJson | pychieve/waist_tracker.py:20-27 | the files and result are those of Backup, and the data is untouched |
| WaistTracker.Tracker.LoadData | pychieve/waist_tracker.py:30-39 | the daily backup when enabled, then the data file's document; a missing file leaves the data as it was |
| WaistTracker.Tracker.SaveData | pychieve/waist_tracker.py:47-50 | the data file holds the document |
| WaistTracker.Tracker.AddRecord | pychieve/waist_tracker.py:97-107 | the document becomes Added's and True is returned; on an error the document is unchanged; no file is written |
| CsvRecords.ReadLineCases | pychieve/.scrap_csv_parse.py:65-71 | a line is parsed exactly when its first field is a date and its second an integer; it fails (IndexError) exactly when a date has no second field; otherwise it is skipped |
| CsvRecords.Collected | pychieve/.scrap_csv_parse.py:62-79 | reading fails only with IndexError, and only when some line has a date and no second field |
| CsvRecords.CollectedReplaces | pychieve/.scrap_csv_parse.py:73-76 | every record read with the new date is the new record |
| CsvRecords.CollectedKeeps | pychieve/.scrap_csv_parse.py:73-78 | every parsed line before the end of the file contributes its record, or the new one for the new date |
| CsvRecords.CollectedFrom | pychieve/.scrap_csv_parse.py:62-79 | every record read other than the new one has another date and comes from a parsed line |
| CsvRecords.ByDate | pychieve/.scrap_csv_parse.py:84 | the sort key compares date strings and is a total preorder |
| CsvRecords.Updated | pychieve/.scrap_csv_parse.py:81-84 | the records written are sorted by date and are the records read plus the new record when none had its date |
| CsvRecords.UpdatedOnce | pychieve/.scrap_csv_parse.py:81-83 | a new record not among those read is added exactly once |
| CsvRecords.Written | pychieve/.scrap_csv_parse.py:86-89 | one line per record, in order |
| CsvRecords.FormatReadsBack | pychieve/.scrap_csv_parse.py:88 | splitting a written line on ',' gives back the date and the number |
| CsvRecords.WrittenParses | pychieve/.scrap_csv_parse.py:88 | a written line is read back as the same record |
| CsvRecords.Rewritten | pychieve/.scrap_csv_parse.py:84-89 | the file is rewritten with the updated records, or the read's IndexError stops it |
| CsvRecords.Recorded | pychieve/.scrap_csv_parse.py:46-91 | a bad date or measurement is a ValueError before the file is opened; a missing file is FileNotFoundError; any other failure is an IndexError while reading |
| CsvRecords.Current | pychieve/.scrap_csv_parse.py:11-24 | no file gives None; an empty file is an IndexError; a number returned is never 0, because 0 is falsy |
| CsvRecords.CurrentOfWritten | pychieve/.scrap_csv_parse.py:11-24 | reading a written file gives the last record's number, or None when it is 0 |
| CsvRecords.RecordedIsCurrent | pychieve/.scrap_csv_parse.py:46-91 | after a record is added for a date not earlier than any in the file, get_current_waist returns its measurement (None for 0) |
| CsvRecords.LastIsEntry | pychieve/.scrap_csv_parse.py:84 | when no line has a later date, the new record is the last one written |
| CsvRecords.SortedLast | pychieve/.scrap_csv_parse.py:84 | in the sorted records no date is later than the last record's |
| CsvRecords.FromFileBefore | pychieve/.scrap_csv_parse.py:73-84 | when no line has a later date, every other written record has an earlier date than the new one |
| CsvRecords.CsvFiles.constructor | pychieve/.scrap_csv_parse.py:15 | the waist and shoulder files as found |
| CsvRecords.CsvFiles.AddRecord | pychieve/.scrap_csv_parse.py:46-91 | the waist file becomes Recorded's lines and True is returned; on an error the file is unchanged; the shoulder file is never touched |
| CsvRecords.RecordLines | pychieve/.scrap_csv_parse.py:50-89 | the lines written are those Recorded specifies |
| CsvRecords.Rewrite | pychieve/.scrap_csv_parse.py:58-89 | the read, update, sort and write loops give the lines Rewritten specifies |
| CsvRecords.ReadRecords | pychieve/.scrap_csv_parse.py:58-79 | the read loop fails exactly when Collected does; otherwise it returns Collected's records, with `update` set exactly when the new record is among them |
| CsvRecords.WriteLines | pychieve/.scrap_csv_parse.py:86-89 | the write loop emits Written's lines |
| TaskLists.Replace | quickstart.py:77 | every occurrence of the character is replaced and nothing else changes |
| TaskLists.Pythonize | quickstart.py:71-77 | same length, no space, each character lower-cased or a space made '_' |
| TaskLists.PythonizeLower | quickstart.py:77 | no upper-case letter survives |
| TaskLists.PythonizeIdempotent | quickstart.py:77 | pythonizing a name again changes nothing |
| TaskLists.HelloWorld | quickstart.py:74 | "Hello World" becomes "hello_world" |
| TaskLists.Offset | quickstart.py:67 | a sign ('+' exactly when hours >= 0), the magnitude's digits padded to two, then ":00"; six characters when the magnitude is below 100 |
| TaskLists.OffsetExamples | quickstart.py:60 | -4 gives "-04:00" and 9 gives "+09:00" |
| TaskLists.ListIds | quickstart.py:149-158 | no lists give an empty map |
| TaskLists.ListIdsNames | quickstart.py:155-158 | the names in the map are exactly the pythonized titles |
| TaskLists.ListIdsLastWins | quickstart.py:155-158 | each name maps to the id of the last list with that pythonized title |
| TaskLists.BuildListIds | quickstart.py:155-158 | the loop builds the map ListIds specifies |
| TaskLists.TaskIds | quickstart.py:192 | one id per task, in task order |
| Sorting.SortBy | pychieve/.scrap_csv_parse.py:84 | `sorted` by a key gives a sorted permutation of its input |
| Sorting.SortStable | pychieve/.scrap_csv_parse.py:84 | `sorted` is stable: the elements with any one key come out in their original order |
| Sorting.MatchingKeys | pychieve/.scrap_csv_parse.py:84 | the elements picked out for one key are exactly those of the input with that key |
| Lex.DateKeyOrder | pychieve/waist_tracker.py:74 | for `YYYY-MM-DD` keys the string order is the calendar order |
| Dicts.Put | pygtd.py:71 | `d[k] = v` sets that key; a new key goes last in insertion order and an existing one keeps its place |
| Py.Lower | pygtd.py:194 | `str.lower()` keeps the length |
| Py.LowerSpec | pygtd.py:194 | `str.lower()` leaves no upper-case letter and keeps every other character |
| Py.ParseInt | pychieve/waist_tracker.py:100 | `int()` succeeds only on a string with something besides white space |
| Py.ParseIntToString | pychieve/.scrap_csv_parse.py:68 | `int(str(n))` is n, also with trailing white space such as the line's newline |
| Dicts.Del | pygtd.py:127 | `del d[k]` removes that key only and keeps the order of the rest |

## Left out

- The Google Calendar and Tasks API calls, and OAuth, are left out. They are network calls through libraries outside the repository.
  - This covers `get_events`, `save_event`, `save_g_task`, `delete_g_task`, `complete_g_task` and the task fetches.
  - Only the pure helpers around them are modelled.
- File formats are left out: the `json`, `jsonpickle` and `shelve` encodings.
  - A file is modelled as the document last written. The JSON round trip is taken as exact.
  - In the `pygtd` scripts, `None` stands for a missing file.
  - This also leaves out `jpickle`, `junpickle` and the `shelve` read that ends `import_json`.
- The clock, `dateutil` and `pyperclip` become parameters:
  - clock readings are keys or integer seconds;
  - the date parser is a function returning the normalised date, or nothing where it raises `ValueError`;
  - the clipboard text is an argument.
- Keys are strings throughout, the form they take in the JSON file. `add_to_inbox` and `new_action` store under the float `time()` value in memory, while `process_projects` appends `str(id)`. The two forms of one key are not distinguished.
- Printing is not modelled, except the lines whose content the model states: `Inbox.print`, `NextActionList.print`, and the headings and actions of `list_projects`.
  - Prompts are not modelled.
  - Standard input is the sequence of lines still to read, and running out of them is `EOFError`.
- `timer` is left out. It loops until a KeyboardInterrupt and changes no state; the (d) branch that calls it is modelled without it.
- Floating point is left out:
  - `in_to_cm`, `cm_to_in`, `berate_user` and the ideal-size constants of `waist_tracker.py`;
  - the rounding of the UTC offset to whole hours in `tz_offset`. `TaskLists.Offset` formats an integer hour count.
- `days_remaining` and the day and hour text of `print_upcoming` are left out. A calendar date is modelled as an integer count of seconds.
- In `main` of every script, argparse is left out except the container selection and the order of the actions in `pychieve/pygtd.py`.
- The following are not part of this model:
  - `daily_revew`, `inbox_prompt`, `weekly_review` and `bigger_picture_review`, which only print and prompt;
  - `file_to_inbox`;
  - `main` of `pygtd.py` and `oopygtd.py`;
  - `get_ids`, which calls `.values()` on list objects.
- The following files are not part of this model: `pychieve/quick_add.py`, `countdown.py`, `template/`, and both `setup.py` files.
- The default argument `items=[]` of the list classes is not modelled. Each class has its own default list (oopygtd.py:56, 77, 95, 118, 130, 157), so two lists of the same class built without arguments would share one list object. Each list here is a separate object built from the items given.
- OoGtd.ImportJson requires the waiting-for and completed lists to be distinct objects. In `oopygtd.py` they are: `WaitingForList` and `CompletedItemList` each have their own default list.
- `import_json` is modelled over the document model of `gtd.dfy`. JSON values of other shapes are only distinguished as far as the model's entries go. The inbox, actions and waiting loops construct their items from any value, a record included. The calendar and completed loops index fields, so a string there raises TypeError.
- Text handling is ASCII only:
  - Py.Lower lowers only `A`-`Z`; `str.lower()` also lowers other scripts' capitals.
  - Py.ParseInt accepts ASCII digits, one sign and ASCII white space; `int()` also accepts other Unicode digits, Unicode white space and `_` between digits.
  - Py.IsSpace is ASCII white space only.
  - PyGtd.LeadingDigits reads ASCII digits; the regular expression `\d*` also matches other Unicode digits.
- `pychieve/.scrap_csv_parse.py` never binds `parser`, `WAIST_FILE` or `SHOULDER_FILE`, so as written it raises NameError at its first use of them (lines 15, 31 and 51). The model binds them as `pychieve/waist_tracker.py` does: `parser` is the date parser parameter and the two files are fields of `CsvFiles`.
- `waist_tracker.py`'s `main` is left out: its inch conversion and the report that follows. Its functions are modelled.
- The second revision is modelled through `PyGtd.State`. Its commands that do the same as the first revision's are the same methods, and only the triage and `main` are its own.
  - `load_data` (pychieve/pygtd.py:43-51) and `save_data` (54-57) are `LoadData` and `SaveData`.
  - `add_to_inbox` (60-66) is `AddToInbox`, and `empty` (69-80) is `Empty`.
  - `new_action` (115-124), `new_appointment` (127-139) and `new_project` (142-148) are `NewAction`, `NewAppointment` and `NewProject`.
  - Its `delete_from_inbox` (108-112) takes no container. The model calls the first revision's with the inbox.
  - Its default document (27-35) is the constructor's.
- `new_action`'s default argument in `pychieve/pygtd.py` is left out. The key is always passed in, as every call in the file does.
- CsvRecords.Collected: a line equal to "" ends the read loop, as `readline()` returns "" only at the end of the file. Lines are given with their newline kept, so no line in the middle of a file is "".
- PychieveGtd.Run, PychieveGtd.Captured, PychieveGtd.Triaged and PychieveGtd.Finish state only that the document stays well-formed. Their behaviour is stated by RunCaptures, RunEmptyWithoutContainer, RunQuick, PassFilesWithWaiting and WaitRaises.
- PychieveGtd.Pass states only well-formedness. Its behaviour is stated by PassAgrees and the lemmas after it.
- PyGtd.ActionsSession states only well-formedness and input bounds. Its behaviour is stated by OutOfRange, TrashRemovesNumbered, TrashRound and DoneRound.
- PyGtd.ActionsRound and PyGtd.Perform state only well-formedness, input bounds and that a stop changes nothing. Their behaviour per command is stated by RoundActs, PerformTrash and PerformDone.
- PyGtd.Apply, PyGtd.FileFrom and PyGtd.InboxPass state only well-formedness in their own contracts. Their behaviour is stated by ApplyEffect and the lemmas after it, by FileFromKeeps and FileFromFiles, and by InboxPassFiles and CompletePass.
- PyGtd.ProjectsPass states only well-formedness in its own contract. Its behaviour is stated by VisitStep, ProjectsPassKeeps and ProjectsPassFills.
- OoGtd.ImportFrom states only how many items a loop imports. What each item is is stated by ImportedItem and PlainLoopsImportAll.
- Py.Lower states only that the length is kept. What it does to each character is stated by LowerSpec.
- Py.ParseInt states only that a parsed string is not blank. The round trip with `str()` is stated by ParseIntToString.
- The trash command below is the corrected one of the first Findings row: "#t" confirmed with 'y' deletes the action from 'actions'. The code as written deletes the key from 'inbox' instead, and raises KeyError when the inbox lacks it. The project pass and the listing below read a project's next actions the corrected way of the second row: a missing 'next_actions' field means none. The code as written raises KeyError there.
- PyGtd.ActionsRound: its trash command is the corrected TrashAction, not the code as written.
- PyGtd.Perform: its trash command is the corrected TrashAction, not the code as written.
- PyGtd.ActionsSession: its trash command is the corrected TrashAction, not the code as written.
- PyGtd.TrashRound: its trash command is the corrected TrashAction, not the code as written.
- PyGtd.PerformTrash: its trash command is the corrected TrashAction, not the code as written.
- PyGtd.TrashRemovesNumbered: its trash command is the corrected TrashAction, not the code as written.
- PyGtd.State.PrintActions: its trash command is the corrected TrashAction, not the code as written.
- PyGtd.Visit: reads next actions with the corrected NextActions, so a project without the field is given a new action where the code as written raises KeyError.
- PyGtd.VisitStep: reads next actions with the corrected NextActions, so a project without the field is given a new action where the code as written raises KeyError.
- PyGtd.VisitAt: reads next actions with the corrected NextActions, so a project without the field is given a new action where the code as written raises KeyError.
- PyGtd.ProjectsPass: reads next actions with the corrected NextActions, so a project without the field is given a new action where the code as written raises KeyError.
- PyGtd.ProjectsPassKeeps: reads next actions with the corrected NextActions, so a project without the field is given a new action where the code as written raises KeyError.
- PyGtd.ProjectsPassFills: reads next actions with the corrected NextActions, so a project without the field is given a new action where the code as written raises KeyError.
- PyGtd.SkipAt: reads next actions with the corrected NextActions, so a project without the field is given a new action where the code as written raises KeyError.
- PyGtd.NewAt: reads next actions with the corrected NextActions, so a project without the field is given a new action where the code as written raises KeyError.
- PyGtd.EndAt: reads next actions with the corrected NextActions, so a project without the field is given a new action where the code as written raises KeyError.
- PyGtd.State.VisitProject: reads next actions with the corrected NextActions, so a project without the field is given a new action where the code as written raises KeyError.
- PyGtd.State.ProcessProjects: reads next actions with the corrected NextActions, so a project without the field is given a new action where the code as written raises KeyError.
- PyGtd.Listable: reads next actions with the corrected NextActions, so a project without the field is listed with the warning where the code as written raises KeyError.
- PyGtd.Listing: reads next actions with the corrected NextActions, so a project without the field is listed with the warning where the code as written raises KeyError.
- PyGtd.ListProjects: reads next actions with the corrected NextActions, so a project without the field is listed with the warning where the code as written raises KeyError.
- PyGtd.FiledProjectListing: reads next actions with the corrected NextActions, so a project without the field is listed with the warning where the code as written raises KeyError.

## Findings

| source | as written | input that shows it | evidently intended | confidence | as-written member | corrected member |
|---|---|---|---|---|---|---|
| pygtd.py:267-271 | the trash command of the next-actions menu calls `delete_from_inbox(keylist[num])`, whose container defaults to 'inbox' | a document with one next action and an empty inbox; command "0t", then "y" | delete the numbered action from 'actions' | not executed | PyGtd.TrashAsWrittenCounterexample | PyGtd.TrashRemovesNumbered |
| pygtd.py:292-314 | `process_projects` (line 292) and `list_projects` (lines 312 and 314) read `data['projects'][id]['next_actions']`, but `new_project` (pygtd.py:178) stores no 'next_actions' field | any project filed from the inbox with (p), then `process_projects` or `list_projects` | treat a missing field as no next actions | not executed | PyGtd.NewProjectUnlisted | PyGtd.FiledProjectListing |
