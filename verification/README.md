# Game Tracker — a verified model of the session tracker

The tracker polls the title of the foreground window, decides by keyword
matching whether it is a game, and keeps a table `date -> window title ->
seconds` of time spent in games. A session opens when a game title appears,
is closed and credited (`now - start`, under the current date) when the title
changes or stops being a game, and is credited once more at shutdown. The table
is saved every time more than 300 seconds have passed since the last save and
once at shutdown, and is loaded from the data file at start-up.

The model has six modules:

- `Wrappers` — the `Option` type.
- `Classifier` — `is_game`: the keyword set, ASCII lower/upper casing, substring
  occurrence, and the verdict; proved case-insensitive and not word-boundary
  aware.
- `Usage` — the table, read with a default of 0 per leaf (the source's nested
  `defaultdict`), the additive update of `record_session` and the overwriting
  update of `load_data`, each with its "every other leaf is unchanged" frame.
- `Persistence` — the data file as `json.load` returns it (missing, unreadable,
  corrupt, not an object, or an object listing dates with their titles), the
  merge loop of `load_data` as a function, and the document `save_data` writes;
  proved: last write wins per leaf, a failure part-way keeps what was already
  merged, and loading what was saved gives back the table.
- `Sessions` — the tracker's state as a value and each step of the loop as a
  function (transition, periodic save, tick, shutdown, a whole run), with the
  transition table, the state invariant and whole-session accounting proved.
- `Tracker` — the class `GameTracker`, whose fields the methods update in place
  as the source does (including the nested loops of `load_data`); each method's
  contract equates its new state with the step function of `Sessions`.

Time is integer seconds passed in as `now`; the date is passed in as `today`;
the foreground title is an `Option<string>` per poll; whether writing the data
file succeeds is a `diskOk` flag per save. Each save attempt is logged in
`saves` (the snapshot written, or `None` for a failed write).

The model follows the code as written, including these edges:

- The guards at main.py:77, 87 and 127 test `current_game and start_time` for
  truthiness, so a session whose start time is 0 never counts as open: it is
  neither credited nor closed by a non-game poll (`Sessions.Open`).
- `shutdown` credits the open session and saves but does not clear
  `current_game`/`start_time`.
- A date whose value is not an object makes `load_data` raise in the middle of
  its loop; the dates merged before it stay in the table
  (`Persistence.StopsAtNonObject`), so a damaged file does not always load as
  empty.
- A date stored with an empty table is dropped on load, so saving after loading
  reproduces the file only when no date has an empty table
  (`Persistence.EmptyDateIsDropped`, `Persistence.SaveLoadRoundTrip`).
- Case-insensitivity is proved for ASCII casing only. Under Unicode case mapping the verdict of main.py:56-61 is not case-insensitive: "rıot" (dotless i) upper-cases to "RIOT", whose lower-cased form contains "riot", while "rıot" itself contains no keyword.

## Model

| member | source | states |
|---|---|---|
| `Classifier.Keywords` | main.py:15-21 | the 24 lower-case keywords; `Classifier.IsGame` proves each has at least two letters, and `Classifier.SteamIsAGame`, `Classifier.NoWordBoundaries` and `Classifier.NotepadIsNotAGame` check titles against them |
| `Classifier.Occurs` | main.py:61 | Python's substring test `keyword in title`; `Classifier.InContext` proves an occurrence survives any surrounding text, and `Classifier.NotepadIsNotAGame` proves absence |
| `Classifier.Lower` | main.py:60 | the result has the input's length and each character is the input's character lower-cased |
| `Classifier.Upper` | main.py:56-61 | the result has the input's length and each character is the input's character upper-cased |
| `Classifier.IsGame` | main.py:56-61 | a title that is a game is present and at least two characters long; so an absent or empty title is never a game |
| `Classifier.CaseInsensitive` | main.py:58-61 | upper-casing or lower-casing a title never changes the verdict |
| `Classifier.LowerOfCased` | main.py:60 | lower-casing after upper-casing or after lower-casing equals lower-casing the original |
| `Classifier.LowerAppend` | main.py:60 | lower-casing distributes over concatenation |
| `Classifier.InContext` | main.py:61 | any text around a game title keeps it a game (the keyword match ignores word boundaries) |
| `Classifier.SteamIsAGame` | main.py:15-21 | "Steam - CS:GO" is a game |
| `Classifier.NoWordBoundaries` | main.py:15-21 | "wowzers" is a game because "wow" occurs in it |
| `Classifier.NotepadIsNotAGame` | main.py:15-21 | "Notepad" is not a game: no keyword occurs in "notepad" |
| `Usage.Add` | main.py:107 | the (date, title) leaf exists afterwards and grows by the duration from a default of 0; every other leaf keeps its presence and value; the date set gains only that date |
| `Usage.Put` | main.py:31 | the (date, title) leaf exists afterwards and holds exactly the value; every other leaf keeps its presence and value |
| `Usage.AddKeepsWellFormed` | main.py:107 | adding a non-negative duration keeps all leaves non-negative and no date's table empty |
| `Usage.PutKeepsWellFormed` | main.py:31 | writing a non-negative value keeps all leaves non-negative and no date's table empty |
| `Persistence.MergeTitles` | main.py:30-31 | the inner loop of `load_data`; `Persistence.MergeTitlesLeaf` states its effect on every leaf and `Persistence.MergeTitlesWellFormed` the invariant it keeps |
| `Persistence.MergeDates` | main.py:29-35 | the outer loop of `load_data` with the exception that ends it; `Persistence.MergeDatesLeaf`, `Persistence.StopsAtNonObject` and `Persistence.IncompleteIsFinal` state its behaviour |
| `Persistence.Load` | main.py:23-35 | `load_data`; a missing, unreadable, corrupt or non-object file leaves the table as it was (`Sessions.InitState`), a document is merged (`Persistence.MergeDatesLeaf`), and loading a saved table gives it back (`Persistence.SaveLoadRoundTrip`) |
| `Persistence.EncodeTable` | main.py:41 | the pairs `json.dump` writes for one date; `Persistence.MergeEncodedTable` proves that loading them adds exactly that table |
| `Persistence.Encode` | main.py:41 | the document `json.dump` writes; `Persistence.SaveLoadRoundTrip` proves that loading it gives back the table |
| `Persistence.MergeTitlesLeaf` | main.py:30-31 | merging one date's titles sets each listed leaf to the last value listed for it and leaves every other leaf unchanged |
| `Persistence.MergeDatesLeaf` | main.py:29-31 | loading a document whose dates are all objects completes, sets each listed leaf to its last listed value (overwrite, not sum) and leaves every other leaf unchanged |
| `Persistence.IncompleteIsFinal` | main.py:32-35 | once the load has raised, later entries change nothing |
| `Persistence.StopsAtNonObject` | main.py:29-35 | a date whose value is not an object ends the load with exactly the entries before it merged |
| `Persistence.MergeTitlesWellFormed` | main.py:30-31 | merging non-negative durations keeps the table non-negative with no empty date |
| `Persistence.MergeDatesWellFormed` | main.py:29-31 | loading a file with non-negative durations keeps the table non-negative with no empty date |
| `Persistence.MergeEncodedTable` | main.py:30-31 | loading the pairs `json.dump` writes for one date adds exactly that date's table to the row |
| `Persistence.MergeEncoded` | main.py:29-31 | loading the saved document into a table with none of its dates yields the union of the two |
| `Persistence.SaveLoadRoundTrip` | main.py:23-43 | loading what `save_data` wrote gives back the saved table, when no date in it has an empty table |
| `Persistence.EmptyDateIsDropped` | main.py:29-31 | a date with an empty table in the file is absent after loading |
| `Sessions.Init` | main.py:7-12 | the state after `__init__`; `Sessions.InitState` proves it idle, with no saves, an empty table on every load failure, and the invariant |
| `Sessions.Open` | main.py:77 | the guard `current_game and start_time` (also at main.py:87 and 127); `Sessions.NonGameStops`, `Sessions.NonGameWhileIdle`, `Sessions.OtherGameSwitches`, `Sessions.ShutdownSavesOnce` and `Sessions.OneSession` state what happens when it holds and when it does not |
| `Sessions.Record` | main.py:104-107 | `record_session` on the state; its effect on each leaf is the contract of `Usage.Add` |
| `Sessions.Save` | main.py:37-43 | `save_data` on the state; `Sessions.AutoSaveRule` and `Sessions.ShutdownSavesOnce` state the snapshot it appends |
| `Sessions.Transition` | main.py:74-92 | the session transition of one poll; `Sessions.SameGameContinues`, `Sessions.OtherGameSwitches`, `Sessions.NonGameStops` and `Sessions.NonGameWhileIdle` give its table row by row |
| `Sessions.AutoSave` | main.py:94-97 | the periodic save; `Sessions.AutoSaveRule` states when it fires and what it changes |
| `Sessions.Tick` | main.py:71-97 | one poll; `Sessions.TickKeepsInv` proves it keeps the invariant and `Sessions.TickMonotone` that it never loses or shrinks a leaf |
| `Sessions.Shutdown` | main.py:125-130 | `shutdown`; `Sessions.ShutdownSavesOnce` states the credit and the single save |
| `Sessions.Run` | main.py:70-99 | the loop over all polls; `Sessions.RunKeepsInv`, `Sessions.RunMonotone`, `Sessions.OneSession` and `Sessions.SteamScenario` state its behaviour |
| `Sessions.InitState` | main.py:7-12 | a fresh tracker is idle with no saves; a missing, unreadable, corrupt or non-object file leaves the table empty; with non-negative stored durations the state invariant holds |
| `Sessions.SameGameContinues` | main.py:74-75 | a game poll whose title equals the open title verbatim changes nothing |
| `Sessions.OtherGameSwitches` | main.py:74-83 | a game poll with another title credits the open session (if open) with `now - start` under today's date, then opens the new title at `now` |
| `Sessions.NonGameStops` | main.py:85-92 | a non-game or absent poll while a session is open credits it with `now - start` and clears title and start |
| `Sessions.NonGameWhileIdle` | main.py:85-92 | a non-game or absent poll with no open session changes nothing |
| `Sessions.AutoSaveRule` | main.py:94-97 | a save happens exactly when more than 300 seconds passed since the last one, appends the current table and sets the last-save time to now; otherwise nothing changes |
| `Sessions.TickKeepsInv` | main.py:70-97 | a poll keeps title and start set together, a set title a game, all durations non-negative and no date empty, given the clock is not behind the session start |
| `Sessions.RunKeepsInv` | main.py:70-99 | the loop keeps that invariant over any run of polls whose clock never goes backwards |
| `Sessions.TickMonotone` | main.py:71-97 | a poll, with the clock not behind the session start, keeps every existing leaf and never lowers any leaf |
| `Sessions.RunMonotone` | main.py:70-99 | over any chronological run from a state satisfying the invariant, every existing leaf survives and no leaf decreases; with `Sessions.InitState` this covers load followed by tracking |
| `Sessions.RunAppend` | main.py:70-99 | running two stretches of polls in turn equals running them together |
| `Sessions.SessionStaysOpen` | main.py:74-83 | from idle, polls that keep showing one game title keep one session open from the first poll and record nothing |
| `Sessions.OneSession` | main.py:70-97 | such a session followed by a non-game poll credits the title, under the closing date, with the time from its first poll to the closing poll, changes no other leaf (neither its presence nor its value), and leaves the tracker idle |
| `Sessions.SteamScenario` | main.py:70-99 | polls None, "Steam - CS:GO", "Steam - CS:GO", "Notepad" at 0, 15, 30, 45 s record one 30-second Steam session, nothing for Notepad, and no save |
| `Sessions.ShortSession` | main.py:70-99 | for any game title and any non-game title, the polls none, game, game, non-game at 0, 15, 30, 45 s leave the tracker idle with exactly 30 s credited to the game title and no save |
| `Sessions.ShutdownSavesOnce` | main.py:125-130 | shutdown credits the open session with `now - start`, then saves exactly once, the snapshot being the table after the credit; the session fields are left as they were |
| `Sessions.LoadRecordSaveScenario` | main.py:29-43 | loading `{"2024-01-01": {"Dota 2": 120}}`, recording 60 s of "Dota 2" on 2024-01-02 and saving writes both days, the loaded value kept as it was |
| `Tracker.GameTracker.constructor` | main.py:7-12 | the new tracker is idle, has loaded the file into an empty table and has no saves |
| `Tracker.GameTracker.LoadData` | main.py:23-35 | the nested loops leave the table equal to the merge of the file into the old table |
| `Tracker.GameTracker.SaveData` | main.py:37-43 | exactly one save attempt is appended: the current table, or a failed write |
| `Tracker.GameTracker.RecordSession` | main.py:104-107 | the table becomes the old table with the duration added at (today, title); nothing else changes |
| `Tracker.GameTracker.Observe` | main.py:74-92 | the new state is the session transition of the old state for the observed title |
| `Tracker.GameTracker.Tick` | main.py:71-97 | the new state is one tick of the state machine from the old state, and the state invariant is kept when the clock is not behind the session start |
| `Tracker.GameTracker.Shutdown` | main.py:125-130 | the new state is the shutdown step from the old state |
| `Tracker.GameTracker.Track` | main.py:63-102 | after the run, the state is the shutdown step applied to the loop over all polls, started with the last-save time set to the start time |

## Left out

- `get_active_window` (main.py:45-54) is a Windows call; each poll's title is an input, `None` when the call fails.
- File access and JSON: `os.path.exists`, `open`, `json.load` and `json.dump` are represented by the `StoredFile` value a load receives and by the snapshot a save appends; the text format and key order are not modelled.
- What a failed `save_data` leaves on disk (the file is opened for writing before `json.dump` runs, so it may be left truncated) is not modelled: a failed write is only logged as `None`.
- JSON leaf values other than numbers, and the duplicate-key handling of `json.load`, are not modelled: durations in the file are integers.
- `time.time`, `time.strftime` and `time.sleep(15)`: the clock and the date are inputs to each poll; the 15-second cadence is not modelled.
- Durations are integer seconds rather than floats.
- `KeyboardInterrupt` (main.py:101-102) can arrive at any moment; the model only stops between two polls, by calling `Shutdown`.
- `show_stats` (main.py:109-123) and every `print`: console output with float hour arithmetic.
- `str.lower` is modelled on ASCII letters only; Unicode case mappings are not.
