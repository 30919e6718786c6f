/**
 * The session state machine of the tracker as values: one observation per
 * poll closes, keeps or opens a session and folds closed sessions into the
 * usage table; a periodic and a final save write the table out.
 */
module Sessions {
  import opened Wrappers
  import opened Usage
  import opened Persistence
  import Classifier

  /** Seconds after the last save at which a poll saves again (strictly more than this). */
  const AutoSaveSeconds: int := 300

  /**
   * The tracker's state: the open session's title and start time, the usage
   * table, the time of the last save, and one entry per save attempt (the
   * snapshot written, or None when writing failed).
   */
  datatype Tracker = Tracker(
    game: Option<string>,
    start: Option<int>,
    usage: Store,
    lastSave: int,
    saves: seq<Option<Store>>)

  /** A fresh tracker after `__init__` has loaded `f`. */
  function Init(f: StoredFile): Tracker {
    Tracker(None, None, Load(map[], f), 0, [])
  }

  /**
   * The guard `current_game and start_time`: both set and both truthy, so a
   * session whose start time is 0 is never treated as open.
   */
  predicate Open(s: Tracker) {
    s.game.Some? && s.game.value != "" && s.start.Some? && s.start.value != 0
  }

  /** `record_session(game, d)` with the date of the recording. */
  function Record(s: Tracker, game: string, d: int, today: string): Tracker {
    s.(usage := Add(s.usage, today, game, d))
  }

  /** `save_data`: the whole table is written, or the write fails and is only reported. */
  function Save(s: Tracker, diskOk: bool): Tracker {
    s.(saves := s.saves + [if diskOk then Some(s.usage) else None])
  }

  /** The session transition of one poll. */
  function Transition(s: Tracker, window: Option<string>, now: int, today: string): Tracker {
    if Classifier.IsGame(window) then
      if window != s.game then
        var closed := if Open(s) then Record(s, s.game.value, now - s.start.value, today) else s;
        closed.(game := window, start := Some(now))
      else s
    else if Open(s) then
      Record(s, s.game.value, now - s.start.value, today).(game := None, start := None)
    else s
  }

  /** The periodic save at the end of a poll. */
  function AutoSave(s: Tracker, now: int, diskOk: bool): Tracker {
    if now - s.lastSave > AutoSaveSeconds then Save(s, diskOk).(lastSave := now) else s
  }

  /** One poll of the tracking loop. */
  function Tick(s: Tracker, window: Option<string>, now: int, today: string, diskOk: bool): Tracker {
    AutoSave(Transition(s, window, now, today), now, diskOk)
  }

  /** `shutdown`: close the open session, then save. */
  function Shutdown(s: Tracker, now: int, today: string, diskOk: bool): Tracker {
    var closed := if Open(s) then Record(s, s.game.value, now - s.start.value, today) else s;
    Save(closed, diskOk)
  }

  /** What one poll observes: the foreground title, the clock, the date, and whether a save would succeed. */
  datatype Poll = Poll(window: Option<string>, now: int, today: string, diskOk: bool)

  /** One poll of the loop, on what the poll observed. */
  function Step(s: Tracker, p: Poll): Tracker {
    Tick(s, p.window, p.now, p.today, p.diskOk)
  }

  /** The tracking loop over a sequence of polls. */
  function Run(s: Tracker, polls: seq<Poll>): Tracker
    decreases |polls|
  {
    if polls == [] then s
    else Step(Run(s, polls[..|polls| - 1]), polls[|polls| - 1])
  }

  /**
   * The state invariant: title and start time are set together, a set title
   * is a game, durations are non-negative and no date has an empty table.
   */
  ghost predicate Inv(s: Tracker) {
    && (s.game.Some? <==> s.start.Some?)
    && (s.game.Some? ==> Classifier.IsGame(s.game))
    && NonNegative(s.usage)
    && NoEmptyRows(s.usage)
  }

  /** The clock has not gone back past the open session's start. */
  predicate ClockOk(s: Tracker, now: int) {
    s.start.Some? ==> s.start.value <= now
  }

  /**
   * A fresh tracker is idle and starts from what the file held: an empty
   * table when the file is missing, unreadable, corrupt or not an object; it
   * satisfies the state invariant when the file's durations are non-negative.
   */
  lemma InitState(f: StoredFile)
    requires f.Document? ==> DurationsNonNegative(f.dates)
    ensures Init(f).game.None? && Init(f).start.None? && Init(f).saves == []
    ensures !f.Document? ==> Init(f).usage == map[]
    ensures Inv(Init(f))
  {
    if f.Document? {
      MergeDatesWellFormed(map[], f.dates);
    }
  }

  /** A game poll with the open session's own title (compared verbatim) changes nothing. */
  lemma SameGameContinues(s: Tracker, window: Option<string>, now: int, today: string)
    requires Classifier.IsGame(window) && window == s.game
    ensures Transition(s, window, now, today) == s
  {
  }

  /**
   * A game poll with another title closes the open session, crediting its
   * title with `now - start` under today's date, and opens one for the new
   * title starting now.
   */
  lemma OtherGameSwitches(s: Tracker, window: Option<string>, now: int, today: string)
    requires Classifier.IsGame(window) && window != s.game
    ensures var r := Transition(s, window, now, today);
      && r.game == window && r.start == Some(now)
      && r.usage == (if Open(s) then Add(s.usage, today, s.game.value, now - s.start.value) else s.usage)
      && r.lastSave == s.lastSave && r.saves == s.saves
  {
  }

  /** A poll that is not a game closes the open session, crediting it with `now - start`, and goes idle. */
  lemma NonGameStops(s: Tracker, window: Option<string>, now: int, today: string)
    requires !Classifier.IsGame(window) && Open(s)
    ensures var r := Transition(s, window, now, today);
      && r.game == None && r.start == None
      && r.usage == Add(s.usage, today, s.game.value, now - s.start.value)
      && r.lastSave == s.lastSave && r.saves == s.saves
  {
  }

  /** A poll that is not a game changes nothing when no session is open. */
  lemma NonGameWhileIdle(s: Tracker, window: Option<string>, now: int, today: string)
    requires !Classifier.IsGame(window) && !Open(s)
    ensures Transition(s, window, now, today) == s
  {
  }

  /**
   * The periodic save fires exactly when more than 300 seconds have passed
   * since the last one; it appends one snapshot of the table and moves the
   * last-save time to now. Nothing else changes.
   */
  lemma AutoSaveRule(s: Tracker, now: int, diskOk: bool)
    ensures var r := AutoSave(s, now, diskOk);
      && r.game == s.game && r.start == s.start && r.usage == s.usage
      && (now - s.lastSave > 300 ==>
            r.lastSave == now && r.saves == s.saves + [if diskOk then Some(s.usage) else None])
      && (now - s.lastSave <= 300 ==> r.lastSave == s.lastSave && r.saves == s.saves)
  {
  }

  /** Every poll keeps the state invariant, as long as the clock has not gone back past the session's start. */
  lemma TickKeepsInv(s: Tracker, window: Option<string>, now: int, today: string, diskOk: bool)
    requires Inv(s) && ClockOk(s, now)
    ensures Inv(Tick(s, window, now, today, diskOk))
    ensures ClockOk(Tick(s, window, now, today, diskOk), now)
  {
    if Open(s) {
      AddKeepsWellFormed(s.usage, today, s.game.value, now - s.start.value);
    }
  }

  /** Polls whose clock never goes backwards, starting no earlier than the open session. */
  predicate Chronological(s: Tracker, polls: seq<Poll>) {
    && (forall i | 0 < i < |polls| :: polls[i - 1].now <= polls[i].now)
    && (|polls| > 0 ==> ClockOk(s, polls[0].now))
  }

  /** The tracking loop keeps the state invariant over any chronological run of polls. */
  lemma {:induction false} RunKeepsInv(s: Tracker, polls: seq<Poll>)
    requires Inv(s) && Chronological(s, polls)
    ensures Inv(Run(s, polls))
    ensures |polls| > 0 ==> ClockOk(Run(s, polls), polls[|polls| - 1].now)
    decreases |polls|
  {
    if polls != [] {
      var init := polls[..|polls| - 1];
      var p := polls[|polls| - 1];
      RunKeepsInv(s, init);
      assert ClockOk(Run(s, init), p.now) by {
        if |init| > 0 {
          assert init[|init| - 1].now <= p.now;
        }
      }
      TickKeepsInv(Run(s, init), p.window, p.now, p.today, p.diskOk);
      assert Run(s, polls) == Step(Run(s, init), p);
    }
  }

  /**
   * Tracking never loses or shrinks a leaf: over any chronological run from a
   * state satisfying the invariant, every leaf that existed still exists and
   * holds at least what it held.
   */
  lemma {:induction false} RunMonotone(s: Tracker, polls: seq<Poll>, d: string, g: string)
    requires Inv(s) && Chronological(s, polls)
    ensures HasLeaf(s.usage, d, g) ==> HasLeaf(Run(s, polls).usage, d, g)
    ensures Seconds(Run(s, polls).usage, d, g) >= Seconds(s.usage, d, g)
    decreases |polls|
  {
    if polls != [] {
      var init := polls[..|polls| - 1];
      var p := polls[|polls| - 1];
      assert Chronological(s, init);
      RunMonotone(s, init, d, g);
      RunKeepsInv(s, init);
      var m := Run(s, init);
      assert ClockOk(m, p.now) by {
        if |init| > 0 {
          assert init[|init| - 1].now <= p.now;
        }
      }
      assert Run(s, polls) == Step(m, p);
      TickMonotone(m, p.window, p.now, p.today, p.diskOk, d, g);
    }
  }

  /** One poll never loses or shrinks a leaf when the clock is not behind the session start. */
  lemma TickMonotone(s: Tracker, window: Option<string>, now: int, today: string, diskOk: bool, d: string, g: string)
    requires ClockOk(s, now)
    ensures HasLeaf(s.usage, d, g) ==> HasLeaf(Tick(s, window, now, today, diskOk).usage, d, g)
    ensures Seconds(Tick(s, window, now, today, diskOk).usage, d, g) >= Seconds(s.usage, d, g)
  {
  }

  /** Running two stretches of polls one after the other is running them together. */
  lemma {:induction false} RunAppend(s: Tracker, a: seq<Poll>, b: seq<Poll>)
    ensures Run(s, a + b) == Run(Run(s, a), b)
    decreases |b|
  {
    if b == [] {
      assert a + b == a;
    } else {
      assert (a + b)[..|a + b| - 1] == a + b[..|b| - 1];
      RunAppend(s, a, b[..|b| - 1]);
    }
  }

  /** While the same game title keeps being observed, the session stays open from the first poll and nothing is recorded. */
  lemma {:induction false} SessionStaysOpen(s: Tracker, t: string, polls: seq<Poll>)
    requires s.game.None? && |polls| > 0 && Classifier.IsGame(Some(t))
    requires forall i | 0 <= i < |polls| :: polls[i].window == Some(t)
    ensures var r := Run(s, polls);
      r.game == Some(t) && r.start == Some(polls[0].now) && r.usage == s.usage
    decreases |polls|
  {
    var init := polls[..|polls| - 1];
    if init != [] {
      SessionStaysOpen(s, t, init);
    } else {
      assert Run(s, init) == s;
    }
  }

  /**
   * One session: from idle, a game title observed on consecutive polls and
   * then a poll that is not a game credits that title, under the closing
   * poll's date, with the time from the first poll to the closing poll (the
   * sum of the poll intervals), and leaves the tracker idle. The first poll's
   * clock must be non-zero, or the session is never seen as open.
   */
  lemma OneSession(s: Tracker, t: string, polls: seq<Poll>, stop: Poll)
    requires s.game.None? && |polls| > 0 && Classifier.IsGame(Some(t)) && polls[0].now != 0
    requires forall i | 0 <= i < |polls| :: polls[i].window == Some(t)
    requires !Classifier.IsGame(stop.window)
    ensures var r := Run(s, polls + [stop]);
      && r.game.None? && r.start.None?
      && Seconds(r.usage, stop.today, t) == Seconds(s.usage, stop.today, t) + (stop.now - polls[0].now)
      && HasLeaf(r.usage, stop.today, t)
      && forall d, g | d != stop.today || g != t ::
           HasLeaf(r.usage, d, g) == HasLeaf(s.usage, d, g) && Seconds(r.usage, d, g) == Seconds(s.usage, d, g)
  {
    SessionStaysOpen(s, t, polls);
    RunAppend(s, polls, [stop]);
    assert [stop][..0] == [];
  }

  /**
   * The polls None, "Steam - CS:GO", "Steam - CS:GO", "Notepad" at 0, 15, 30
   * and 45 seconds on a fresh tracker record one 30-second session for the
   * Steam title and nothing for Notepad, and do not save.
   */
  lemma SteamScenario(day: string, diskOk: bool)
    ensures var polls := [
        Poll(None, 0, day, diskOk),
        Poll(Some("Steam - CS:GO"), 15, day, diskOk),
        Poll(Some("Steam - CS:GO"), 30, day, diskOk),
        Poll(Some("Notepad"), 45, day, diskOk)];
      var r := Run(Tracker(None, None, map[], 0, []), polls);
      r.usage == map[day := map["Steam - CS:GO" := 30]] && r.game.None? && r.saves == []
  {
    Classifier.SteamIsAGame();
    Classifier.NotepadIsNotAGame();
    ShortSession("Steam - CS:GO", "Notepad", day, diskOk);
  }

  /**
   * The shape of that scenario for any game title `t` and any title `other`
   * that is not a game.
   */
  lemma ShortSession(t: string, other: string, day: string, diskOk: bool)
    requires Classifier.IsGame(Some(t)) && !Classifier.IsGame(Some(other))
    ensures Run(Tracker(None, None, map[], 0, []), [
        Poll(None, 0, day, diskOk), Poll(Some(t), 15, day, diskOk),
        Poll(Some(t), 30, day, diskOk), Poll(Some(other), 45, day, diskOk)])
      == Tracker(None, None, map[day := map[t := 30]], 0, [])
  {
    var s0 := Tracker(None, None, map[], 0, []);
    var s1 := Tracker(Some(t), Some(15), map[], 0, []);
    var p0, p1, p2, p3 := Poll(None, 0, day, diskOk), Poll(Some(t), 15, day, diskOk),
      Poll(Some(t), 30, day, diskOk), Poll(Some(other), 45, day, diskOk);
    RunFour(s0, p0, p1, p2, p3);
    assert Step(s0, p0) == s0;
    assert Step(s0, p1) == s1;
    assert Step(s1, p2) == s1;
    assert Step(s1, p3) == Tracker(None, None, map[day := map[t := 30]], 0, []);
  }

  /** Four polls in a row. */
  lemma RunFour(s: Tracker, p0: Poll, p1: Poll, p2: Poll, p3: Poll)
    ensures Run(s, [p0, p1, p2, p3]) == Step(Step(Step(Step(s, p0), p1), p2), p3)
  {
    assert [p0][..0] == [];
    assert Run(s, [p0]) == Step(s, p0);
    assert [p0, p1][..1] == [p0];
    assert Run(s, [p0, p1]) == Step(Run(s, [p0]), p1);
    assert [p0, p1, p2][..2] == [p0, p1];
    assert Run(s, [p0, p1, p2]) == Step(Run(s, [p0, p1]), p2);
    assert [p0, p1, p2, p3][..3] == [p0, p1, p2];
    assert Run(s, [p0, p1, p2, p3]) == Step(Run(s, [p0, p1, p2]), p3);
  }

  /**
   * `shutdown` credits the open session with `now - start`, then saves exactly
   * once, and the snapshot saved is the table after that credit. It leaves the
   * session fields as they were.
   */
  lemma ShutdownSavesOnce(s: Tracker, now: int, today: string, diskOk: bool)
    ensures var r := Shutdown(s, now, today, diskOk);
      && |r.saves| == |s.saves| + 1 && r.saves[..|s.saves|] == s.saves
      && r.saves[|s.saves|] == (if diskOk then Some(r.usage) else None)
      && r.usage == (if Open(s) then Add(s.usage, today, s.game.value, now - s.start.value) else s.usage)
      && r.game == s.game && r.start == s.start && r.lastSave == s.lastSave
  {
  }

  /**
   * A file `{"2024-01-01": {"Dota 2": 120}}`, then a 60-second "Dota 2"
   * session on 2024-01-02, then a save, writes both days side by side: the
   * loaded value is kept, not summed with the new one.
   */
  lemma LoadRecordSaveScenario()
    ensures var s := Init(Document([("2024-01-01", Titles([("Dota 2", 120)]))]));
      Save(Record(s, "Dota 2", 60, "2024-01-02"), true).saves ==
        [Some(map["2024-01-01" := map["Dota 2" := 120], "2024-01-02" := map["Dota 2" := 60]])]
  {
    var dates := [("2024-01-01", Titles([("Dota 2", 120)]))];
    assert dates[..0] == [];
    assert [("Dota 2", 120)][..0] == [];
    assert Load(map[], Document(dates)) == map["2024-01-01" := map["Dota 2" := 120]];
  }
}
