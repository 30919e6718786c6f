/**
 * `GameTracker`: the object the tracking loop updates in place. Each method
 * changes the fields as the source does, and its contract ties the new state
 * to the state machine of module Sessions.
 */
module Tracker {
  import opened Wrappers
  import opened Usage
  import opened Persistence
  import opened Sessions
  import Classifier

  class GameTracker {
    /** The open session's title (`current_game`). */
    var currentGame: Option<string>
    /** The open session's start time in seconds (`start_time`). */
    var startTime: Option<int>
    /** Date -> title -> seconds (`usage`). */
    var usage: Store
    /** When the table was last saved by the loop (`last_save` of `track`). */
    var lastSave: int
    /** Every save attempt: the snapshot written, or None when the write failed. */
    var saves: seq<Option<Store>>

    /** The fields as a state of the session machine. */
    function State(): Tracker
      reads this
    {
      Tracker(currentGame, startTime, usage, lastSave, saves)
    }

    /** `__init__`: no open session, an empty table, then `load_data`. */
    constructor (f: StoredFile)
      ensures State() == Init(f)
    {
      currentGame := None;
      startTime := None;
      usage := map[];
      lastSave := 0;
      saves := [];
      new;
      LoadData(f);
    }

    /**
     * `load_data`: copy every leaf of the file into the table, overwriting; a
     * date whose value is not an object raises and ends the load with what
     * was already written; a missing, unreadable or corrupt file changes nothing.
     */
    method LoadData(f: StoredFile)
      modifies this`usage
      ensures usage == Load(old(usage), f)
    {
      if f.Document? {
        var dates := f.dates;
        var i := 0;
        var complete := true;
        while i < |dates| && complete
          invariant 0 <= i <= |dates|
          invariant Merged(usage, complete) == MergeDates(old(usage), dates[..i])
        {
          assert dates[..i + 1][..i] == dates[..i];
          var date := dates[i].0;
          match dates[i].1 {
            case NotAnObject =>
              complete := false;
            case Titles(games) =>
              var j := 0;
              while j < |games|
                invariant 0 <= j <= |games|
                invariant usage == MergeTitles(MergeDates(old(usage), dates[..i]).store, date, games[..j])
              {
                assert games[..j + 1][..j] == games[..j];
                usage := Put(usage, date, games[j].0, games[j].1);
                j := j + 1;
              }
              assert games[..j] == games;
          }
          i := i + 1;
        }
        assert dates[..i] + dates[i..] == dates;
        if !complete {
          IncompleteIsFinal(old(usage), dates[..i], dates[i..]);
        } else {
          assert dates[..i] == dates;
        }
        assert usage == MergeDates(old(usage), dates).store;
      }
    }

    /** `save_data`: write the whole table, or report a failed write and carry on. */
    method SaveData(diskOk: bool)
      modifies this`saves
      ensures State() == Save(old(State()), diskOk)
    {
      if diskOk {
        saves := saves + [Some(usage)];
      } else {
        saves := saves + [None];
      }
    }

    /** `record_session`: add the duration to today's entry for the title. */
    method RecordSession(game: string, duration: int, today: string)
      modifies this`usage
      ensures State() == Record(old(State()), game, duration, today)
    {
      var row := if today in usage then usage[today] else map[];
      var sofar := if game in row then row[game] else 0;
      usage := usage[today := row[game := sofar + duration]];
    }

    /**
     * The session part of one iteration of the loop in `track`: keep, switch,
     * open or close the session for the observed title.
     */
    method Observe(window: Option<string>, now: int, today: string)
      modifies this
      ensures State() == Transition(old(State()), window, now, today)
    {
      if Classifier.IsGame(window) {
        if window != currentGame {
          if Open(State()) {
            RecordSession(currentGame.value, now - startTime.value, today);
          }
          currentGame := window;
          startTime := Some(now);
        }
      } else {
        if Open(State()) {
          RecordSession(currentGame.value, now - startTime.value, today);
          currentGame := None;
          startTime := None;
        }
      }
    }

    /**
     * One iteration of the loop in `track`: the session transition for the
     * observed title, then the periodic save. It keeps the state invariant
     * when the clock has not gone back past the session's start.
     */
    method Tick(window: Option<string>, now: int, today: string, diskOk: bool)
      modifies this
      ensures State() == Sessions.Tick(old(State()), window, now, today, diskOk)
      ensures old(Inv(State()) && ClockOk(State(), now)) ==> Inv(State())
    {
      ghost var s := State();
      Observe(window, now, today);
      if now - lastSave > AutoSaveSeconds {
        SaveData(diskOk);
        lastSave := now;
      }
      if Inv(s) && ClockOk(s, now) {
        TickKeepsInv(s, window, now, today, diskOk);
      }
    }

    /** `shutdown`: close the open session at `now`, then save once. */
    method Shutdown(now: int, today: string, diskOk: bool)
      modifies this
      ensures State() == Sessions.Shutdown(old(State()), now, today, diskOk)
    {
      if Open(State()) {
        RecordSession(currentGame.value, now - startTime.value, today);
      }
      SaveData(diskOk);
    }

    /**
     * `track` followed by the interrupt: start the save clock, run one tick
     * per poll, then shut down.
     */
    method Track(start: int, polls: seq<Poll>, stopNow: int, stopDay: string, stopDiskOk: bool)
      modifies this
      ensures State() == Sessions.Shutdown(Run(old(State()).(lastSave := start), polls), stopNow, stopDay, stopDiskOk)
    {
      lastSave := start;
      ghost var s0 := State();
      var i := 0;
      while i < |polls|
        invariant 0 <= i <= |polls|
        invariant State() == Run(s0, polls[..i])
      {
        assert polls[..i + 1][..i] == polls[..i];
        Tick(polls[i].window, polls[i].now, polls[i].today, polls[i].diskOk);
        i := i + 1;
      }
      assert polls[..i] == polls;
      Shutdown(stopNow, stopDay, stopDiskOk);
    }
  }
}
