/**
 * The data file as `load_data` sees it after `json.load`, the merge loop that
 * copies its leaves into the usage table, and the document `save_data` writes.
 */
module Persistence {
  import opened Wrappers
  import opened Usage

  /** The value stored under one date: an object of title -> seconds, or anything else. */
  datatype DateValue = Titles(games: seq<(string, int)>) | NotAnObject

  /** What reading the data file yields. */
  datatype StoredFile =
    | NoFile                                   // `os.path.exists` is false
    | ReadFailed                               // opening or reading raised
    | Corrupt                                  // `json.load` raised `JSONDecodeError`
    | TopNotAnObject                           // the document has no `.items()`
    | Document(dates: seq<(string, DateValue)>) // an object, in its iteration order

  /** The table after a merge, and whether the merge ran to the end without raising. */
  datatype Merged = Merged(store: Store, complete: bool)

  /** The inner loop: `usage[date][game] = duration` for each pair, in order. */
  function MergeTitles(u: Store, date: string, games: seq<(string, int)>): Store
    decreases |games|
  {
    if games == [] then u
    else
      var last := games[|games| - 1];
      Put(MergeTitles(u, date, games[..|games| - 1]), date, last.0, last.1)
  }

  /**
   * The outer loop: merge each date's titles in order; a date whose value is
   * not an object raises, which ends the load and keeps what was written so far.
   */
  function MergeDates(u: Store, dates: seq<(string, DateValue)>): Merged
    decreases |dates|
  {
    if dates == [] then Merged(u, true)
    else
      var m := MergeDates(u, dates[..|dates| - 1]);
      var last := dates[|dates| - 1];
      if !m.complete then m
      else match last.1
        case NotAnObject => Merged(m.store, false)
        case Titles(games) => Merged(MergeTitles(m.store, last.0, games), true)
  }

  /** `load_data`: the usage table after loading `f` into `u`. */
  function Load(u: Store, f: StoredFile): Store {
    match f
    case Document(dates) => MergeDates(u, dates).store
    case _ => u
  }

  /** The last value given to title `g` in `games`, if any (a later pair overwrites an earlier one). */
  function LastValue(games: seq<(string, int)>, g: string): Option<int>
    decreases |games|
  {
    if games == [] then None
    else if games[|games| - 1].0 == g then Some(games[|games| - 1].1)
    else LastValue(games[..|games| - 1], g)
  }

  /**
   * Loading one date's titles overwrites each listed leaf with its last
   * listed value and leaves every other leaf as it was.
   */
  lemma {:induction false} MergeTitlesLeaf(u: Store, date: string, games: seq<(string, int)>, d: string, g: string)
    ensures Seconds(MergeTitles(u, date, games), d, g) ==
      if d == date && LastValue(games, g).Some? then LastValue(games, g).value else Seconds(u, d, g)
    ensures HasLeaf(MergeTitles(u, date, games), d, g) <==> HasLeaf(u, d, g) || (d == date && LastValue(games, g).Some?)
    decreases |games|
  {
    if games != [] {
      MergeTitlesLeaf(u, date, games[..|games| - 1], d, g);
    }
  }

  /** The last value the document gives to leaf (`d`, `g`), if any: later entries overwrite earlier ones. */
  function LastLeaf(dates: seq<(string, DateValue)>, d: string, g: string): Option<int>
    decreases |dates|
  {
    if dates == [] then None
    else
      var last := dates[|dates| - 1];
      if last.0 == d && last.1.Titles? && LastValue(last.1.games, g).Some? then LastValue(last.1.games, g)
      else LastLeaf(dates[..|dates| - 1], d, g)
  }

  /**
   * Loading a well-formed document sets each leaf it lists to the last value
   * listed for it (overwriting, not adding) and leaves every other leaf as it was.
   */
  lemma {:induction false} MergeDatesLeaf(u: Store, dates: seq<(string, DateValue)>, d: string, g: string)
    requires forall i | 0 <= i < |dates| :: dates[i].1.Titles?
    ensures MergeDates(u, dates).complete
    ensures Seconds(MergeDates(u, dates).store, d, g) ==
      if LastLeaf(dates, d, g).Some? then LastLeaf(dates, d, g).value else Seconds(u, d, g)
    ensures HasLeaf(MergeDates(u, dates).store, d, g) <==> HasLeaf(u, d, g) || LastLeaf(dates, d, g).Some?
    decreases |dates|
  {
    if dates != [] {
      var init := dates[..|dates| - 1];
      var last := dates[|dates| - 1];
      MergeDatesLeaf(u, init, d, g);
      MergeTitlesLeaf(MergeDates(u, init).store, last.0, last.1.games, d, g);
    }
  }

  /** A load that raised part-way keeps its partial result: nothing after the failure is merged. */
  lemma {:induction false} IncompleteIsFinal(u: Store, dates: seq<(string, DateValue)>, more: seq<(string, DateValue)>)
    requires !MergeDates(u, dates).complete
    ensures MergeDates(u, dates + more) == MergeDates(u, dates)
    decreases |more|
  {
    if more != [] {
      var init := more[..|more| - 1];
      assert (dates + more)[..|dates + more| - 1] == dates + init;
      IncompleteIsFinal(u, dates, init);
    } else {
      assert dates + more == dates;
    }
  }

  /**
   * A date entry that is not an object stops the load right there: the result
   * is the merge of the entries before it, marked incomplete.
   */
  lemma StopsAtNonObject(u: Store, dates: seq<(string, DateValue)>, k: nat)
    requires k < |dates| && dates[k].1 == NotAnObject && MergeDates(u, dates[..k]).complete
    ensures MergeDates(u, dates) == Merged(MergeDates(u, dates[..k]).store, false)
  {
    assert dates[..k + 1][..k] == dates[..k];
    IncompleteIsFinal(u, dates[..k + 1], dates[k + 1..]);
    assert dates[..k + 1] + dates[k + 1..] == dates;
  }

  /** Merging non-negative durations keeps the table non-negative with no empty rows. */
  lemma {:induction false} MergeTitlesWellFormed(u: Store, date: string, games: seq<(string, int)>)
    requires NonNegative(u) && NoEmptyRows(u)
    requires forall i | 0 <= i < |games| :: games[i].1 >= 0
    ensures NonNegative(MergeTitles(u, date, games)) && NoEmptyRows(MergeTitles(u, date, games))
    decreases |games|
  {
    if games != [] {
      var init := games[..|games| - 1];
      MergeTitlesWellFormed(u, date, init);
      PutKeepsWellFormed(MergeTitles(u, date, init), date, games[|games| - 1].0, games[|games| - 1].1);
    }
  }

  /** Every duration stored in the document is non-negative. */
  predicate DurationsNonNegative(dates: seq<(string, DateValue)>) {
    forall i, j | 0 <= i < |dates| && dates[i].1.Titles? && 0 <= j < |dates[i].1.games| :: dates[i].1.games[j].1 >= 0
  }

  /** Loading a file with non-negative durations keeps the table non-negative with no empty rows. */
  lemma {:induction false} MergeDatesWellFormed(u: Store, dates: seq<(string, DateValue)>)
    requires NonNegative(u) && NoEmptyRows(u) && DurationsNonNegative(dates)
    ensures NonNegative(MergeDates(u, dates).store) && NoEmptyRows(MergeDates(u, dates).store)
    decreases |dates|
  {
    if dates != [] {
      var init := dates[..|dates| - 1];
      assert DurationsNonNegative(init) by {
        forall i, j | 0 <= i < |init| && init[i].1.Titles? && 0 <= j < |init[i].1.games|
          ensures init[i].1.games[j].1 >= 0
        {
          assert init[i] == dates[i];
        }
      }
      MergeDatesWellFormed(u, init);
      var last := dates[|dates| - 1];
      if last.1.Titles? {
        var games := last.1.games;
        forall j | 0 <= j < |games| ensures games[j].1 >= 0 {
          assert dates[|dates| - 1].1.games[j].1 >= 0;
        }
        MergeTitlesWellFormed(MergeDates(u, init).store, last.0, games);
      }
    }
  }

  /** One day's table as `json.dump` lists it: its pairs in some order. */
  ghost function EncodeTable(t: Table): (r: seq<(string, int)>)
    decreases |t|
  {
    if t == map[] then []
    else
      var g :| g in t;
      EncodeTable(t - {g}) + [(g, t[g])]
  }

  /** The whole table as `json.dump` writes it: each date with its table, in some order. */
  ghost function Encode(u: Store): (r: seq<(string, DateValue)>)
    decreases |u|
  {
    if u == map[] then []
    else
      var d :| d in u;
      Encode(u - {d}) + [(d, Titles(EncodeTable(u[d])))]
  }

  /** Merging an encoded table under `date` adds its leaves to that date's row. */
  lemma {:induction false} MergeEncodedTable(u: Store, date: string, t: Table)
    requires t != map[]
    ensures MergeTitles(u, date, EncodeTable(t)) == u[date := Row(u, date) + t]
    decreases |t|
  {
    var g :| g in t && EncodeTable(t) == EncodeTable(t - {g}) + [(g, t[g])];
    var rest := t - {g};
    var before := MergeTitles(u, date, EncodeTable(rest));
    assert MergeTitles(u, date, EncodeTable(t)) == Put(before, date, g, t[g]) by {
      var pairs := EncodeTable(t);
      assert pairs[..|pairs| - 1] == EncodeTable(rest);
    }
    if rest == map[] {
      PutFirstKey(u, date, t, g);
    } else {
      MergeEncodedTable(u, date, rest);
      PutNextKey(u, date, t, g);
    }
  }

  /** Putting the only key of `t` adds `t` to the date's row. */
  lemma PutFirstKey(u: Store, date: string, t: Table, g: string)
    requires g in t && t - {g} == map[]
    ensures MergeTitles(u, date, EncodeTable(t - {g})) == u
    ensures Put(u, date, g, t[g]) == u[date := Row(u, date) + t]
  {
    assert EncodeTable(t - {g}) == [];
    ReinsertKey(Row(u, date), t, g);
    assert Row(u, date) + (t - {g}) == Row(u, date);
  }

  /** Putting one more key of `t` after the others completes `t` in the date's row. */
  lemma PutNextKey(u: Store, date: string, t: Table, g: string)
    requires g in t
    ensures Put(u[date := Row(u, date) + (t - {g})], date, g, t[g]) == u[date := Row(u, date) + t]
  {
    var row := Row(u, date);
    ReinsertKey(row, t, g);
    UpdateTwice(u, date, row + (t - {g}), row + t);
  }

  /** A second update of the same key overrides the first. */
  lemma UpdateTwice<K, V>(m: map<K, V>, k: K, a: V, b: V)
    ensures m[k := a][k := b] == m[k := b]
  {
    var l := m[k := a][k := b];
    assert l.Keys == m[k := b].Keys;
  }

  /** Putting back a removed key restores the union. */
  lemma ReinsertKey<K, V>(a: map<K, V>, t: map<K, V>, g: K)
    requires g in t
    ensures (a + (t - {g}))[g := t[g]] == a + t
  {
    var l := (a + (t - {g}))[g := t[g]];
    var r := a + t;
    assert l.Keys == r.Keys;
    forall x | x in l ensures l[x] == r[x] {
    }
  }

  /**
   * Loading what was saved, into a table with none of its dates, adds exactly
   * the saved table (given that no saved date has an empty table).
   */
  lemma {:induction false} MergeEncoded(v: Store, u: Store)
    requires NoEmptyRows(u) && v.Keys !! u.Keys
    ensures MergeDates(v, Encode(u)) == Merged(v + u, true)
    decreases |u|
  {
    if u == map[] {
      assert v + u == v;
    } else {
      var d :| d in u && Encode(u) == Encode(u - {d}) + [(d, Titles(EncodeTable(u[d])))];
      var rest := u - {d};
      MergeEncoded(v, rest);
      assert MergeDates(v, Encode(u)) == Merged(MergeTitles(MergeDates(v, Encode(rest)).store, d, EncodeTable(u[d])), true) by {
        var entries := Encode(u);
        assert entries[..|entries| - 1] == Encode(rest);
      }
      MergeEncodedTable(v + rest, d, u[d]);
      AddDisjointDate(v, u, d);
    }
  }

  /** Adding the last date of `u` to `v` plus the other dates of `u` gives `v + u`. */
  lemma AddDisjointDate(v: Store, u: Store, d: string)
    requires d in u && v.Keys !! u.Keys
    ensures (v + (u - {d}))[d := Row(v + (u - {d}), d) + u[d]] == v + u
  {
    assert Row(v + (u - {d}), d) == map[];
    assert map[] + u[d] == u[d];
    ReinsertKey(v, u, d);
  }

  /** Save then load reproduces the table: `load(save(usage)) == usage` for a table with no empty rows. */
  lemma SaveLoadRoundTrip(u: Store)
    requires NoEmptyRows(u)
    ensures Load(map[], Document(Encode(u))) == u
  {
    MergeEncoded(map[], u);
    assert map[] + u == u;
  }

  /**
   * A date with an empty table does not survive a load: the file
   * `{"2024-01-01": {}}` loads as the empty table, so saving again does not
   * reproduce it.
   */
  lemma EmptyDateIsDropped()
    ensures Load(map[], Document([("2024-01-01", Titles([]))])) == map[]
  {
    var dates := [("2024-01-01", Titles([]))];
    assert dates[..0] == [];
  }
}
