/**
 * The usage table: calendar date -> window title -> accumulated seconds.
 * A leaf is one (date, title) entry. Reading a missing leaf gives 0, as the
 * source's nested `defaultdict(float)` does.
 */
module Usage {
  /** Title -> seconds for one day. */
  type Table = map<string, int>
  /** Date ("YYYY-MM-DD") -> that day's table. */
  type Store = map<string, Table>

  /** The (date, title) leaf exists. */
  predicate HasLeaf(u: Store, date: string, game: string) {
    date in u && game in u[date]
  }

  /** The day's table, empty when the date is absent. */
  function Row(u: Store, date: string): Table {
    if date in u then u[date] else map[]
  }

  /** The seconds stored at a leaf; 0 when it is absent. */
  function Seconds(u: Store, date: string, game: string): int {
    if HasLeaf(u, date, game) then u[date][game] else 0
  }

  /** Every leaf holds a non-negative duration. */
  predicate NonNegative(u: Store) {
    forall date, game | date in u && game in u[date] :: u[date][game] >= 0
  }

  /** No date maps to an empty table: dates only appear through a write to one of their leaves. */
  predicate NoEmptyRows(u: Store) {
    forall date | date in u :: u[date] != map[]
  }

  /**
   * `usage[date][game] += d`: the leaf grows by `d` (starting from 0 when
   * absent) and every other leaf keeps its presence and its value.
   */
  function Add(u: Store, date: string, game: string, d: int): (r: Store)
    ensures HasLeaf(r, date, game)
    ensures Seconds(r, date, game) == Seconds(u, date, game) + d
    ensures forall date', game' | date' != date || game' != game ::
      HasLeaf(r, date', game') == HasLeaf(u, date', game') && Seconds(r, date', game') == Seconds(u, date', game')
    ensures r.Keys == u.Keys + {date}
  {
    u[date := Row(u, date)[game := Seconds(u, date, game) + d]]
  }

  /**
   * `usage[date][game] = d`: the leaf is overwritten with `d` and every other
   * leaf keeps its presence and its value.
   */
  function Put(u: Store, date: string, game: string, d: int): (r: Store)
    ensures HasLeaf(r, date, game) && Seconds(r, date, game) == d
    ensures forall date', game' | date' != date || game' != game ::
      HasLeaf(r, date', game') == HasLeaf(u, date', game') && Seconds(r, date', game') == Seconds(u, date', game')
    ensures r.Keys == u.Keys + {date}
  {
    u[date := Row(u, date)[game := d]]
  }

  /** Adding a non-negative duration keeps every leaf non-negative and every row non-empty. */
  lemma AddKeepsWellFormed(u: Store, date: string, game: string, d: int)
    requires NonNegative(u) && NoEmptyRows(u) && d >= 0
    ensures NonNegative(Add(u, date, game, d)) && NoEmptyRows(Add(u, date, game, d))
  {
  }

  /** Overwriting a leaf with a non-negative duration keeps every leaf non-negative and every row non-empty. */
  lemma PutKeepsWellFormed(u: Store, date: string, game: string, d: int)
    requires NonNegative(u) && NoEmptyRows(u) && d >= 0
    ensures NonNegative(Put(u, date, game, d)) && NoEmptyRows(Put(u, date, game, d))
  {
  }
}
