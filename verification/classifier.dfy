/**
 * The game classifier (`is_game`): a window title is a game when its
 * lower-cased form contains one of a fixed set of keywords as a plain
 * substring (no word boundaries).
 */
module Classifier {
  import opened Wrappers

  /** The keyword set of the tracker, all in lower case. */
  const Keywords: set<string> := {
    "steam", "hl2", "csgo", "dota", "fortnite",
    "overwatch", "valorant", "league", "minecraft",
    "battle.net", "origin", "ubisoft", "riot", "ea",
    "wow", "diablo", "elden", "gta", "rockstar",
    "warframe", "destiny", "apex", "fallout", "skyrim"
  }

  /** ASCII lower-casing of one character. */
  function LowerChar(c: char): char {
    if 'A' <= c <= 'Z' then (c as int + 32) as char else c
  }

  /** ASCII upper-casing of one character. */
  function UpperChar(c: char): char {
    if 'a' <= c <= 'z' then (c as int - 32) as char else c
  }

  /** `str.lower()` restricted to ASCII: each character lower-cased in place. */
  function Lower(s: string): (r: string)
    ensures |r| == |s|
    ensures forall i :: 0 <= i < |s| ==> r[i] == LowerChar(s[i])
  {
    if s == [] then [] else [LowerChar(s[0])] + Lower(s[1..])
  }

  /** `str.upper()` restricted to ASCII. */
  function Upper(s: string): (r: string)
    ensures |r| == |s|
    ensures forall i :: 0 <= i < |s| ==> r[i] == UpperChar(s[i])
  {
    if s == [] then [] else [UpperChar(s[0])] + Upper(s[1..])
  }

  /** `k` occurs in `s` starting at position `i`. */
  predicate OccursAt(k: string, s: string, i: int) {
    0 <= i && i + |k| <= |s| && s[i..i + |k|] == k
  }

  /** Python's `k in s` on strings: `k` occurs in `s` at some position. */
  predicate Occurs(k: string, s: string) {
    exists i | 0 <= i <= |s| - |k| :: OccursAt(k, s, i)
  }

  /** `is_game`: absent or empty titles are not games; otherwise some keyword occurs in the lower-cased title. */
  function IsGame(title: Option<string>): (r: bool)
    ensures r ==> title.Some? && |title.value| >= 2
  {
    match title
    case None => false
    case Some(t) =>
      if t == "" then false
      else
        var lower := Lower(t);
        exists k | k in Keywords :: Occurs(k, lower)
  }

  /** Lower-casing an upper-cased or lower-cased title gives the title lower-cased. */
  lemma LowerOfCased(s: string)
    ensures Lower(Upper(s)) == Lower(s)
    ensures Lower(Lower(s)) == Lower(s)
  {
  }

  /** The verdict is case-insensitive: changing the case of the title never changes it. */
  lemma CaseInsensitive(t: string)
    ensures IsGame(Some(Upper(t))) == IsGame(Some(t))
    ensures IsGame(Some(Lower(t))) == IsGame(Some(t))
  {
    LowerOfCased(t);
  }

  /** Lower-casing distributes over concatenation. */
  lemma LowerAppend(a: string, b: string)
    ensures Lower(a + b) == Lower(a) + Lower(b)
  {
  }

  /** An occurrence stays an occurrence inside a longer text. */
  lemma OccursInContext(k: string, x: string, a: string, b: string)
    requires Occurs(k, x)
    ensures Occurs(k, a + x + b)
  {
    var i :| 0 <= i <= |x| - |k| && OccursAt(k, x, i);
    var whole := a + x + b;
    assert whole[|a| + i..|a| + i + |k|] == x[i..i + |k|];
    assert OccursAt(k, whole, |a| + i);
  }

  /**
   * The match is not word-boundary aware: a title that is a game stays a game
   * whatever text surrounds it.
   */
  lemma InContext(a: string, t: string, b: string)
    requires IsGame(Some(t))
    ensures IsGame(Some(a + t + b))
  {
    var k :| k in Keywords && Occurs(k, Lower(t));
    OccursInContext(k, Lower(t), Lower(a), Lower(b));
    LowerAppend(a + t, b);
    LowerAppend(a, t);
    assert Lower(a + t + b) == Lower(a) + Lower(t) + Lower(b);
  }

  /** The launcher title of the scenario is a game: "steam" starts its lower-cased form. */
  lemma SteamIsAGame()
    ensures IsGame(Some("Steam - CS:GO"))
  {
    assert "Steam - CS:GO" == "Steam" + " - CS:GO";
    LowerAppend("Steam", " - CS:GO");
    assert Lower("Steam") == "steam";
    assert OccursAt("steam", Lower("Steam") + Lower(" - CS:GO"), 0);
  }

  /** A keyword inside a longer word still matches: "wow" in "wowzers". */
  lemma NoWordBoundaries()
    ensures IsGame(Some("wowzers"))
  {
    var l := Lower("wowzers");
    assert l[0] == 'w' && l[1] == 'o' && l[2] == 'w';
    assert OccursAt("wow", l, 0);
  }

  /** The first two letters of every keyword. */
  ghost const KeywordStarts: set<string> := {
    "st", "hl", "cs", "do", "fo", "ov", "va", "le", "mi", "ba", "or", "ub",
    "ri", "ea", "wo", "di", "el", "gt", "ro", "wa", "de", "ap", "fa", "sk"
  }

  /** Every keyword has at least two letters, and its first two are among KeywordStarts. */
  lemma KeywordStart(k: string)
    requires k in Keywords
    ensures |k| >= 2 && [k[0], k[1]] in KeywordStarts
  {
  }

  /** An occurrence at `i` of a word of two letters or more puts its first two letters at `i` and `i + 1`. */
  lemma OccursAtStart(k: string, s: string, i: int)
    ensures OccursAt(k, s, i) && |k| >= 2 ==> [s[i], s[i + 1]] == [k[0], k[1]]
  {
    if OccursAt(k, s, i) && |k| >= 2 {
      assert s[i..i + |k|][0] == s[i] && s[i..i + |k|][1] == s[i + 1];
    }
  }

  /** No two adjacent letters of "notepad" start a keyword. */
  lemma NotepadPairs(i: int)
    requires 0 <= i <= 5
    ensures ["notepad"[i], "notepad"[i + 1]] !in KeywordStarts
  {
  }

  /**
   * A text editor's title is not a game: no keyword's first two letters
   * appear side by side in "notepad".
   */
  lemma NotepadIsNotAGame()
    ensures !IsGame(Some("Notepad"))
  {
    var l := Lower("Notepad");
    assert l[0] == 'n' && l[1] == 'o' && l[2] == 't' && l[3] == 'e' && l[4] == 'p' && l[5] == 'a' && l[6] == 'd';
    assert l == "notepad";
    forall k | k in Keywords ensures !Occurs(k, "notepad") {
      KeywordStart(k);
      forall i | 0 <= i <= 7 - |k| ensures !OccursAt(k, "notepad", i) {
        NotepadPairs(i);
        OccursAtStart(k, "notepad", i);
      }
    }
  }
}
