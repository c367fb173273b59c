/** The genre side panel: a fixed list of genres narrowed by a
    case-insensitive substring search. Letters are lower-cased as ASCII. */
module Genres {
  import opened Lists

  /** The genres the panel offers, in display order. */
  const AllGenres: seq<string> :=
    ["Pop", "Rock", "Salsa", "Electronic", "Reggaeton", "Hip-Hop", "Classical", "Jazz"]

  /** `toLowerCase` on one character, restricted to ASCII letters. */
  function LowerChar(c: char): (d: char)
    ensures 'A' <= c <= 'Z' ==> d as int == c as int + 32
    ensures !('A' <= c <= 'Z') ==> d == c
    ensures !('A' <= d <= 'Z')
  {
    if 'A' <= c <= 'Z' then (c as int + 32) as char else c
  }

  /** `toLowerCase` on a string: every character lowered, length kept. */
  function ToLower(s: string): (r: string)
    ensures |r| == |s|
    ensures forall i :: 0 <= i < |s| ==> r[i] == LowerChar(s[i])
  {
    Map(s, LowerChar)
  }

  /** Lowering a string that is already lower case changes nothing. */
  lemma ToLowerIdempotent(s: string)
    ensures ToLower(ToLower(s)) == ToLower(s)
  {
  }

  /** `needle` occurs in `hay` starting at position `k`. */
  predicate OccursAt(hay: string, needle: string, k: int)
  {
    0 <= k && k + |needle| <= |hay| && hay[k..k + |needle|] == needle
  }

  /** `hay.includes(needle)`: scans `hay` for a position where `needle` is a
      prefix of what follows; the empty string occurs everywhere. */
  function Includes(hay: string, needle: string): (r: bool)
    ensures r <==> exists k :: OccursAt(hay, needle, k)
    decreases |hay|
  {
    if needle <= hay then
      assert OccursAt(hay, needle, 0);
      true
    else if hay == [] then
      false
    else
      var rest := Includes(hay[1..], needle);
      assert forall k :: OccursAt(hay[1..], needle, k) ==> OccursAt(hay, needle, k + 1);
      assert forall k :: OccursAt(hay, needle, k) && k > 0 ==> OccursAt(hay[1..], needle, k - 1);
      assert !OccursAt(hay, needle, 0);
      rest
  }

  /** The test `filteredGenres` applies to each genre: the lower-cased
      term occurs somewhere in the lower-cased genre. */
  function Matches(genre: string, term: string): (b: bool)
    ensures b <==> exists k :: OccursAt(ToLower(genre), ToLower(term), k)
  {
    Includes(ToLower(genre), ToLower(term))
  }

  /** `Matches` as the predicate handed to `filter`. */
  function MatchesTerm(term: string): string -> bool
  {
    (g: string) => Matches(g, term)
  }

  /** `filteredGenres`: the genres whose lower-cased name contains the
      lower-cased search term, in their original order. */
  function FilterGenres(genres: seq<string>, term: string): (r: seq<string>)
    ensures IsSublist(r, genres)
    ensures forall i :: 0 <= i < |r| ==> Matches(r[i], term)
    ensures forall g :: g in genres && Matches(g, term) ==> g in r
    ensures forall g :: multiset(r)[g] == if Matches(g, term) then multiset(genres)[g] else 0
  {
    Filter(genres, MatchesTerm(term))
  }

  /** An empty search term keeps every genre. */
  lemma EmptyTermKeepsAll(genres: seq<string>)
    ensures FilterGenres(genres, "") == genres
  {
    FilterKeepsAll(genres, MatchesTerm(""));
  }

  /** Two search terms that differ only in the case of their letters select
      the same genres. */
  lemma CaseInsensitive(genres: seq<string>, t1: string, t2: string)
    requires ToLower(t1) == ToLower(t2)
    ensures FilterGenres(genres, t1) == FilterGenres(genres, t2)
  {
    FilterCongruent(genres, MatchesTerm(t1), MatchesTerm(t2));
  }

  /** A string that contains a character missing from `hay` does not occur
      in `hay`. */
  lemma MissingCharExcludes(hay: string, needle: string, c: char)
    requires c in needle && c !in hay
    ensures !Includes(hay, needle)
  {

  }

  /** A lower-case letter absent from `s` in both cases is absent from its
      lower-cased form. */
  lemma LowerAvoids(s: string, c: char)
    requires 'a' <= c <= 'z'
    requires c !in s && (c as int - 32) as char !in s
    ensures c !in ToLower(s)
  {
    if c in ToLower(s) {
      var i :| 0 <= i < |s| && ToLower(s)[i] == c;
    }
  }

  /** Of the panel's genres only "Rock" contains "rock". */
  lemma OnlyRockMatches(i: int)
    requires 0 <= i < |AllGenres|
    ensures Matches(AllGenres[i], "rock") <==> i == 1
  {
    var g := AllGenres[i];
    assert ToLower("rock") == "rock";
    if i == 1 {
      assert ToLower(g) == "rock";
      assert OccursAt(ToLower(g), "rock", 0);
    } else {
      assert 'k' !in g && 'K' !in g;
      LowerAvoids(g, 'k');
      MissingCharExcludes(ToLower(g), "rock", 'k');
    }
  }

  /** Typing "rock" in the panel leaves only "Rock". */
  lemma LowerRockSearch()
    ensures FilterGenres(AllGenres, "rock") == ["Rock"]
  {
    var keep := MatchesTerm("rock");
    var head, tail := AllGenres[..1], AllGenres[2..];
    assert AllGenres == head + [AllGenres[1]] + tail;
    forall i | 0 <= i < |head| ensures !keep(head[i]) {
      OnlyRockMatches(i);
    }
    forall i | 0 <= i < |tail| ensures !keep(tail[i]) {
      OnlyRockMatches(i + 2);
    }
    OnlyRockMatches(1);
    FilterDropsAll(head, keep);
    FilterDropsAll(tail, keep);
    FilterAppend(head, [AllGenres[1]], keep);
    assert Filter(head + [AllGenres[1]], keep) == ["Rock"];
    FilterAppend(head + [AllGenres[1]], tail, keep);
  }

  /** Typing "ROCK" or "rock" in the panel leaves only "Rock". */
  lemma RockSearch()
    ensures FilterGenres(AllGenres, "ROCK") == ["Rock"]
    ensures FilterGenres(AllGenres, "rock") == ["Rock"]
  {
    LowerRockSearch();
    assert ToLower("ROCK") == ToLower("rock");
    CaseInsensitive(AllGenres, "ROCK", "rock");
  }
}
