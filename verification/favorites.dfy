/** The favourites list ("Mi Biblioteca"): a list of artists keyed by `id`,
    toggled by the heart button. */
module Favorites {
  import opened Catalog
  import opened Lists

  /** The filter predicate of `toggleFavorite`: an entry other than `id`. */
  function OtherId(id: string): Artist -> bool
  {
    (fav: Artist) => fav.id != id
  }

  /** `isFavorite`: some entry carries the artist's id. */
  function IsFavorite(favs: seq<Artist>, a: Artist): (r: bool)
    ensures r <==> exists i :: 0 <= i < |favs| && favs[i].id == a.id
  {
    Any(favs, (fav: Artist) => fav.id == a.id)
  }

  /** The entries whose id differs from `id`, in their original order. */
  function RemoveId(favs: seq<Artist>, id: string): (r: seq<Artist>)
    ensures IsSublist(r, favs)
    ensures forall i :: 0 <= i < |r| ==> r[i].id != id
    ensures forall x :: multiset(r)[x] == if x.id == id then 0 else multiset(favs)[x]
  {
    Filter(favs, OtherId(id))
  }

  /** `toggleFavorite`: drop every entry with the artist's id when there is
      one, otherwise append the artist. */
  function Toggle(favs: seq<Artist>, a: Artist): (r: seq<Artist>)
    ensures !IsFavorite(favs, a) ==> r == favs + [a]
    ensures IsFavorite(favs, a) ==> IsSublist(r, favs) && |r| < |favs|
    ensures IsFavorite(favs, a) ==> forall i :: 0 <= i < |r| ==> r[i].id != a.id
    ensures IsFavorite(favs, a) ==>
      forall x :: multiset(r)[x] == if x.id == a.id then 0 else multiset(favs)[x]
  {
    if IsFavorite(favs, a) then
      RemoveIdShrinks(favs, a.id);
      RemoveId(favs, a.id)
    else favs + [a]
  }

  /** Removing an id that occurs makes the list strictly shorter. */
  lemma RemoveIdShrinks(favs: seq<Artist>, id: string)
    requires exists i :: 0 <= i < |favs| && favs[i].id == id
    ensures |RemoveId(favs, id)| < |favs|
  {
    var r := RemoveId(favs, id);
    var i :| 0 <= i < |favs| && favs[i].id == id;
    assert favs[i] in multiset(favs);
    assert multiset(r)[favs[i]] == 0;
    assert multiset(r) <= multiset(favs);
    assert |multiset(r)| < |multiset(favs)| by {
      var extra := multiset(favs) - multiset(r);
      assert multiset(favs) == multiset(r) + extra;
      assert favs[i] in extra;
    }
  }

  /** The library's invariant: no two entries share an id. */
  predicate UniqueIds(favs: seq<Artist>)
  {
    forall i, j :: 0 <= i < j < |favs| ==> favs[i].id != favs[j].id
  }

  /** Putting an artist in front of a list with unique ids keeps the ids
      unique when its id is new to the list. */
  lemma ConsKeepsUniqueIds(x: Artist, tail: seq<Artist>)
    requires UniqueIds(tail)
    requires forall k :: 0 <= k < |tail| ==> tail[k].id != x.id
    ensures UniqueIds([x] + tail)
  {
    var r := [x] + tail;
    forall i, j | 0 <= i < j < |r| ensures r[i].id != r[j].id {
      assert r[j] == tail[j - 1];
      if i > 0 {
        assert r[i] == tail[i - 1];
      }
    }
  }

  /** Removing entries from a list with unique ids keeps the ids unique. */
  lemma {:induction false} RemoveIdKeepsUniqueIds(favs: seq<Artist>, id: string)
    requires UniqueIds(favs)
    ensures UniqueIds(RemoveId(favs, id))
  {
    if favs != [] {
      var rest := favs[1..];
      assert UniqueIds(rest) by {
        forall i, j | 0 <= i < j < |rest| ensures rest[i].id != rest[j].id {
          assert rest[i] == favs[i + 1] && rest[j] == favs[j + 1];
        }
      }
      RemoveIdKeepsUniqueIds(rest, id);
      var tail := RemoveId(rest, id);
      if favs[0].id != id {
        forall k | 0 <= k < |tail| ensures tail[k].id != favs[0].id {
          assert tail[k] in multiset(tail);
          var m :| 0 <= m < |rest| && rest[m] == tail[k];
          assert favs[m + 1] == rest[m];
        }
        ConsKeepsUniqueIds(favs[0], tail);
      }
    }
  }

  /** Toggling keeps the ids unique. */
  lemma ToggleKeepsUniqueIds(favs: seq<Artist>, a: Artist)
    requires UniqueIds(favs)
    ensures UniqueIds(Toggle(favs, a))
  {
    if IsFavorite(favs, a) {
      RemoveIdKeepsUniqueIds(favs, a.id);
    }
  }

  /** An artist whose id is absent is appended at the end; every earlier
      entry stays where it was. */
  lemma ToggleAbsent(favs: seq<Artist>, a: Artist)
    requires !IsFavorite(favs, a)
    ensures |Toggle(favs, a)| == |favs| + 1
    ensures Toggle(favs, a)[..|favs|] == favs
    ensures Toggle(favs, a)[|favs|] == a
  {
  }

  /** An artist whose id is present has every entry with that id removed;
      the others keep their order. */
  lemma TogglePresent(favs: seq<Artist>, a: Artist)
    requires IsFavorite(favs, a)
    ensures IsSublist(Toggle(favs, a), favs)
    ensures forall x :: multiset(Toggle(favs, a))[x] == if x.id == a.id then 0 else multiset(favs)[x]
    ensures |Toggle(favs, a)| < |favs|
  {
  }


  /** Toggling flips membership of the toggled id and leaves every other id
      as it was. */
  lemma ToggleFlips(favs: seq<Artist>, a: Artist, b: Artist)
    ensures IsFavorite(Toggle(favs, a), b) ==
      if b.id == a.id then !IsFavorite(favs, a) else IsFavorite(favs, b)
  {
    var r := Toggle(favs, a);
    if IsFavorite(favs, a) {
      if b.id != a.id && IsFavorite(favs, b) {
        var i :| 0 <= i < |favs| && favs[i].id == b.id;
        assert favs[i] in multiset(favs);
        assert favs[i] in multiset(r);
        var j :| 0 <= j < |r| && r[j] == favs[i];
        assert r[j].id == b.id;
      }
      if IsFavorite(r, b) {
        var j :| 0 <= j < |r| && r[j].id == b.id;
        assert r[j] in multiset(r);
        assert r[j] in multiset(favs);
        var i :| 0 <= i < |favs| && favs[i] == r[j];
      }
    } else {
      assert r == favs + [a];
      if IsFavorite(favs, b) {
        var i :| 0 <= i < |favs| && favs[i].id == b.id;
        assert r[i] == favs[i];
      }
      if IsFavorite(r, b) && b.id != a.id {
        var j :| 0 <= j < |r| && r[j].id == b.id;
        assert j < |favs|;
      }
      assert r[|favs|].id == a.id;
    }
  }

  /** Toggling leaves the entries with other ids exactly as they were,
      order included. */
  lemma {:induction false} ToggleKeepsOthers(favs: seq<Artist>, a: Artist)
    ensures RemoveId(Toggle(favs, a), a.id) == RemoveId(favs, a.id)
  {
    var keep := OtherId(a.id);
    if IsFavorite(favs, a) {
      FilterKeepsAll(RemoveId(favs, a.id), keep);
    } else {
      FilterAppend(favs, [a], keep);
      assert Filter([a], keep) == [];
    }
  }

  /** Toggling an absent artist twice gives back the original list. */
  lemma {:induction false} ToggleTwiceFromAbsent(favs: seq<Artist>, a: Artist)
    requires !IsFavorite(favs, a)
    ensures Toggle(Toggle(favs, a), a) == favs
  {
    var keep := OtherId(a.id);
    assert IsFavorite(favs + [a], a) by {
      assert (favs + [a])[|favs|] == a;
    }
    FilterAppend(favs, [a], keep);
    assert Filter([a], keep) == [];
    FilterKeepsAll(favs, keep);
  }

  /** Toggling a present artist twice gives back the same ids, with that
      artist now the last entry. */
  lemma ToggleTwiceFromPresent(favs: seq<Artist>, a: Artist)
    requires IsFavorite(favs, a)
    ensures Toggle(Toggle(favs, a), a) == RemoveId(favs, a.id) + [a]
    ensures forall b :: IsFavorite(Toggle(Toggle(favs, a), a), b) == IsFavorite(favs, b)
  {
    var once := Toggle(favs, a);
    ToggleFlips(favs, a, a);
    forall b
      ensures IsFavorite(Toggle(once, a), b) == IsFavorite(favs, b)
    {
      ToggleFlips(favs, a, b);
      ToggleFlips(once, a, b);
      if b.id == a.id {
        ToggleFlips(favs, a, a);
      }
    }
  }
}
