/** The favourites list of the client: `toggleFavorite`'s state updater
    (frontend-anime/src/App.jsx, lines 143-152). Entries are matched by
    `mal_id` with `===`, so two entries without an id match each other. */
module Favorites {
  import opened Wrappers
  import opened Catalog

  /** Some entry carries `id` (`prev.some(fav => fav.mal_id === id)`). */
  predicate HasId(favs: seq<Anime>, id: Option<int>) {
    exists i :: 0 <= i < |favs| && favs[i].malId == id
  }

  /** Every id occurs at most once. */
  predicate UniqueIds(favs: seq<Anime>) {
    forall i, j :: 0 <= i < j < |favs| ==> favs[i].malId != favs[j].malId
  }

  /** `prev.filter(fav => fav.mal_id !== id)`: the entries without `id`,
      in their order. */
  function WithoutId(favs: seq<Anime>, id: Option<int>): (r: seq<Anime>)
    ensures !HasId(r, id)
    ensures |r| <= |favs|
  {
    if favs == [] then []
    else (if favs[0].malId != id then [favs[0]] else []) + WithoutId(favs[1..], id)
  }

  /** The filter keeps only entries of the list, and drops at least one
      when the id is there. */
  lemma {:induction false} WithoutIdShrinks(favs: seq<Anime>, id: Option<int>)
    ensures forall k :: 0 <= k < |WithoutId(favs, id)| ==> WithoutId(favs, id)[k] in favs
    ensures HasId(favs, id) ==> |WithoutId(favs, id)| < |favs|
  {
    if favs != [] {
      var rest := WithoutId(favs[1..], id);
      WithoutIdShrinks(favs[1..], id);
      forall k | 0 <= k < |rest| ensures rest[k] in favs {
        assert rest[k] in favs[1..];
      }
      if HasId(favs, id) && favs[0].malId != id {
        var i :| 0 <= i < |favs| && favs[i].malId == id;
        assert favs[1..][i - 1] == favs[i];
      }
    }
  }

  /** The favourites after toggling `anime`: every entry with its id
      removed if there is one, otherwise `anime` appended at the end. No
      entry other than `anime` itself is new. */
  function Toggled(favs: seq<Anime>, anime: Anime): (r: seq<Anime>)
    ensures forall k :: 0 <= k < |r| ==> r[k] in favs || r[k] == anime
    ensures HasId(favs, anime.malId) ==> |r| < |favs|
    ensures !HasId(favs, anime.malId) ==> |r| == |favs| + 1 && r[|favs|] == anime && r[..|favs|] == favs
  {
    WithoutIdShrinks(favs, anime.malId);
    if HasId(favs, anime.malId) then WithoutId(favs, anime.malId) else favs + [anime]
  }

  /** The favourites after `n` toggles of the same item. */
  function ToggledTimes(favs: seq<Anime>, anime: Anime, n: nat): seq<Anime> {
    if n == 0 then favs else Toggled(ToggledTimes(favs, anime, n - 1), anime)
  }

  lemma HasIdAppend(a: seq<Anime>, b: seq<Anime>, id: Option<int>)
    ensures HasId(a + b, id) <==> HasId(a, id) || HasId(b, id)
  {
    var r := a + b;
    if HasId(r, id) {
      var i :| 0 <= i < |r| && r[i].malId == id;
      if i >= |a| {
        assert b[i - |a|] == r[i];
      } else {
        assert a[i] == r[i];
      }
    }
    if HasId(b, id) {
      var i :| 0 <= i < |b| && b[i].malId == id;
      assert r[|a| + i] == b[i];
    }
    if HasId(a, id) {
      var i :| 0 <= i < |a| && a[i].malId == id;
      assert r[i] == a[i];
    }
  }

  lemma {:induction false} WithoutIdHas(favs: seq<Anime>, id: Option<int>, other: Option<int>)
    ensures HasId(WithoutId(favs, id), other) <==> other != id && HasId(favs, other)
  {
    if favs != [] {
      WithoutIdHas(favs[1..], id, other);
      var head := if favs[0].malId != id then [favs[0]] else [];
      HasIdAppend(head, WithoutId(favs[1..], id), other);
      HasIdAppend([favs[0]], favs[1..], other);
      assert [favs[0]] + favs[1..] == favs;
    }
  }

  lemma {:induction false} WithoutIdAbsent(favs: seq<Anime>, id: Option<int>)
    requires !HasId(favs, id)
    ensures WithoutId(favs, id) == favs
  {
    if favs != [] {
      HasIdAppend([favs[0]], favs[1..], id);
      assert [favs[0]] + favs[1..] == favs;
      WithoutIdAbsent(favs[1..], id);
    }
  }

  lemma {:induction false} WithoutIdAppend(a: seq<Anime>, b: seq<Anime>, id: Option<int>)
    ensures WithoutId(a + b, id) == WithoutId(a, id) + WithoutId(b, id)
  {
    if a == [] {
      assert a + b == b;
    } else {
      assert (a + b)[0] == a[0];
      assert (a + b)[1..] == a[1..] + b;
      WithoutIdAppend(a[1..], b, id);
    }
  }

  lemma {:induction false} WithoutIdTwice(favs: seq<Anime>, id: Option<int>)
    ensures WithoutId(WithoutId(favs, id), id) == WithoutId(favs, id)
  {
    WithoutIdAbsent(WithoutId(favs, id), id);
  }

  lemma {:induction false} WithoutIdUnique(favs: seq<Anime>, id: Option<int>)
    requires UniqueIds(favs)
    ensures UniqueIds(WithoutId(favs, id))
  {
    if favs != [] {
      var tail := WithoutId(favs[1..], id);
      WithoutIdUnique(favs[1..], id);
      if favs[0].malId != id {
        var r := [favs[0]] + tail;
        assert !HasId(favs[1..], favs[0].malId);
        WithoutIdHas(favs[1..], id, favs[0].malId);
        forall i, j | 0 <= i < j < |r|
          ensures r[i].malId != r[j].malId
        {
          if i == 0 {
            assert r[j] == tail[j - 1];
          } else {
            assert r[i] == tail[i - 1] && r[j] == tail[j - 1];
          }
        }
      }
    }
  }

  /** Toggling flips whether the item's id is among the favourites. */
  lemma ToggleFlips(favs: seq<Anime>, anime: Anime)
    ensures HasId(Toggled(favs, anime), anime.malId) <==> !HasId(favs, anime.malId)
  {
    if HasId(favs, anime.malId) {
      WithoutIdHas(favs, anime.malId, anime.malId);
    } else {
      var r := favs + [anime];
      assert r[|favs|].malId == anime.malId;
    }
  }

  /** Toggling leaves every other id's membership as it was. */
  lemma ToggleKeepsOtherIds(favs: seq<Anime>, anime: Anime, id: Option<int>)
    requires id != anime.malId
    ensures HasId(Toggled(favs, anime), id) <==> HasId(favs, id)
  {
    if HasId(favs, anime.malId) {
      WithoutIdHas(favs, anime.malId, id);
    } else {
      var r := favs + [anime];
      if HasId(favs, id) {
        var i :| 0 <= i < |favs| && favs[i].malId == id;
        assert r[i] == favs[i];
      }
      if HasId(r, id) {
        var i :| 0 <= i < |r| && r[i].malId == id;
        assert i < |favs|;
        assert favs[i] == r[i];
      }
    }
  }

  /** The entries with other ids keep their order and number: with the
      toggled id taken out, the list before and after is the same. */
  lemma ToggleKeepsOthersInOrder(favs: seq<Anime>, anime: Anime)
    ensures WithoutId(Toggled(favs, anime), anime.malId) == WithoutId(favs, anime.malId)
  {
    if HasId(favs, anime.malId) {
      WithoutIdTwice(favs, anime.malId);
    } else {
      WithoutIdAppend(favs, [anime], anime.malId);
      assert WithoutId([anime], anime.malId) == [];
      assert WithoutId(favs, anime.malId) + [] == WithoutId(favs, anime.malId);
    }
  }

  /** A list in which no id occurs twice keeps that property. */
  lemma ToggleKeepsUniqueIds(favs: seq<Anime>, anime: Anime)
    requires UniqueIds(favs)
    ensures UniqueIds(Toggled(favs, anime))
  {
    if HasId(favs, anime.malId) {
      WithoutIdUnique(favs, anime.malId);
    } else {
      var r := favs + [anime];
      forall i, j | 0 <= i < j < |r|
        ensures r[i].malId != r[j].malId
      {
        assert r[i] == favs[i];
        if j == |favs| {
          assert favs[i].malId != anime.malId;
        } else {
          assert r[j] == favs[j];
        }
      }
    }
  }

  /** Adding an item and toggling it again gives back the list itself. */
  lemma ToggleTwiceFromAbsent(favs: seq<Anime>, anime: Anime)
    requires !HasId(favs, anime.malId)
    ensures Toggled(Toggled(favs, anime), anime) == favs
  {
    ToggleFlips(favs, anime);
    WithoutIdAppend(favs, [anime], anime.malId);
    WithoutIdAbsent(favs, anime.malId);
    assert WithoutId([anime], anime.malId) == [];
    assert favs + [] == favs;
  }

  /** Two toggles restore which ids are favourites (a removed item comes
      back at the end, so positions may differ). */
  lemma ToggleTwiceRestoresMembership(favs: seq<Anime>, anime: Anime, id: Option<int>)
    ensures HasId(Toggled(Toggled(favs, anime), anime), id) <==> HasId(favs, id)
  {
    if id == anime.malId {
      ToggleFlips(favs, anime);
      ToggleFlips(Toggled(favs, anime), anime);
    } else {
      ToggleKeepsOtherIds(favs, anime, id);
      ToggleKeepsOtherIds(Toggled(favs, anime), anime, id);
    }
  }

  /** After `n` toggles of one item it is a favourite exactly when it was
      one before and `n` is even, or was not and `n` is odd. */
  lemma {:induction false} ToggleParity(favs: seq<Anime>, anime: Anime, n: nat)
    ensures HasId(ToggledTimes(favs, anime, n), anime.malId)
        <==> (HasId(favs, anime.malId) <==> n % 2 == 0)
  {
    if n > 0 {
      ToggleParity(favs, anime, n - 1);
      ToggleFlips(ToggledTimes(favs, anime, n - 1), anime);
    }
  }
}
