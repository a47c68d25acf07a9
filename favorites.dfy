/**
 * Per-user favourite stocks (`src/utils/favorites.py`): a dictionary from
 * the decimal text of a user id to that user's list, loaded once and
 * written back after every change. The file is the field `disk`.
 */
module Favorites {
  import opened Base
  import Decimal

  /** A favourite: the stock code the list is keyed by, and the rest of the stored record. */
  datatype Favorite = Favorite(code: string, name: string, market: Option<string>)

  /** The favourites file as the loader finds it. */
  datatype FavoritesFile = Missing | Unreadable | Stored(content: map<string, seq<Favorite>>)

  /** The dictionary key of a user: `str(user_id)`. */
  function UserKey(userId: int): string {
    Decimal.IntToString(userId)
  }

  /** The list of user `userId` in dictionary `m`, empty when absent. */
  function ListOf(m: map<string, seq<Favorite>>, userId: int): seq<Favorite> {
    if UserKey(userId) in m then m[UserKey(userId)] else []
  }

  /** Some favourite in `items` has code `code`. */
  predicate HasCode(items: seq<Favorite>, code: string) {
    exists i :: 0 <= i < |items| && items[i].code == code
  }

  /** What `_load_favorites_sync` leaves in memory. */
  function Loaded(file: FavoritesFile): (m: map<string, seq<Favorite>>)
    ensures file.Stored? ==> m == file.content
    ensures !file.Stored? ==> m == map[]
  {
    if file.Stored? then file.content else map[]
  }

  /** The list kept by `remove_favorite`: every item whose code differs. */
  function Without(items: seq<Favorite>, code: string): (r: seq<Favorite>)
    ensures !HasCode(r, code)
    ensures forall x :: x in r <==> x in items && x.code != code
    ensures |r| < |items| <==> HasCode(items, code)
  {
    var r := Filter(items, (x: Favorite) => x.code != code);
    FilterShorter(items, (x: Favorite) => x.code != code);
    forall x | x in items && x.code != code
      ensures x in r
    {
      FilterKeeps(items, x, (x: Favorite) => x.code != code);
    }
    assert !HasCode(r, code) by {
      forall i | 0 <= i < |r| ensures r[i].code != code {
        assert r[i] in r;
      }
    }
    r
  }

  /** Distinct users have distinct keys, so a change under one key leaves every other user's list alone. */
  lemma OthersUnchanged(m: map<string, seq<Favorite>>, userId: int, items: seq<Favorite>)
    ensures forall u :: u != userId ==> ListOf(m[UserKey(userId) := items], u) == ListOf(m, u)
    ensures ListOf(m[UserKey(userId) := items], userId) == items
  {
    forall u | u != userId
      ensures ListOf(m[UserKey(userId) := items], u) == ListOf(m, u)
    {
      if UserKey(u) == UserKey(userId) {
        Decimal.IntToStringInjective(u, userId);
      }
    }
  }

  class FavoritesManager {
    var favorites: map<string, seq<Favorite>>
    var disk: FavoritesFile

    /** `__init__`: the file is read once; a missing or unreadable file gives no favourites. */
    constructor (file: FavoritesFile)
      ensures favorites == Loaded(file) && disk == file
    {
      favorites := Loaded(file);
      disk := file;
    }

    /**
     * `add_favorite`: refused when the user already has that code;
     * otherwise appended at the end of the user's list (created if
     * missing) and saved. No other user's list changes.
     */
    method AddFavorite(userId: int, info: Favorite) returns (added: bool)
      modifies this
      ensures added <==> !HasCode(ListOf(old(favorites), userId), info.code)
      ensures !added ==> favorites == old(favorites) && disk == old(disk)
      ensures added ==> favorites == old(favorites)[UserKey(userId) := ListOf(old(favorites), userId) + [info]]
      ensures added ==> disk == Stored(favorites)
      ensures ListOf(favorites, userId) == ListOf(old(favorites), userId) + (if added then [info] else [])
      ensures HasCode(ListOf(favorites, userId), info.code)
      ensures forall u :: u != userId ==> ListOf(favorites, u) == ListOf(old(favorites), u)
    {
      var key := UserKey(userId);
      var current := ListOf(favorites, userId);
      var k := 0;
      while k < |current|
        invariant 0 <= k <= |current|
        invariant forall i :: 0 <= i < k ==> current[i].code != info.code
      {
        if current[k].code == info.code {
          return false;
        }
        k := k + 1;
      }
      favorites := favorites[key := current + [info]];
      OthersUnchanged(old(favorites), userId, current + [info]);
      assert (current + [info])[|current|].code == info.code;
      disk := Stored(favorites);
      return true;
    }

    /**
     * `remove_favorite`: an unknown user gets `false` and nothing changes;
     * otherwise every item with the code is dropped, and the answer (and
     * the save) is whether the list got shorter. Afterwards no item with
     * the code remains, so a second removal answers `false`.
     */
    method RemoveFavorite(userId: int, code: string) returns (removed: bool)
      modifies this
      ensures UserKey(userId) !in old(favorites) ==> !removed && favorites == old(favorites) && disk == old(disk)
      ensures UserKey(userId) in old(favorites) ==>
                favorites == old(favorites)[UserKey(userId) := Without(old(favorites)[UserKey(userId)], code)]
      ensures removed <==> HasCode(ListOf(old(favorites), userId), code)
      ensures removed ==> disk == Stored(favorites)
      ensures !removed ==> disk == old(disk)
      ensures !HasCode(ListOf(favorites, userId), code)
      ensures forall u :: u != userId ==> ListOf(favorites, u) == ListOf(old(favorites), u)
    {
      var key := UserKey(userId);
      if key !in favorites {
        return false;
      }
      var initial := |favorites[key]|;
      var kept := Without(favorites[key], code);
      OthersUnchanged(favorites, userId, kept);
      favorites := favorites[key := kept];
      if |kept| < initial {
        disk := Stored(favorites);
        return true;
      }
      return false;
    }

    /** `get_favorites`: the user's list, or an empty one. */
    method GetFavorites(userId: int) returns (items: seq<Favorite>)
      ensures UserKey(userId) in favorites ==> items == favorites[UserKey(userId)]
      ensures UserKey(userId) !in favorites ==> items == []
    {
      items := ListOf(favorites, userId);
    }
  }
}
