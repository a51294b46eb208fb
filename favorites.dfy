/** The favorites list kept in the device's key-value storage
    (src/data/datasources/FavoritesDataSource.ts, and the same code in
    src/data/repositories/StorageRepositoryImpl.ts): a JSON list of cats under
    one key, read, changed and written back whole. JSON is an abstract codec;
    storage failures are parameters. */
module Favorites {
  import opened Wrappers
  import opened Codecs
  import opened Entities

  const FAVORITES_KEY := "@favorites_v1"

  /** `saveFavorite`'s new list: the cat appended at the end unless a cat
      with its id is already there. */
  function WithFavorite(current: seq<Cat>, cat: Cat): (updated: seq<Cat>)
    ensures HasId(updated, cat.id)
    ensures |current| <= |updated| <= |current| + 1 && updated[..|current|] == current
    ensures |updated| == |current| + 1 <==> !HasId(current, cat.id)
    ensures |updated| == |current| + 1 ==> updated[|current|] == cat
  {
    if HasId(current, cat.id) then current
    else assert (current + [cat])[|current|] == cat; current + [cat]
  }

  /** `current.filter(c => c.id !== id)`. */
  function WithoutId(cats: seq<Cat>, id: string): (kept: seq<Cat>)
    ensures !HasId(kept, id)
    ensures forall c :: c in kept <==> c in cats && c.id != id
    ensures |kept| <= |cats|
  {
    if cats == [] then []
    else (if cats[0].id == id then [] else [cats[0]]) + WithoutId(cats[1..], id)
  }

  /** The filter keeps the order: filtering a concatenation is concatenating
      the filtered parts. */
  lemma {:induction false} WithoutIdAppend(a: seq<Cat>, b: seq<Cat>, id: string)
    ensures WithoutId(a + b, id) == WithoutId(a, id) + WithoutId(b, id)
  {
    if a == [] {
      assert a + b == b;
    } else {
      var ab := a + b;
      assert ab[0] == a[0] && ab[1..] == a[1..] + b;
      WithoutIdAppend(a[1..], b, id);
    }
  }

  /** Removing an id that is not there changes nothing. */
  lemma {:induction false} WithoutAbsentId(cats: seq<Cat>, id: string)
    requires !HasId(cats, id)
    ensures WithoutId(cats, id) == cats
  {
    if cats != [] {
      assert cats[0].id != id;
      assert !HasId(cats[1..], id) by {
        forall i | 0 <= i < |cats[1..]| ensures cats[1..][i].id != id {
          assert cats[1..][i] == cats[i + 1];
        }
      }
      WithoutAbsentId(cats[1..], id);
      assert [cats[0]] + cats[1..] == cats;
    }
  }

  /** Saving a cat twice is saving it once. */
  lemma WithFavoriteIdempotent(current: seq<Cat>, cat: Cat)
    ensures WithFavorite(WithFavorite(current, cat), cat) == WithFavorite(current, cat)
  {
  }

  /** Saving keeps the ids unique. */
  lemma WithFavoriteKeepsUnique(current: seq<Cat>, cat: Cat)
    requires UniqueIds(current)
    ensures UniqueIds(WithFavorite(current, cat))
  {
    if !HasId(current, cat.id) {
      var u := current + [cat];
      forall i, j | 0 <= i < j < |u| ensures u[i].id != u[j].id {
        if j == |current| {
          assert u[i] == current[i];
        } else {
          assert u[i] == current[i] && u[j] == current[j];
        }
      }
    }
  }

  /** Removing keeps the ids unique. */
  lemma {:induction false} WithoutIdKeepsUnique(cats: seq<Cat>, id: string)
    requires UniqueIds(cats)
    ensures UniqueIds(WithoutId(cats, id))
  {
    if cats != [] {
      var rest := cats[1..];
      assert UniqueIds(rest) by {
        forall i, j | 0 <= i < j < |rest| ensures rest[i].id != rest[j].id {
          assert rest[i] == cats[i + 1] && rest[j] == cats[j + 1];
        }
      }
      WithoutIdKeepsUnique(rest, id);
      var tail := WithoutId(rest, id);
      if cats[0].id != id {
        assert !HasId(tail, cats[0].id) by {
          forall k | 0 <= k < |tail| ensures tail[k].id != cats[0].id {
            assert tail[k] in rest;
            var m :| 0 <= m < |rest| && rest[m] == tail[k];
            assert cats[m + 1] == tail[k];
          }
        }
        ConsKeepsUnique(cats[0], tail);
      }
    }
  }

  /** Putting a cat with a new id in front keeps the ids unique. */
  lemma ConsKeepsUnique(cat: Cat, tail: seq<Cat>)
    requires UniqueIds(tail) && !HasId(tail, cat.id)
    ensures UniqueIds([cat] + tail)
  {
    var u := [cat] + tail;
    forall i, j | 0 <= i < j < |u| ensures u[i].id != u[j].id {
      assert u[j] == tail[j - 1];
      if i > 0 {
        assert u[i] == tail[i - 1];
      }
    }
  }

  /** What `getFavorites` returns: the stored list, or the empty list when
      the key is absent, the read fails or the stored text does not parse. */
  function StoredFavorites(storage: map<string, string>, json: Codec<seq<Cat>, string>, readFails: bool): (cats: seq<Cat>)
    ensures readFails || FAVORITES_KEY !in storage ==> cats == []
  {
    if readFails || FAVORITES_KEY !in storage then []
    else
      match json.decode(storage[FAVORITES_KEY])
      case Some(cats) => cats
      case None => []
  }

  /** A list written under the key is read back as it was. */
  lemma StoredAfterWrite(storage: map<string, string>, json: Codec<seq<Cat>, string>, cats: seq<Cat>)
    requires RoundTrips(json)
    ensures StoredFavorites(storage[FAVORITES_KEY := json.encode(cats)], json, false) == cats
  {
    RoundTripAt(json, cats);
  }

  /** `FavoritesDataSourceImpl` over its key-value storage. */
  class FavoritesStore {
    var storage: map<string, string>
    const json: Codec<seq<Cat>, string>

    constructor (storage: map<string, string>, json: Codec<seq<Cat>, string>)
      ensures this.storage == storage && this.json == json
    {
      this.storage := storage;
      this.json := json;
    }

    /** `getFavorites`; a read failure is caught and gives the empty list. */
    method GetFavorites(readFails: bool) returns (cats: seq<Cat>)
      ensures cats == StoredFavorites(storage, json, readFails)
    {
      if readFails || FAVORITES_KEY !in storage {
        return [];
      }
      var parsed := json.decode(storage[FAVORITES_KEY]);
      cats := if parsed.Some? then parsed.value else [];
    }

    /** `saveFavorite`: reads the list, and writes it back with the cat
        appended only when its id is new. Only the favorites key is written;
        a failed write rejects and leaves the storage as it was. */
    method SaveFavorite(cat: Cat, readFails: bool, writeError: Option<string>) returns (outcome: Outcome<Unit>)
      modifies this
      ensures var current := StoredFavorites(old(storage), json, readFails);
              if HasId(current, cat.id) then storage == old(storage) && outcome == Resolved(Unit)
              else if writeError.Some? then storage == old(storage) && outcome == Rejected(writeError.value)
              else storage == old(storage)[FAVORITES_KEY := json.encode(WithFavorite(current, cat))] && outcome == Resolved(Unit)
    {
      var current := GetFavorites(readFails);
      if !HasId(current, cat.id) {
        var updated := current + [cat];
        if writeError.Some? {
          return Rejected(writeError.value);
        }
        storage := storage[FAVORITES_KEY := json.encode(updated)];
      }
      outcome := Resolved(Unit);
    }

    /** `removeFavorite`: reads the list and always writes it back without
        the cats of that id. */
    method RemoveFavorite(id: string, readFails: bool, writeError: Option<string>) returns (outcome: Outcome<Unit>)
      modifies this
      ensures var current := StoredFavorites(old(storage), json, readFails);
              if writeError.Some? then storage == old(storage) && outcome == Rejected(writeError.value)
              else storage == old(storage)[FAVORITES_KEY := json.encode(WithoutId(current, id))] && outcome == Resolved(Unit)
    {
      var current := GetFavorites(readFails);
      var updated := WithoutId(current, id);
      if writeError.Some? {
        return Rejected(writeError.value);
      }
      storage := storage[FAVORITES_KEY := json.encode(updated)];
      outcome := Resolved(Unit);
    }
  }

  /** Saving the same cat twice leaves the storage as saving it once. */
  method SaveTwice(store: FavoritesStore, cat: Cat) returns (first: Outcome<Unit>, second: Outcome<Unit>)
    requires RoundTrips(store.json)
    modifies store
    ensures first == Resolved(Unit) && second == Resolved(Unit)
    ensures StoredFavorites(store.storage, store.json, false)
            == WithFavorite(StoredFavorites(old(store.storage), store.json, false), cat)
  {
    var before := store.storage;
    first := store.SaveFavorite(cat, false, None);
    var afterFirst := store.storage;
    if !HasId(StoredFavorites(before, store.json, false), cat.id) {
      StoredAfterWrite(before, store.json, WithFavorite(StoredFavorites(before, store.json, false), cat));
    }
    second := store.SaveFavorite(cat, false, None);
    assert HasId(StoredFavorites(afterFirst, store.json, false), cat.id);
  }
}
