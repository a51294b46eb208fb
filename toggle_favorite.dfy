/** The favorites gate (src/domain/usecases/ToggleFavoriteUseCase.ts): a cat
    already among the favorites is removed; a new one is added when the user
    is premium (a token is stored) or has fewer than `MAX_FREE_FAVORITES`
    favorites, and is refused otherwise. Each repository step returns an
    `Either`; its `Left` is injected through `Faults` and returned unchanged,
    and no later step runs. */
module ToggleFavorite {
  import opened Wrappers
  import opened Codecs
  import opened Entities
  import opened Failures
  import opened Favorites
  import opened Keychain

  const MAX_FREE_FAVORITES := 3
  const LIMIT_MESSAGE := "Has alcanzado el límite de 3 favoritos gratuitos."

  /** The `Left` each repository call returns instead of its result, if any. */
  datatype Faults = Faults(
    getFavorites: Option<Failure>,
    removeFavorite: Option<Failure>,
    getToken: Option<Failure>,
    saveFavorite: Option<Failure>)

  const NO_FAULTS := Faults(None, None, None, None)

  /** The outcome of one toggle: what `execute` resolves to and the favorites
      list written back, if any. */
  datatype Decision = Decision(result: Either<Failure, bool>, written: Option<seq<Cat>>)

  /** The decision `execute` takes on the current favorites and premium status. */
  function Toggle(favorites: seq<Cat>, premium: bool, cat: Cat, faults: Faults): (d: Decision)
    ensures d.result.Left? <==> d.written.None?
    ensures d.result == Right(false) ==> HasId(favorites, cat.id) && d.written == Some(WithoutId(favorites, cat.id))
    ensures d.result == Right(true) ==> !HasId(favorites, cat.id) && d.written == Some(favorites + [cat])
  {
    if faults.getFavorites.Some? then Decision(Left(faults.getFavorites.value), None)
    else if HasId(favorites, cat.id) then
      if faults.removeFavorite.Some? then Decision(Left(faults.removeFavorite.value), None)
      else Decision(Right(false), Some(WithoutId(favorites, cat.id)))
    else if faults.getToken.Some? then Decision(Left(faults.getToken.value), None)
    else if !premium && |favorites| >= MAX_FREE_FAVORITES then
      Decision(Left(Failure(LimitReached, LIMIT_MESSAGE)), None)
    else if faults.saveFavorite.Some? then Decision(Left(faults.saveFavorite.value), None)
    else Decision(Right(true), Some(WithFavorite(favorites, cat)))
  }

  /** An existing favorite is removed whatever the premium status and
      whatever the token or save steps would have done. */
  lemma ToggleRemovesExisting(favorites: seq<Cat>, premium: bool, cat: Cat, faults: Faults)
    requires HasId(favorites, cat.id)
    requires faults.getFavorites.None? && faults.removeFavorite.None?
    ensures Toggle(favorites, premium, cat, faults) == Decision(Right(false), Some(WithoutId(favorites, cat.id)))
    ensures Toggle(favorites, premium, cat, faults) == Toggle(favorites, !premium, cat, Faults(None, None, Some(Failure(Storage, "")), Some(Failure(Storage, ""))))
  {
  }

  /** A free user at or above the limit is refused and nothing is written. */
  lemma ToggleBlocksFreeUserAtLimit(favorites: seq<Cat>, cat: Cat, faults: Faults)
    requires !HasId(favorites, cat.id) && |favorites| >= MAX_FREE_FAVORITES
    requires faults.getFavorites.None? && faults.getToken.None?
    ensures Toggle(favorites, false, cat, faults) == Decision(Left(Failure(LimitReached, LIMIT_MESSAGE)), None)
  {
  }

  /** A premium user adds a new cat whatever the count; so does a free user
      under the limit. The cat goes at the end. */
  lemma ToggleAddsNew(favorites: seq<Cat>, premium: bool, cat: Cat)
    requires !HasId(favorites, cat.id)
    requires premium || |favorites| < MAX_FREE_FAVORITES
    ensures Toggle(favorites, premium, cat, NO_FAULTS) == Decision(Right(true), Some(favorites + [cat]))
  {
  }

  /** The first `Left` is returned unchanged and nothing is written. */
  lemma ToggleShortCircuits(favorites: seq<Cat>, premium: bool, cat: Cat, faults: Faults)
    ensures faults.getFavorites.Some? ==> Toggle(favorites, premium, cat, faults) == Decision(Left(faults.getFavorites.value), None)
    ensures faults.getFavorites.None? && HasId(favorites, cat.id) && faults.removeFavorite.Some? ==>
              Toggle(favorites, premium, cat, faults) == Decision(Left(faults.removeFavorite.value), None)
    ensures faults.getFavorites.None? && !HasId(favorites, cat.id) && faults.getToken.Some? ==>
              Toggle(favorites, premium, cat, faults) == Decision(Left(faults.getToken.value), None)
    ensures faults.getFavorites.None? && !HasId(favorites, cat.id) && faults.getToken.None?
            && (premium || |favorites| < MAX_FREE_FAVORITES) && faults.saveFavorite.Some? ==>
              Toggle(favorites, premium, cat, faults) == Decision(Left(faults.saveFavorite.value), None)
  {
  }

  /** Whatever is written keeps the ids unique. */
  lemma ToggleKeepsUniqueIds(favorites: seq<Cat>, premium: bool, cat: Cat, faults: Faults)
    requires UniqueIds(favorites)
    ensures Toggle(favorites, premium, cat, faults).written.Some? ==> UniqueIds(Toggle(favorites, premium, cat, faults).written.value)
  {
    WithFavoriteKeepsUnique(favorites, cat);
    WithoutIdKeepsUnique(favorites, cat.id);
  }

  /** A free user who starts within the limit stays within it. */
  lemma ToggleKeepsFreeLimit(favorites: seq<Cat>, cat: Cat, faults: Faults)
    requires |favorites| <= MAX_FREE_FAVORITES
    ensures Toggle(favorites, false, cat, faults).written.Some? ==> |Toggle(favorites, false, cat, faults).written.value| <= MAX_FREE_FAVORITES
  {
  }

  /** Toggling a new cat twice gives back the original list. */
  lemma ToggleTwiceRestores(favorites: seq<Cat>, premium: bool, cat: Cat)
    requires !HasId(favorites, cat.id)
    requires premium || |favorites| < MAX_FREE_FAVORITES
    ensures var added := Toggle(favorites, premium, cat, NO_FAULTS).written.value;
            Toggle(added, premium, cat, NO_FAULTS) == Decision(Right(false), Some(favorites))
  {
    var added := favorites + [cat];
    WithoutIdAppend(favorites, [cat], cat.id);
    WithoutAbsentId(favorites, cat.id);
    assert [cat][1..] == [];
    assert WithoutId([cat], cat.id) == [];
    assert added[|favorites|] == cat;
    assert HasId(added, cat.id);
    assert WithoutId(added, cat.id) == favorites + [];
    assert favorites + [] == favorites;
    assert Toggle(favorites, premium, cat, NO_FAULTS).written.value == added;
    assert Toggle(added, premium, cat, NO_FAULTS) == Decision(Right(false), Some(WithoutId(added, cat.id)));
  }

  /** From no favorites and no token, three distinct cats are added and a
      fourth is refused. */
  lemma {:induction false} FreeTierScenario(c1: Cat, c2: Cat, c3: Cat, c4: Cat)
    requires c1.id != c2.id && c1.id != c3.id && c1.id != c4.id
    requires c2.id != c3.id && c2.id != c4.id && c3.id != c4.id
    ensures Toggle([], false, c1, NO_FAULTS) == Decision(Right(true), Some([c1]))
    ensures Toggle([c1], false, c2, NO_FAULTS) == Decision(Right(true), Some([c1, c2]))
    ensures Toggle([c1, c2], false, c3, NO_FAULTS) == Decision(Right(true), Some([c1, c2, c3]))
    ensures Toggle([c1, c2, c3], false, c4, NO_FAULTS).result == Left(Failure(LimitReached, LIMIT_MESSAGE))
  {
    assert !HasId([c1], c2.id);
    assert !HasId([c1, c2], c3.id) by {
      assert forall i :: 0 <= i < 2 ==> [c1, c2][i].id != c3.id;
    }
    assert !HasId([c1, c2, c3], c4.id) by {
      assert forall i :: 0 <= i < 3 ==> [c1, c2, c3][i].id != c4.id;
    }
    assert [c1] + [c2] == [c1, c2];
    assert [c1, c2] + [c3] == [c1, c2, c3];
  }

  /** `ToggleFavoriteUseCase` over the favorites store and the token vault. */
  class ToggleFavoriteUseCase {
    const favorites: FavoritesStore
    const tokens: TokenVault

    constructor (favorites: FavoritesStore, tokens: TokenVault)
      ensures this.favorites == favorites && this.tokens == tokens
    {
      this.favorites := favorites;
      this.tokens := tokens;
    }

    /** The favorites as the repository reads them. */
    function Current(): seq<Cat>
      reads favorites
    {
      StoredFavorites(favorites.storage, favorites.json, false)
    }

    /** Premium means a token is stored (`!!token`). */
    function Premium(): bool
      reads tokens.slot
    {
      StoredToken(tokens.slot.credentials, tokens.json, false).Some?
    }

    /** `execute(cat)`: the result is the decision `Toggle` takes, and the
        store holds the written list, or is untouched when nothing is written. */
    method Execute(cat: Cat, faults: Faults) returns (result: Either<Failure, bool>)
      modifies favorites
      ensures var d := Toggle(old(Current()), Premium(), cat, faults);
              && result == d.result
              && favorites.storage == if d.written.Some? then old(favorites.storage)[FAVORITES_KEY := favorites.json.encode(d.written.value)]
                                      else old(favorites.storage)
    {
      if faults.getFavorites.Some? {
        return Left(faults.getFavorites.value);
      }
      var current := favorites.GetFavorites(false);
      if HasId(current, cat.id) {
        if faults.removeFavorite.Some? {
          return Left(faults.removeFavorite.value);
        }
        var _ := favorites.RemoveFavorite(cat.id, false, None);
        return Right(false);
      }
      if faults.getToken.Some? {
        return Left(faults.getToken.value);
      }
      var token := tokens.GetToken(false);
      var premium := token.Some?;
      if !premium && |current| >= MAX_FREE_FAVORITES {
        return Left(Failure(LimitReached, LIMIT_MESSAGE));
      }
      if faults.saveFavorite.Some? {
        return Left(faults.saveFavorite.value);
      }
      var _ := favorites.SaveFavorite(cat, false, None);
      result := Right(true);
    }
  }
}
