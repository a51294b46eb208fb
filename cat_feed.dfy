/** The infinite cat feed (src/presentation/hooks/useCatFeed.ts): the page
    number to load next, and the list shown, which is the loaded pages
    flattened with every repeated id dropped after its first occurrence
    (the API can return the same cat on two pages). */
module CatFeed {
  import opened Wrappers
  import opened Entities

  /** `getNextPageParam(lastPage, allPages)`: `None` (`undefined`, no more
      pages) after an empty page, else the number of pages loaded so far,
      which is the index of the next page since pages count from 0. */
  function NextPageParam(lastPage: seq<Cat>, allPages: seq<seq<Cat>>): (next: Option<nat>)
    ensures next.None? <==> lastPage == []
    ensures next.Some? ==> next.value == |allPages|
  {
    if |lastPage| == 0 then None else Some(|allPages|)
  }

  /** The pages the feed holds after `n` calls of `fetchNextPage`, where
      `server(k)` is the page the API answers for page index `k`: the first
      load asks for page 0, and each later call asks for the page
      `NextPageParam` names, doing nothing once that is `undefined`. */
  function Loaded(server: nat -> seq<Cat>, n: nat): (pages: seq<seq<Cat>>)
    ensures 1 <= |pages| <= n + 1
  {
    if n == 0 then [server(0)]
    else
      var pages := Loaded(server, n - 1);
      var next := NextPageParam(pages[|pages| - 1], pages);
      if next.None? then pages else pages + [server(next.value)]
  }

  /** The feed requests pages 0, 1, 2, ... in order, without skipping or
      repeating one, and stops only after an empty page. */
  lemma {:induction false} LoadedInOrder(server: nat -> seq<Cat>, n: nat)
    ensures var pages := Loaded(server, n);
            && (forall k :: 0 <= k < |pages| ==> pages[k] == server(k))
            && (forall k :: 0 <= k < |pages| - 1 ==> pages[k] != [])
            && (|pages| == n + 1 || pages[|pages| - 1] == [])
  {
    if n > 0 {
      LoadedInOrder(server, n - 1);
    }
  }

  /** `pages.flatMap(page => page)`. */
  function Flatten(pages: seq<seq<Cat>>): (all: seq<Cat>)
    ensures pages == [] ==> all == []
  {
    if pages == [] then [] else pages[0] + Flatten(pages[1..])
  }

  /** Loading one more page appends its cats to the flattened list. */
  lemma {:induction false} FlattenSnoc(pages: seq<seq<Cat>>, page: seq<Cat>)
    ensures Flatten(pages + [page]) == Flatten(pages) + page
  {
    if pages == [] {
      assert [] + [page] == [page];
      assert [page][1..] == [];
    } else {
      assert (pages + [page])[1..] == pages[1..] + [page];
      FlattenSnoc(pages[1..], page);
    }
  }

  /** The reference meaning of the de-duplication: scanning the cats in
      order, a cat is kept when no kept cat has its id yet. */
  function KeepFirst(cats: seq<Cat>): (kept: seq<Cat>)
    ensures |kept| <= |cats|
  {
    if cats == [] then []
    else
      var k := KeepFirst(cats[..|cats| - 1]);
      if HasId(k, cats[|cats| - 1].id) then k else k + [cats[|cats| - 1]]
  }

  /** The index of the first cat with the id. */
  function FirstIndex(cats: seq<Cat>, id: string): (i: nat)
    requires HasId(cats, id)
    ensures i < |cats| && cats[i].id == id
    ensures forall j :: 0 <= j < i ==> cats[j].id != id
  {
    var prefix := cats[..|cats| - 1];
    if HasId(prefix, id) then
      FirstIndex(prefix, id)
    else
      assert forall j :: 0 <= j < |cats| - 1 ==> cats[j] == prefix[j];
      |cats| - 1
  }

  /** Every id of the input appears in the output, and no other. */
  lemma {:induction false} KeepFirstSameIds(cats: seq<Cat>, id: string)
    ensures HasId(KeepFirst(cats), id) <==> HasId(cats, id)
  {
    if cats != [] {
      var prefix := cats[..|cats| - 1];
      var last := cats[|cats| - 1];
      var k := KeepFirst(prefix);
      KeepFirstSameIds(prefix, id);
      if HasId(cats, id) {
        var i :| 0 <= i < |cats| && cats[i].id == id;
        if i < |cats| - 1 {
          assert prefix[i] == cats[i];
          assert HasId(k, id);
          if !HasId(k, last.id) {
            var j :| 0 <= j < |k| && k[j].id == id;
            assert (k + [last])[j] == k[j];
          }
        } else if HasId(k, last.id) {
          assert HasId(k, id);
        } else {
          assert (k + [last])[|k|] == last;
        }
      }
      if HasId(KeepFirst(cats), id) {
        if HasId(k, last.id) || id == last.id {
          if id == last.id {
            assert cats[|cats| - 1].id == id;
          } else {
            assert HasId(prefix, id);
          }
        } else {
          var j :| 0 <= j < |k| + 1 && (k + [last])[j].id == id;
          assert j < |k| && k[j].id == id;
          assert HasId(prefix, id);
        }
        if HasId(prefix, id) {
          var j :| 0 <= j < |prefix| && prefix[j].id == id;
          assert cats[j].id == id;
        }
      }
    }
  }

  /** No two cats of the output share an id. */
  lemma {:induction false} KeepFirstUnique(cats: seq<Cat>)
    ensures UniqueIds(KeepFirst(cats))
  {
    if cats != [] {
      var prefix := cats[..|cats| - 1];
      var last := cats[|cats| - 1];
      var k := KeepFirst(prefix);
      KeepFirstUnique(prefix);
      if !HasId(k, last.id) {
        var u := k + [last];
        forall i, j | 0 <= i < j < |u| ensures u[i].id != u[j].id {
          if j == |k| {
            assert u[i] == k[i];
          } else {
            assert u[i] == k[i] && u[j] == k[j];
          }
        }
      }
    }
  }

  /** Each cat kept is the first cat of the input with its id. */
  lemma {:induction false} KeepFirstKeepsFirstOccurrence(cats: seq<Cat>, k: nat)
    requires k < |KeepFirst(cats)|
    ensures HasId(cats, KeepFirst(cats)[k].id)
    ensures KeepFirst(cats)[k] == cats[FirstIndex(cats, KeepFirst(cats)[k].id)]
  {
    var prefix := cats[..|cats| - 1];
    var last := cats[|cats| - 1];
    var kept := KeepFirst(prefix);
    var c := KeepFirst(cats)[k];
    if k < |kept| {
      assert c == kept[k];
      KeepFirstKeepsFirstOccurrence(prefix, k);
      var i := FirstIndex(prefix, c.id);
      assert prefix[i] == cats[i];
      assert HasId(cats, c.id);
      assert HasId(prefix, c.id);
    } else {
      assert !HasId(kept, last.id) && c == last;
      KeepFirstSameIds(prefix, last.id);
      assert cats[|cats| - 1].id == c.id;
      assert !HasId(prefix, c.id);
    }
  }

  /** Without repeated ids nothing is dropped: the output is the input. */
  lemma {:induction false} KeepFirstOfUnique(cats: seq<Cat>)
    requires UniqueIds(cats)
    ensures KeepFirst(cats) == cats
  {
    if cats != [] {
      var prefix := cats[..|cats| - 1];
      var last := cats[|cats| - 1];
      assert UniqueIds(prefix) by {
        forall i, j | 0 <= i < j < |prefix| ensures prefix[i].id != prefix[j].id {
          assert prefix[i] == cats[i] && prefix[j] == cats[j];
        }
      }
      KeepFirstOfUnique(prefix);
      assert !HasId(prefix, last.id) by {
        forall i | 0 <= i < |prefix| ensures prefix[i].id != last.id {
          assert prefix[i] == cats[i];
        }
      }
      assert prefix + [last] == cats;
    }
  }

  /** Loading more cats never drops or reorders the cats already shown: the
      old list is a prefix of the new one. */
  lemma {:induction false} KeepFirstExtends(shown: seq<Cat>, more: seq<Cat>)
    ensures |KeepFirst(shown)| <= |KeepFirst(shown + more)|
    ensures KeepFirst(shown + more)[..|KeepFirst(shown)|] == KeepFirst(shown)
  {
    if more == [] {
      assert shown + more == shown;
    } else {
      var init := more[..|more| - 1];
      KeepFirstExtends(shown, init);
      assert (shown + more)[..|shown + more| - 1] == shown + init;
      assert (shown + more)[|shown + more| - 1] == more[|more| - 1];
    }
  }

  /** Fetching the next page keeps the feed shown so far as its prefix. */
  lemma FeedGrowsAtEnd(pages: seq<seq<Cat>>, page: seq<Cat>)
    ensures var before := KeepFirst(Flatten(pages));
            var after := KeepFirst(Flatten(pages + [page]));
            |before| <= |after| && after[..|before|] == before
  {
    FlattenSnoc(pages, page);
    KeepFirstExtends(Flatten(pages), page);
  }

  /** The `cats` memo: `[]` while there is no data, otherwise the pages
      flattened and de-duplicated by id through an insertion-ordered `Map`,
      modelled as the values in insertion order plus the set of its keys. */
  method FeedCats(data: Option<seq<seq<Cat>>>) returns (cats: seq<Cat>)
    ensures data.None? ==> cats == []
    ensures data.Some? ==> cats == KeepFirst(Flatten(data.value))
  {
    if data.None? {
      return [];
    }
    var allCats := Flatten(data.value);
    var ids: set<string> := {};
    cats := [];
    var i := 0;
    while i < |allCats|
      invariant 0 <= i <= |allCats|
      invariant cats == KeepFirst(allCats[..i])
      invariant forall id :: id in ids <==> HasId(cats, id)
    {
      var cat := allCats[i];
      assert allCats[..i + 1][..i] == allCats[..i];
      assert allCats[..i + 1][i] == cat;
      if cat.id !in ids {
        ids := ids + {cat.id};
        assert (cats + [cat])[|cats|] == cat;
        forall id | HasId(cats + [cat], id) ensures id in ids {
          var j :| 0 <= j < |cats| + 1 && (cats + [cat])[j].id == id;
          if j < |cats| {
            assert cats[j].id == id;
          }
        }
        forall id | HasId(cats, id) ensures HasId(cats + [cat], id) {
          var j :| 0 <= j < |cats| && cats[j].id == id;
          assert (cats + [cat])[j] == cats[j];
        }
        cats := cats + [cat];
      }
      i := i + 1;
    }
    assert allCats[..i] == allCats;
  }
}
