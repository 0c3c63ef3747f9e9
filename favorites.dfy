/** A user's favourites list and `toggleFavorite`. */
module Favorites {
  import opened Model

  /** `list.filter(rid => rid !== id)`: every occurrence of `id` goes, every other
      id keeps its number of occurrences; `WithoutAppend` and `WithoutSingle`
      show that the survivors also keep their order. */
  function Without(s: seq<RecipeId>, id: RecipeId): (r: seq<RecipeId>)
    ensures id !in r
    ensures forall x :: x != id ==> multiset(r)[x] == multiset(s)[x]
    ensures id !in s ==> r == s
    ensures |r| <= |s|
  {
    if |s| == 0 then []
    else
      var front := s[..|s| - 1];
      assert s == front + [s[|s| - 1]];
      Without(front, id) + (if s[|s| - 1] == id then [] else [s[|s| - 1]])
  }

  /** Filtering a concatenation filters each part: the survivors of `a` come
      first, in their order, then those of `b`. */
  lemma {:induction false} WithoutAppend(a: seq<RecipeId>, b: seq<RecipeId>, id: RecipeId)
    ensures Without(a + b, id) == Without(a, id) + Without(b, id)
    decreases |b|
  {
    if |b| == 0 {
      assert a + b == a;
    } else {
      var b', last := b[..|b| - 1], b[|b| - 1];
      assert (a + b)[..|a + b| - 1] == a + b';
      assert (a + b)[|a + b| - 1] == last;
      WithoutAppend(a, b', id);
    }
  }

  /** A one-element list keeps its element exactly when it is not `id`. */
  lemma WithoutSingle(x: RecipeId, id: RecipeId)
    ensures Without([x], id) == if x == id then [] else [x]
  {
    assert [x][..0] == [];
  }

  /** The survivors of any prefix of the list are a prefix of the survivors of
      the whole list: filtering never reorders. */
  lemma WithoutPrefix(s: seq<RecipeId>, id: RecipeId, k: nat)
    requires k <= |s|
    ensures Without(s[..k], id) <= Without(s, id)
  {
    assert s == s[..k] + s[k..];
    WithoutAppend(s[..k], s[k..], id);
  }

  /** `toggleFavorite` on the current user's list: a present id is removed
      everywhere, an absent one is appended at the end. */
  function Toggled(favs: seq<RecipeId>, id: RecipeId): (r: seq<RecipeId>)
    ensures id in r <==> id !in favs
    ensures id in favs ==> forall x :: x != id ==> multiset(r)[x] == multiset(favs)[x]
    ensures id in favs ==> r == Without(favs, id)
    ensures id !in favs ==> |r| == |favs| + 1 && r[..|favs|] == favs && r[|favs|] == id
  {
    if id in favs then Without(favs, id) else favs + [id]
  }

  /** Toggling an absent id twice gives the original list back. */
  lemma ToggleTwiceRestores(favs: seq<RecipeId>, id: RecipeId)
    requires id !in favs
    ensures Toggled(Toggled(favs, id), id) == favs
  {
    var once := favs + [id];
    assert once[..|once| - 1] == favs;
  }

  /** Toggling a present id twice leaves exactly one copy, at the end. */
  lemma ToggleTwiceOfPresent(favs: seq<RecipeId>, id: RecipeId)
    requires id in favs
    ensures Toggled(Toggled(favs, id), id) == Without(favs, id) + [id]
  {
  }
}
