/**
 * The favourites list of the store (AppContext.tsx lines 77-85): saving a
 * colour prepends it unless it is already there, deleting one filters every
 * equal entry out. The list is kept newest first and, as long as it starts
 * without duplicates, never gains one.
 */
module Favorites {

  /** No colour occurs twice (entries are compared as exact strings). */
  predicate NoDup(s: seq<string>)
  {
    forall i, j :: 0 <= i < j < |s| ==> s[i] != s[j]
  }

  /** `a` is `b` with some entries dropped and the others in their order. */
  ghost predicate IsSubsequence(a: seq<string>, b: seq<string>)
  {
    if a == [] then true
    else if b == [] then false
    else if a[0] == b[0] then IsSubsequence(a[1..], b[1..])
    else IsSubsequence(a, b[1..])
  }

  /** `addFavorite`: the colour goes in front unless the list already holds it. */
  function Add(favs: seq<string>, c: string): (r: seq<string>)
    ensures c in r
    ensures forall x :: x in r <==> x == c || x in favs
    ensures c in favs ==> r == favs
    ensures c !in favs ==> |r| == |favs| + 1 && r[0] == c && r[1..] == favs
    ensures NoDup(favs) ==> NoDup(r)
  {
    if c in favs then favs else [c] + favs
  }

  /** `removeFavorite`: `favs.filter(x => x !== c)`. */
  function Remove(favs: seq<string>, c: string): (r: seq<string>)
    ensures forall x :: x in r <==> x in favs && x != c
    ensures IsSubsequence(r, favs)
    ensures multiset(r) == multiset(favs)[c := 0]
  {
    if favs == [] then []
    else if favs[0] == c then
      var rest := Remove(favs[1..], c);
      assert rest != [] ==> rest[0] in rest && rest[0] != favs[0];
      assert favs == [favs[0]] + favs[1..];
      rest
    else
      assert favs == [favs[0]] + favs[1..];
      [favs[0]] + Remove(favs[1..], c)
  }

  /** Saving a colour twice in a row is the same as saving it once. */
  lemma AddIdempotent(favs: seq<string>, c: string)
    ensures Add(Add(favs, c), c) == Add(favs, c)
  {
  }

  /** Deleting a colour that is not in the list changes nothing. */
  lemma {:induction false} RemoveAbsent(favs: seq<string>, c: string)
    requires c !in favs
    ensures Remove(favs, c) == favs
  {
    if favs != [] {
      RemoveAbsent(favs[1..], c);
      assert [favs[0]] + favs[1..] == favs;
    }
  }

  /** Deleting a colour twice in a row is the same as deleting it once. */
  lemma RemoveIdempotent(favs: seq<string>, c: string)
    ensures Remove(Remove(favs, c), c) == Remove(favs, c)
  {
    RemoveAbsent(Remove(favs, c), c);
  }

  /** A list without duplicates stays without duplicates after a delete. */
  lemma {:induction false} RemoveKeepsNoDup(favs: seq<string>, c: string)
    requires NoDup(favs)
    ensures NoDup(Remove(favs, c))
  {
    if favs != [] {
      assert NoDup(favs[1..]) by {
        forall i, j | 0 <= i < j < |favs[1..]| ensures favs[1..][i] != favs[1..][j] {
          assert favs[1..][i] == favs[i + 1] && favs[1..][j] == favs[j + 1];
        }
      }
      RemoveKeepsNoDup(favs[1..], c);
      assert favs[0] !in favs[1..] by {
        forall j | 0 <= j < |favs[1..]| ensures favs[1..][j] != favs[0] {
          assert favs[1..][j] == favs[j + 1];
        }
      }
    }
  }

  /** Deleting a colour that occurs exactly once removes exactly one entry. */
  lemma RemoveOnceLength(favs: seq<string>, c: string)
    requires multiset(favs)[c] == 1
    ensures |Remove(favs, c)| == |favs| - 1
  {
    assert |multiset(favs)| == |multiset(favs)[c := 0]| + multiset(favs)[c];
  }

  /** In a list without duplicates, deleting a present colour removes exactly one entry. */
  lemma RemovePresentLength(favs: seq<string>, c: string)
    requires NoDup(favs) && c in favs
    ensures |Remove(favs, c)| == |favs| - 1
  {
    OnceInNoDup(favs, c);
    RemoveOnceLength(favs, c);
  }

  /** In a list without duplicates, a present entry occurs exactly once. */
  lemma {:induction false} OnceInNoDup(favs: seq<string>, c: string)
    requires NoDup(favs) && c in favs
    ensures multiset(favs)[c] == 1
  {
    assert favs == [favs[0]] + favs[1..];
    assert forall j :: 0 <= j < |favs[1..]| ==> favs[1..][j] == favs[j + 1];
    if favs[0] == c {
      assert c !in favs[1..];
    } else {
      OnceInNoDup(favs[1..], c);
    }
  }

  /** Deleting a colour just saved restores the list it was saved into. */
  lemma RemoveUndoesAdd(favs: seq<string>, c: string)
    requires c !in favs
    ensures Remove(Add(favs, c), c) == favs
  {
    RemoveAbsent(favs, c);
  }

  /** A save or a delete, as the favourites views issue them. */
  datatype Edit = Save(color: string) | Delete(color: string)

  function Apply(favs: seq<string>, edits: seq<Edit>): seq<string>
    decreases |edits|
  {
    if edits == [] then favs
    else
      var next := match edits[0]
        case Save(c) => Add(favs, c)
        case Delete(c) => Remove(favs, c);
      Apply(next, edits[1..])
  }

  /** Any run of saves and deletes keeps a duplicate-free list duplicate-free. */
  lemma {:induction false} ApplyKeepsNoDup(favs: seq<string>, edits: seq<Edit>)
    requires NoDup(favs)
    ensures NoDup(Apply(favs, edits))
    decreases |edits|
  {
    if edits != [] {
      match edits[0]
      case Save(c) =>
        ApplyKeepsNoDup(Add(favs, c), edits[1..]);
      case Delete(c) =>
        RemoveKeepsNoDup(favs, c);
        ApplyKeepsNoDup(Remove(favs, c), edits[1..]);
    }
  }
}
