/** The two list updates every store applies after a successful call:
    `list.filter(x => x.id !== id)` and `list.map(x => x.id === id ? f(x) : x)`. */
module Lists {

  /** `s.filter(x => idOf(x) !== id)` */
  function RemoveId<T>(s: seq<T>, id: int, idOf: T -> int): (r: seq<T>)
    ensures |r| <= |s|
    ensures forall x :: x in r ==> x in s && idOf(x) != id
    ensures forall x :: x in s && idOf(x) != id ==> x in r
  {
    if s == [] then []
    else (if idOf(s[0]) == id then [] else [s[0]]) + RemoveId(s[1..], id, idOf)
  }

  /** Removing distributes over concatenation: the survivors keep their order. */
  lemma {:induction false} RemoveIdAppend<T>(a: seq<T>, b: seq<T>, id: int, idOf: T -> int)
    ensures RemoveId(a + b, id, idOf) == RemoveId(a, id, idOf) + RemoveId(b, id, idOf)
  {
    if a == [] {
      assert a + b == b;
    } else {
      var head := if idOf(a[0]) == id then [] else [a[0]];
      assert (a + b)[0] == a[0] && (a + b)[1..] == a[1..] + b;
      RemoveIdAppend(a[1..], b, id, idOf);
      var restA, restB := RemoveId(a[1..], id, idOf), RemoveId(b, id, idOf);
      assert RemoveId(a + b, id, idOf) == head + (restA + restB);
      assert head + (restA + restB) == (head + restA) + restB;
    }
  }

  /** Removing an id that no element carries changes nothing. */
  lemma {:induction false} RemoveAbsentId<T>(s: seq<T>, id: int, idOf: T -> int)
    requires forall x :: x in s ==> idOf(x) != id
    ensures RemoveId(s, id, idOf) == s
  {
    if s != [] {
      RemoveAbsentId(s[1..], id, idOf);
    }
  }

  /** Removing twice is removing once. */
  lemma RemoveIdIdempotent<T>(s: seq<T>, id: int, idOf: T -> int)
    ensures RemoveId(RemoveId(s, id, idOf), id, idOf) == RemoveId(s, id, idOf)
  {
    RemoveAbsentId(RemoveId(s, id, idOf), id, idOf);
  }

  /** `s.map(x => idOf(x) === id ? f(x) : x)` */
  function UpdateId<T>(s: seq<T>, id: int, idOf: T -> int, f: T -> T): (r: seq<T>)
    ensures |r| == |s|
    ensures forall i :: 0 <= i < |s| && idOf(s[i]) != id ==> r[i] == s[i]
    ensures forall i :: 0 <= i < |s| && idOf(s[i]) == id ==> r[i] == f(s[i])
  {
    seq(|s|, i requires 0 <= i < |s| => if idOf(s[i]) == id then f(s[i]) else s[i])
  }

  /** When `f` keeps the id, an update touches nothing that a removal of the
      same id keeps: the rest of the list is left as it was, in order. */
  lemma {:induction false} RemoveAfterUpdate<T>(s: seq<T>, id: int, idOf: T -> int, f: T -> T)
    requires forall x :: idOf(f(x)) == idOf(x)
    ensures RemoveId(UpdateId(s, id, idOf, f), id, idOf) == RemoveId(s, id, idOf)
  {
    if s != [] {
      assert UpdateId(s, id, idOf, f)[1..] == UpdateId(s[1..], id, idOf, f);
      RemoveAfterUpdate(s[1..], id, idOf, f);
    }
  }

  /** Updating with a function that fixes its result is idempotent. */
  lemma UpdateIdIdempotent<T>(s: seq<T>, id: int, idOf: T -> int, f: T -> T)
    requires forall x :: idOf(f(x)) == idOf(x) && f(f(x)) == f(x)
    ensures UpdateId(UpdateId(s, id, idOf, f), id, idOf, f) == UpdateId(s, id, idOf, f)
  {
  }

  /** Two updates of the same id where the second overwrites whatever the
      first changed (approve then reject) amount to the second alone. */
  lemma {:induction false} UpdateIdOverwrite<T>(s: seq<T>, id: int, idOf: T -> int, f: T -> T, g: T -> T)
    requires forall x :: idOf(f(x)) == idOf(x) && g(f(x)) == g(x)
    ensures UpdateId(UpdateId(s, id, idOf, f), id, idOf, g) == UpdateId(s, id, idOf, g)
  {
    var once := UpdateId(s, id, idOf, f);
    forall i | 0 <= i < |s|
      ensures UpdateId(once, id, idOf, g)[i] == UpdateId(s, id, idOf, g)[i]
    {
      if idOf(s[i]) == id {
        assert once[i] == f(s[i]);
      }
    }
  }

  /** No two elements share an id. */
  predicate DistinctBy<T>(s: seq<T>, idOf: T -> int)
  {
    forall i, j :: 0 <= i < j < |s| ==> idOf(s[i]) != idOf(s[j])
  }

  /** An update that keeps ids keeps them distinct. */
  lemma UpdateIdKeepsDistinct<T>(s: seq<T>, id: int, idOf: T -> int, f: T -> T)
    requires forall x :: idOf(f(x)) == idOf(x)
    requires DistinctBy(s, idOf)
    ensures DistinctBy(UpdateId(s, id, idOf, f), idOf)
  {
    var r := UpdateId(s, id, idOf, f);
    forall i, j | 0 <= i < j < |r|
      ensures idOf(r[i]) != idOf(r[j])
    {
      assert idOf(r[i]) == idOf(s[i]) && idOf(r[j]) == idOf(s[j]);
    }
  }

  /** A removal keeps the survivors' ids distinct. */
  lemma {:induction false} RemoveIdKeepsDistinct<T>(s: seq<T>, id: int, idOf: T -> int)
    requires DistinctBy(s, idOf)
    ensures DistinctBy(RemoveId(s, id, idOf), idOf)
  {
    if s != [] {
      RemoveIdKeepsDistinct(s[1..], id, idOf);
      var rest := RemoveId(s[1..], id, idOf);
      forall x | x in rest
        ensures idOf(x) != idOf(s[0])
      {
        var k :| 0 <= k < |s[1..]| && s[1..][k] == x;
        assert s[k + 1] == x;
      }
    }
  }
}
