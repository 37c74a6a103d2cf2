/** The hierarchy view of the data categories
    (src/pages/data_categories/store/useDataCategoryTree.ts): the flat list the
    server returns, reordered so that every category is followed by its
    children, each tagged with its depth.

    The traversal is the source's: group the categories by parent, expand the
    root group depth first with children in ascending id order, then start a
    new top-level entry at every category whose parent is not in the list, and
    finally append whatever is still unvisited at level 0. `TreeOrder` states
    that list outright, from the recursive reference `PreOrder`, and `Flatten`
    is proved to return it.

    Category ids are database keys and so distinct; the model assumes it
    (`DistinctIds`). With a repeated id the source's recursion need not stop. */
module CategoryTree {
  import opened Common
  import opened DataCategories

  /** A key of the grouping map: `cat.parent || 'root'` (a null or zero parent
      files the category under the root). */
  datatype Key = Root | Under(id: int)

  function KeyOf(c: DataCategory): (k: Key)
    ensures k == Root <==> c.parent.None? || c.parent.value == 0
    ensures k.Under? ==> c.parent == Some(k.id)
  {
    if c.parent.None? || c.parent.value == 0 then Root else Under(c.parent.value)
  }

  /** `DataCategory & { level: number }` */
  datatype StructuredCategory = StructuredCategory(category: DataCategory, level: int)

  predicate DistinctIds(cats: seq<DataCategory>)
  {
    forall i, j :: 0 <= i < j < |cats| ==> cats[i].id != cats[j].id
  }

  ghost function Ids(cats: seq<DataCategory>): set<int>
  {
    set c | c in cats :: c.id
  }

  lemma SameIdSameCategory(cats: seq<DataCategory>, x: DataCategory, y: DataCategory)
    requires DistinctIds(cats) && x in cats && y in cats && x.id == y.id
    ensures x == y
  {
    var i :| 0 <= i < |cats| && cats[i] == x;
    var j :| 0 <= j < |cats| && cats[j] == y;
    assert i == j;
  }

  /** `categories.some(c => c.id === cat.parent)` */
  predicate ParentPresent(cats: seq<DataCategory>, c: DataCategory)
  {
    c.parent.Some? && exists d :: d in cats && d.id == c.parent.value
  }

  /** The categories the grouping pass files under `k`, in input order. */
  function Members(cats: seq<DataCategory>, k: Key): (r: seq<DataCategory>)
    ensures forall c :: c in r <==> c in cats && KeyOf(c) == k
  {
    if cats == [] then []
    else
      var n := |cats| - 1;
      assert cats == cats[..n] + [cats[n]];
      Members(cats[..n], k) + (if KeyOf(cats[n]) == k then [cats[n]] else [])
  }

  lemma {:induction false} MembersDistinct(cats: seq<DataCategory>, k: Key)
    requires DistinctIds(cats)
    ensures DistinctIds(Members(cats, k))
  {
    if cats != [] {
      var n := |cats| - 1;
      assert DistinctIds(cats[..n]);
      MembersDistinct(cats[..n], k);
      var m := Members(cats[..n], k);
      forall c | c in m
        ensures c.id != cats[n].id
      {
        var p :| 0 <= p < n && cats[..n][p] == c;
      }
    }
  }

  /** One more category extends its key's group and no other. */
  lemma MembersSnoc(cats: seq<DataCategory>, i: int, k: Key)
    requires 0 <= i < |cats|
    ensures Members(cats[..i + 1], k) == Members(cats[..i], k) + (if KeyOf(cats[i]) == k then [cats[i]] else [])
  {
    assert cats[..i + 1][..i] == cats[..i];
  }

  /** `map.get(k) || []` */
  function GroupOf(groups: map<Key, seq<DataCategory>>, k: Key): seq<DataCategory>
  {
    if k in groups then groups[k] else []
  }

  /** The grouping pass (lines 14-18): every category appended to the list of
      its key, in input order; a key is in the map exactly when some category
      is filed under it. */
  method GroupByParent(cats: seq<DataCategory>) returns (groups: map<Key, seq<DataCategory>>)
    ensures forall k :: GroupOf(groups, k) == Members(cats, k)
    ensures forall k :: k in groups <==> Members(cats, k) != []
  {
    groups := map[];
    var i := 0;
    while i < |cats|
      invariant 0 <= i <= |cats|
      invariant forall k :: GroupOf(groups, k) == Members(cats[..i], k)
      invariant forall k :: k in groups <==> Members(cats[..i], k) != []
    {
      var key := KeyOf(cats[i]);
      if key !in groups {
        groups := groups[key := []];
      }
      groups := groups[key := groups[key] + [cats[i]]];
      forall k
        ensures GroupOf(groups, k) == Members(cats[..i + 1], k)
        ensures k in groups <==> Members(cats[..i + 1], k) != []
      {
        MembersSnoc(cats, i, k);
      }
      i := i + 1;
    }
    assert cats[..i] == cats;
  }

  predicate Ascending(s: seq<DataCategory>)
  {
    forall i, j :: 0 <= i < j < |s| ==> s[i].id < s[j].id
  }

  function InsertById(x: DataCategory, s: seq<DataCategory>): (r: seq<DataCategory>)
    requires Ascending(s) && forall y :: y in s ==> y.id != x.id
    ensures Ascending(r) && |r| == |s| + 1
    ensures forall y :: y in r <==> y == x || y in s
  {
    if s == [] || x.id < s[0].id then [x] + s
    else
      var rest := InsertById(x, s[1..]);
      assert forall y :: y in s[1..] ==> s[0].id < y.id;
      [s[0]] + rest
  }

  /** `items.sort((a, b) => a.id - b.id)`: the same categories in ascending id order. */
  function SortById(s: seq<DataCategory>): (r: seq<DataCategory>)
    requires DistinctIds(s)
    ensures Ascending(r) && |r| == |s|
    ensures forall y :: y in r <==> y in s
  {
    if s == [] then []
    else
      assert forall y :: y in s[1..] ==> y.id != s[0].id;
      InsertById(s[0], SortById(s[1..]))
  }

  /** The list `buildList(k, level)` returns: the members of group `k` in
      ascending id order, each at `level` and immediately followed by the list
      built for its own id one level deeper. `path` holds the ids whose lists
      are being built around this one; expanding one of them again would never
      end, and the reference stops there instead. `BuildList` never meets that
      case (its contract says it returns this list). */
  ghost function PreOrder(cats: seq<DataCategory>, k: Key, level: int, path: set<int>): seq<StructuredCategory>
    requires DistinctIds(cats)
    decreases Ids(cats) - path, 1
  {
    MembersDistinct(cats, k);
    Subtrees(cats, SortById(Members(cats, k)), level, path)
  }

  /** The loop at lines 26-30 over `items`: each item's entry, then the list
      built for its id. */
  ghost function Subtrees(cats: seq<DataCategory>, items: seq<DataCategory>, level: int, path: set<int>): seq<StructuredCategory>
    requires DistinctIds(cats) && forall x :: x in items ==> x in cats
    decreases Ids(cats) - path, 0, |items|
  {
    if items == [] then []
    else
      var n := |items| - 1;
      var item := items[n];
      assert item in items && item.id in Ids(cats);
      Subtrees(cats, items[..n], level, path) + [StructuredCategory(item, level)]
        + (if item.id in path then [] else PreOrder(cats, Under(item.id), level + 1, path + {item.id}))
  }

  /** The loop at lines 26-30 after its first `j` items: `result` is what
      the reference lists for them, and `path` is visited. */
  ghost predicate Following(cats: seq<DataCategory>, items: seq<DataCategory>, j: int, level: int, path: set<int>,
                            visited: set<int>, result: seq<StructuredCategory>)
  {
    && DistinctIds(cats) && 0 <= j <= |items| && (forall x :: x in items ==> x in cats) && path <= visited
    && (assert forall x :: x in items[..j] ==> x in items; result == Subtrees(cats, items[..j], level, path))
  }

  /** Before the loop: nothing listed yet. */
  lemma FollowingStart(cats: seq<DataCategory>, items: seq<DataCategory>, level: int, path: set<int>, visited: set<int>)
    requires DistinctIds(cats) && (forall x :: x in items ==> x in cats) && path <= visited
    ensures Following(cats, items, 0, level, path, visited, [])
  {
    assert items[..0] == [];
  }

  /** After the loop over the sorted group of `k`: the reference list of `k`. */
  lemma FollowingDone(cats: seq<DataCategory>, k: Key, level: int, path: set<int>, items: seq<DataCategory>,
                      visited: set<int>, result: seq<StructuredCategory>)
    requires DistinctIds(Members(cats, k)) && items == SortById(Members(cats, k))
    requires Following(cats, items, |items|, level, path, visited, result)
    ensures result == PreOrder(cats, k, level, path)
  {
    assert items[..|items|] == items;
  }

  /** One more item of the loop: its entry, then the list built for its id. */
  lemma FollowingStep(cats: seq<DataCategory>, items: seq<DataCategory>, j: int, level: int, path: set<int>,
                      visited: set<int>, result: seq<StructuredCategory>, visitedAfter: set<int>, sub: seq<StructuredCategory>)
    requires Following(cats, items, j, level, path, visited, result) && j < |items|
    requires items[j].id !in path && visited <= visitedAfter
    requires sub == PreOrder(cats, Under(items[j].id), level + 1, path + {items[j].id})
    ensures Following(cats, items, j + 1, level, path, visitedAfter, result + [StructuredCategory(items[j], level)] + sub)
  {
    assert items[..j + 1][..j] == items[..j];
  }

  /** A category the orphan pass starts a top-level entry for: its parent is
      neither null nor 0 and is not in the list. */
  predicate Adoptable(cats: seq<DataCategory>, c: DataCategory)
  {
    KeyOf(c) != Root && !ParentPresent(cats, c)
  }

  /** What the orphan pass appends for one category: an adoptable category's
      entry at level 0 and then the list built for its id from level 1;
      nothing for any other category. */
  ghost function Adoption(cats: seq<DataCategory>, c: DataCategory): seq<StructuredCategory>
    requires DistinctIds(cats)
  {
    if Adoptable(cats, c) then [StructuredCategory(c, 0)] + PreOrder(cats, Under(c.id), 1, {c.id}) else []
  }

  /** What the orphan pass (lines 37-47) appends for the first `n` input
      categories: their adoptions, in input order. */
  ghost function Adopted(cats: seq<DataCategory>, n: nat): seq<StructuredCategory>
    requires DistinctIds(cats) && n <= |cats|
  {
    if n == 0 then [] else Adopted(cats, n - 1) + Adoption(cats, cats[n - 1])
  }

  /** One more turn of the orphan pass appends the category's adoption. */
  lemma AdoptedSnoc(cats: seq<DataCategory>, n: nat, flat0: seq<StructuredCategory>, flat: seq<StructuredCategory>,
                    sub: seq<StructuredCategory>)
    requires DistinctIds(cats) && n < |cats| && flat == flat0 + Adopted(cats, n)
    ensures Adoptable(cats, cats[n]) && sub == PreOrder(cats, Under(cats[n].id), 1, {cats[n].id}) ==>
              flat + [StructuredCategory(cats[n], 0)] + sub == flat0 + Adopted(cats, n + 1)
    ensures !Adoptable(cats, cats[n]) ==> flat == flat0 + Adopted(cats, n + 1)
  {
    assert Adopted(cats, n + 1) == Adopted(cats, n) + Adoption(cats, cats[n]);
  }

  /** What the safeguard (lines 50-55) appends for `rest` when `listed` holds
      the ids listed so far: every category whose id is not listed yet, at
      level 0, in input order, each id once. */
  function Leftovers(rest: seq<DataCategory>, listed: set<int>): (r: seq<StructuredCategory>)
    ensures forall e :: e in r ==> e.level == 0 && e.category in rest && e.category.id !in listed
  {
    if rest == [] then []
    else if rest[0].id in listed then Leftovers(rest[1..], listed)
    else [StructuredCategory(rest[0], 0)] + Leftovers(rest[1..], listed + {rest[0].id})
  }

  /** One more turn of the safeguard: an unlisted category adds its entry at
      level 0 and is listed from then on; a listed one adds nothing. */
  lemma LeftoversStep(cats: seq<DataCategory>, n: int, listed0: set<int>, flat0: seq<StructuredCategory>,
                      flat: seq<StructuredCategory>, listed: set<int>)
    requires 0 <= n < |cats|
    requires flat0 + Leftovers(cats, listed0) == flat + Leftovers(cats[n..], listed)
    ensures cats[n].id !in listed ==>
              flat0 + Leftovers(cats, listed0) == flat + [StructuredCategory(cats[n], 0)] + Leftovers(cats[n + 1..], listed + {cats[n].id})
    ensures cats[n].id in listed ==> flat0 + Leftovers(cats, listed0) == flat + Leftovers(cats[n + 1..], listed)
  {
    assert cats[n..][0] == cats[n] && cats[n..][1..] == cats[n + 1..];
  }

  /** The safeguard lists no id twice. */
  lemma {:induction false} LeftoversDistinct(rest: seq<DataCategory>, listed: set<int>)
    ensures DistinctEntries(Leftovers(rest, listed))
  {
    if rest != [] {
      var c := rest[0];
      if c.id in listed {
        LeftoversDistinct(rest[1..], listed);
      } else {
        var tail := Leftovers(rest[1..], listed + {c.id});
        LeftoversDistinct(rest[1..], listed + {c.id});
        var r := [StructuredCategory(c, 0)] + tail;
        assert forall e :: e in tail ==> e.category.id != c.id;
        forall i, j | 0 <= i < j < |r|
          ensures r[i].category.id != r[j].category.id
        {
          if i > 0 {
            assert r[i] == tail[i - 1] && r[j] == tail[j - 1];
          } else {
            assert r[j] in tail;
          }
        }
      }
    }
  }

  /** The safeguard lists every category it reaches whose id was not listed
      before. */
  lemma {:induction false} LeftoversCover(rest: seq<DataCategory>, listed: set<int>)
    ensures forall i :: 0 <= i < |rest| && rest[i].id !in listed ==> rest[i].id in EntryIds(Leftovers(rest, listed))
  {
    if rest != [] {
      var c := rest[0];
      if c.id in listed {
        LeftoversCover(rest[1..], listed);
        forall i | 0 <= i < |rest| && rest[i].id !in listed
          ensures rest[i].id in EntryIds(Leftovers(rest, listed))
        {
          assert rest[i] == rest[1..][i - 1];
        }
      } else {
        var tail := Leftovers(rest[1..], listed + {c.id});
        LeftoversCover(rest[1..], listed + {c.id});
        var r := [StructuredCategory(c, 0)] + tail;
        forall i | 0 <= i < |rest| && rest[i].id !in listed
          ensures rest[i].id in EntryIds(r)
        {
          if i == 0 {
            assert r[0] in r;
          } else if rest[i].id != c.id {
            assert rest[i] == rest[1..][i - 1];
            var e :| e in tail && e.category.id == rest[i].id;
            assert e in r;
          } else {
            assert r[0] in r;
          }
        }
      }
    }
  }

  /** The hook's list for `cats`: the root pass, then the orphan entries in
      input order, then the categories still unlisted at level 0. */
  ghost function TreeOrder(cats: seq<DataCategory>): seq<StructuredCategory>
    requires DistinctIds(cats)
  {
    var top := PreOrder(cats, Root, 0, {}) + Adopted(cats, |cats|);
    top + Leftovers(cats, EntryIds(top))
  }

  /** What the traversal keeps true of the visited ids and the expanded keys:
      every visited id is a category's, a key is expanded only after the
      category it names was visited, and a visited category whose parent is in
      the list was reached by expanding its key. */
  ghost predicate Explored(cats: seq<DataCategory>, visited: set<int>, started: set<Key>)
  {
    && visited <= Ids(cats)
    && (forall key :: key in started && key.Under? ==> key.id in visited)
    && (forall c :: c in cats && c.id in visited && ParentPresent(cats, c) ==> KeyOf(c) in started)
  }

  /** `p` is the entry of `e`'s parent, one level shallower. */
  predicate IsParentEntry(p: StructuredCategory, e: StructuredCategory)
  {
    KeyOf(e.category) == Under(p.category.id) && e.level == p.level + 1
  }

  ghost function EntryIds(s: seq<StructuredCategory>): set<int>
  {
    set e | e in s :: e.category.id
  }

  predicate DistinctEntries(s: seq<StructuredCategory>)
  {
    forall i, j :: 0 <= i < j < |s| ==> s[i].category.id != s[j].category.id
  }

  /** Every entry deeper than `base` has its parent's entry earlier in the list,
      at the index `parentAt` records. */
  ghost predicate Indented(s: seq<StructuredCategory>, base: int, parentAt: seq<int>)
  {
    |parentAt| == |s|
    && forall j :: 0 <= j < |s| && s[j].level > base ==> 0 <= parentAt[j] < j && IsParentEntry(s[parentAt[j]], s[j])
  }

  /** Every entry below the top level has its parent's entry before it. */
  predicate ParentsPrecede(s: seq<StructuredCategory>)
  {
    forall j :: 0 <= j < |s| && s[j].level > 0 ==> exists i :: 0 <= i < j && IsParentEntry(s[i], s[j])
  }

  /** The parent indices of `sub` once it is appended after `n` entries and an
      entry for its parent. */
  function Shifted(sub: seq<StructuredCategory>, subParents: seq<int>, base: int, n: int): seq<int>
    requires |subParents| == |sub|
  {
    seq(|sub|, i requires 0 <= i < |sub| => if sub[i].level == base then n else subParents[i] + n + 1)
  }

  lemma IndentedStep(result: seq<StructuredCategory>, parentAt: seq<int>, entry: StructuredCategory,
                     sub: seq<StructuredCategory>, subParents: seq<int>, level: int)
    requires Indented(result, level, parentAt) && entry.level == level
    requires Indented(sub, level + 1, subParents)
    requires forall e :: e in sub ==> e.level >= level + 1
    requires forall i :: 0 <= i < |sub| && sub[i].level == level + 1 ==> KeyOf(sub[i].category) == Under(entry.category.id)
    ensures Indented(result + [entry] + sub, level, parentAt + [-1] + Shifted(sub, subParents, level + 1, |result|))
  {
    var s := result + [entry] + sub;
    var pa := parentAt + [-1] + Shifted(sub, subParents, level + 1, |result|);
    forall j | 0 <= j < |s| && s[j].level > level
      ensures 0 <= pa[j] < j && IsParentEntry(s[pa[j]], s[j])
    {
      if j > |result| {
        var i := j - |result| - 1;
        assert s[j] == sub[i];
        assert sub[i] in sub;
        if sub[i].level != level + 1 {
          assert s[pa[j]] == sub[subParents[i]];
        }
      }
    }
  }

  lemma DistinctConcat(a: seq<StructuredCategory>, b: seq<StructuredCategory>)
    requires DistinctEntries(a) && DistinctEntries(b)
    requires EntryIds(a) !! EntryIds(b)
    ensures DistinctEntries(a + b) && EntryIds(a + b) == EntryIds(a) + EntryIds(b)
  {
    forall i, j | 0 <= i < j < |a + b|
      ensures (a + b)[i].category.id != (a + b)[j].category.id
    {
      if i < |a| && j >= |a| {
        assert a[i] in a && b[j - |a|] in b;
        assert a[i].category.id in EntryIds(a);
        assert b[j - |a|].category.id in EntryIds(b);
      }
    }
  }

  /** What a call of `buildList(k, level)` returns: each id of `listed` exactly
      once, all categories of the list and none shallower than `level`; the
      entries at `level` are filed under `k` and in ascending id order, and
      every deeper entry is indented under its parent's entry. */
  ghost predicate Listed(cats: seq<DataCategory>, s: seq<StructuredCategory>, listed: set<int>, level: int, k: Key, parentAt: seq<int>)
  {
    && EntryIds(s) == listed && DistinctEntries(s)
    && (forall e :: e in s ==> e.category in cats && e.level >= level)
    && (forall i :: 0 <= i < |s| && s[i].level == level ==> KeyOf(s[i].category) == k)
    && (forall i, j :: 0 <= i < j < |s| && s[i].level == level && s[j].level == level ==> s[i].category.id < s[j].category.id)
    && Indented(s, level, parentAt)
  }

  /** One turn of the loop at lines 26-30: the entry for `item`, then the list
      built one level deeper for its id. */
  lemma ListedStep(cats: seq<DataCategory>, s: seq<StructuredCategory>, listed: set<int>, level: int, k: Key, parentAt: seq<int>,
                   item: DataCategory, sub: seq<StructuredCategory>, subListed: set<int>, subParents: seq<int>)
    requires Listed(cats, s, listed, level, k, parentAt)
    requires Listed(cats, sub, subListed, level + 1, Under(item.id), subParents)
    requires item in cats && KeyOf(item) == k
    requires item.id !in listed && item.id !in subListed && listed !! subListed
    requires forall i :: 0 <= i < |s| && s[i].level == level ==> s[i].category.id < item.id
    ensures var t := s + [StructuredCategory(item, level)] + sub;
            && Listed(cats, t, listed + {item.id} + subListed, level, k, parentAt + [-1] + Shifted(sub, subParents, level + 1, |s|))
            && forall i :: 0 <= i < |t| && t[i].level == level ==> t[i].category.id <= item.id
  {
    var entry := StructuredCategory(item, level);
    assert EntryIds([entry]) == {item.id};
    DistinctConcat(s, [entry]);
    DistinctConcat(s + [entry], sub);
    IndentedStep(s, parentAt, entry, sub, subParents, level);
    ConcatMembers(cats, s, entry, sub, level);
    ConcatTopLevel(s, entry, sub, level, k);
  }

  /** The entries of `s`, an entry at `level` and the deeper `sub`, put together,
      are all categories of the list and none is shallower than `level`. */
  lemma ConcatMembers(cats: seq<DataCategory>, s: seq<StructuredCategory>, entry: StructuredCategory, sub: seq<StructuredCategory>, level: int)
    requires forall e :: e in s ==> e.category in cats && e.level >= level
    requires entry.category in cats && entry.level == level
    requires forall e :: e in sub ==> e.category in cats && e.level >= level + 1
    ensures forall e :: e in s + [entry] + sub ==> e.category in cats && e.level >= level
  {
    forall e | e in s + [entry] + sub
      ensures e.category in cats && e.level >= level
    {
      assert e in s || e == entry || e in sub;
    }
  }

  /** Appending an entry at `level` with a larger id than those of `s`, then
      deeper entries, keeps the entries at `level` under `k` and ascending. */
  lemma ConcatTopLevel(s: seq<StructuredCategory>, entry: StructuredCategory, sub: seq<StructuredCategory>, level: int, k: Key)
    requires forall i :: 0 <= i < |s| && s[i].level == level ==> KeyOf(s[i].category) == k
    requires forall i, j :: 0 <= i < j < |s| && s[i].level == level && s[j].level == level ==> s[i].category.id < s[j].category.id
    requires forall i :: 0 <= i < |s| && s[i].level == level ==> s[i].category.id < entry.category.id
    requires KeyOf(entry.category) == k && entry.level == level
    requires forall e :: e in sub ==> e.level >= level + 1
    ensures var t := s + [entry] + sub;
            && (forall i :: 0 <= i < |t| && t[i].level == level ==> KeyOf(t[i].category) == k)
            && (forall i, j :: 0 <= i < j < |t| && t[i].level == level && t[j].level == level ==> t[i].category.id < t[j].category.id)
            && (forall i :: 0 <= i < |t| && t[i].level == level ==> t[i].category.id <= entry.category.id)
  {
    var t := s + [entry] + sub;
    forall i | |s| < i < |t|
      ensures t[i].level > level
    {
      assert t[i] == sub[i - |s| - 1];
      assert sub[i - |s| - 1] in sub;
    }
    forall i | 0 <= i < |t| && t[i].level == level
      ensures KeyOf(t[i].category) == k && t[i].category.id <= entry.category.id
    {
      if i < |s| {
        assert t[i] == s[i];
      }
    }
    forall i, j | 0 <= i < j < |t| && t[i].level == level && t[j].level == level
      ensures t[i].category.id < t[j].category.id
    {
      assert j <= |s|;
      assert t[i] == s[i];
      if j < |s| {
        assert t[j] == s[j];
      }
    }
  }

  /** The order and depth facts of the final list, with `visited` the ids listed so far. */
  ghost predicate Arranged(cats: seq<DataCategory>, flat: seq<StructuredCategory>, visited: set<int>, parentAt: seq<int>)
  {
    && EntryIds(flat) == visited && DistinctEntries(flat)
    && (forall e :: e in flat ==> e.category in cats && e.level >= 0)
    && Indented(flat, 0, parentAt)
    && (forall i :: 0 <= i < |flat| && KeyOf(flat[i].category) == Root ==> flat[i].level == 0)
    && (forall i, j :: 0 <= i < j < |flat| && KeyOf(flat[i].category) == Root && KeyOf(flat[j].category) == Root ==>
          flat[i].category.id < flat[j].category.id)
  }

  lemma RootPassArranged(cats: seq<DataCategory>, s: seq<StructuredCategory>, listed: set<int>, parentAt: seq<int>)
    requires Listed(cats, s, listed, 0, Root, parentAt)
    ensures Arranged(cats, s, listed, parentAt)
  {
    forall i | 0 <= i < |s| && KeyOf(s[i].category) == Root
      ensures s[i].level == 0
    {
      assert s[i] in s;
    }
  }

  /** A list built under a category holds no root category. */
  lemma ListedBelowRoot(cats: seq<DataCategory>, s: seq<StructuredCategory>, listed: set<int>, level: int, id: int, parentAt: seq<int>)
    requires Listed(cats, s, listed, level, Under(id), parentAt)
    ensures forall e :: e in s ==> KeyOf(e.category) != Root
  {
    forall e | e in s
      ensures KeyOf(e.category) != Root
    {
      var m :| 0 <= m < |s| && s[m] == e;
      if s[m].level != level {
        assert IsParentEntry(s[parentAt[m]], s[m]);
      }
    }
  }

  /** Appending a non-root entry and entries built under a category adds no
      root category, so the root categories keep level 0 and ascending ids. */
  lemma RootsUnchanged(flat: seq<StructuredCategory>, entry: StructuredCategory, sub: seq<StructuredCategory>)
    requires KeyOf(entry.category) != Root
    requires forall e :: e in sub ==> KeyOf(e.category) != Root
    requires forall i :: 0 <= i < |flat| && KeyOf(flat[i].category) == Root ==> flat[i].level == 0
    requires forall i, j :: 0 <= i < j < |flat| && KeyOf(flat[i].category) == Root && KeyOf(flat[j].category) == Root ==>
               flat[i].category.id < flat[j].category.id
    ensures var t := flat + [entry] + sub;
            && (forall i :: 0 <= i < |t| && KeyOf(t[i].category) == Root ==> t[i].level == 0)
            && (forall i, j :: 0 <= i < j < |t| && KeyOf(t[i].category) == Root && KeyOf(t[j].category) == Root ==>
                  t[i].category.id < t[j].category.id)
  {
    var t := flat + [entry] + sub;
    forall i | |flat| <= i < |t|
      ensures KeyOf(t[i].category) != Root
    {
      if i > |flat| {
        assert t[i] == sub[i - |flat| - 1];
        assert t[i] in sub;
      }
    }
    forall i | 0 <= i < |t| && KeyOf(t[i].category) == Root
      ensures t[i].level == 0 && i < |flat|
    {
      assert t[i] == flat[i];
    }
    forall i, j | 0 <= i < j < |t| && KeyOf(t[i].category) == Root && KeyOf(t[j].category) == Root
      ensures t[i].category.id < t[j].category.id
    {
      assert t[i] == flat[i] && t[j] == flat[j];
    }
  }

  /** A new top-level entry for `cat` followed by the list built under it. */
  lemma TopStep(cats: seq<DataCategory>, flat: seq<StructuredCategory>, visited: set<int>, parentAt: seq<int>,
                cat: DataCategory, sub: seq<StructuredCategory>, subListed: set<int>, subParents: seq<int>)
    requires Arranged(cats, flat, visited, parentAt)
    requires cat in cats && KeyOf(cat) != Root && cat.id !in visited
    requires Listed(cats, sub, subListed, 1, Under(cat.id), subParents)
    requires cat.id !in subListed && visited !! subListed
    ensures Arranged(cats, flat + [StructuredCategory(cat, 0)] + sub, visited + {cat.id} + subListed,
                     parentAt + [-1] + Shifted(sub, subParents, 1, |flat|))
  {
    TopStepContents(cats, flat, visited, parentAt, cat, sub, subListed, subParents);
    TopStepOrder(cats, flat, parentAt, cat, sub, subListed, subParents);
  }

  /** The ids and categories of the extended list. */
  lemma TopStepContents(cats: seq<DataCategory>, flat: seq<StructuredCategory>, visited: set<int>, parentAt: seq<int>,
                cat: DataCategory, sub: seq<StructuredCategory>, subListed: set<int>, subParents: seq<int>)
    requires Arranged(cats, flat, visited, parentAt)
    requires cat in cats && KeyOf(cat) != Root && cat.id !in visited
    requires Listed(cats, sub, subListed, 1, Under(cat.id), subParents)
    requires cat.id !in subListed && visited !! subListed
    ensures var t := flat + [StructuredCategory(cat, 0)] + sub;
            && EntryIds(t) == visited + {cat.id} + subListed && DistinctEntries(t)
            && forall e :: e in t ==> e.category in cats && e.level >= 0
  {
    var entry := StructuredCategory(cat, 0);
    assert EntryIds([entry]) == {cat.id};
    DistinctConcat(flat, [entry]);
    DistinctConcat(flat + [entry], sub);
    ConcatMembers(cats, flat, entry, sub, 0);
  }

  /** The indentation and the order of the root categories in the extended list. */
  lemma TopStepOrder(cats: seq<DataCategory>, flat: seq<StructuredCategory>, parentAt: seq<int>,
                     cat: DataCategory, sub: seq<StructuredCategory>, subListed: set<int>, subParents: seq<int>)
    requires Indented(flat, 0, parentAt)
    requires forall i :: 0 <= i < |flat| && KeyOf(flat[i].category) == Root ==> flat[i].level == 0
    requires forall i, j :: 0 <= i < j < |flat| && KeyOf(flat[i].category) == Root && KeyOf(flat[j].category) == Root ==>
               flat[i].category.id < flat[j].category.id
    requires KeyOf(cat) != Root
    requires Listed(cats, sub, subListed, 1, Under(cat.id), subParents)
    ensures var t := flat + [StructuredCategory(cat, 0)] + sub;
            && Indented(t, 0, parentAt + [-1] + Shifted(sub, subParents, 1, |flat|))
            && (forall i :: 0 <= i < |t| && KeyOf(t[i].category) == Root ==> t[i].level == 0)
            && (forall i, j :: 0 <= i < j < |t| && KeyOf(t[i].category) == Root && KeyOf(t[j].category) == Root ==>
                  t[i].category.id < t[j].category.id)
  {
    var entry := StructuredCategory(cat, 0);
    IndentedStep(flat, parentAt, entry, sub, subParents, 0);
    ListedBelowRoot(cats, sub, subListed, 1, cat.id, subParents);
    RootsUnchanged(flat, entry, sub);
  }

  /** The unvisited part of the list only grows by categories filed under keys
      expanded since. */
  ghost predicate Grown(cats: seq<DataCategory>, visited0: set<int>, started0: set<Key>, visited: set<int>, started: set<Key>)
  {
    && visited0 <= visited && started0 <= started
    && forall c :: c in cats && c.id in visited - visited0 ==> KeyOf(c) in started - started0
  }

  /** Visiting `item`, filed under an expanded key, then expanding its own key. */
  lemma GrownStep(cats: seq<DataCategory>, visited0: set<int>, started0: set<Key>, visited: set<int>, started: set<Key>,
                  item: DataCategory, visitedAfter: set<int>, startedAfter: set<Key>)
    requires DistinctIds(cats) && item in cats
    requires Grown(cats, visited0, started0, visited, started)
    requires KeyOf(item) in started - started0 && item.id !in visited
    requires Grown(cats, visited + {item.id}, started, visitedAfter, startedAfter)
    ensures Grown(cats, visited0, started0, visitedAfter, startedAfter)
    ensures forall c :: c in cats && KeyOf(c) == KeyOf(item) && c.id !in visited + {item.id} ==> c.id !in visitedAfter
  {
    forall c | c in cats && c.id in visitedAfter - visited0
      ensures KeyOf(c) in startedAfter - started0
    {
      if c.id == item.id {
        SameIdSameCategory(cats, c, item);
      }
    }
  }

  /** Visiting `item` keeps the exploration facts, and leaves its key to expand
      and its children unvisited. */
  lemma VisitFresh(cats: seq<DataCategory>, visited: set<int>, started: set<Key>, item: DataCategory)
    requires DistinctIds(cats) && Explored(cats, visited, started)
    requires item in cats && item.id !in visited
    requires KeyOf(item) in started || !ParentPresent(cats, item)
    ensures Explored(cats, visited + {item.id}, started)
    ensures Under(item.id) !in started
    ensures forall c :: c in cats && KeyOf(c) == Under(item.id) ==> c.id !in visited + {item.id}
  {
    forall c | c in cats && KeyOf(c) == Under(item.id)
      ensures c.id !in visited + {item.id}
    {
      assert ParentPresent(cats, c);
      if c.id == item.id {
        SameIdSameCategory(cats, c, item);
      }
    }
  }

  /** The loop of `buildList(k, level)` after its first `j` items: they and
      the lists built under them are in `result`, the rest are unvisited. */
  ghost predicate Expanding(cats: seq<DataCategory>, k: Key, level: int, items: seq<DataCategory>, j: int,
                            visited0: set<int>, started0: set<Key>, visited: set<int>, started: set<Key>,
                            result: seq<StructuredCategory>, parentAt: seq<int>)
  {
    && 0 <= j <= |items|
    && (forall m :: 0 <= m < |items| ==> items[m] in cats && KeyOf(items[m]) == k)
    && Explored(cats, visited, started) && k in started && k !in started0
    && Grown(cats, visited0, started0, visited, started)
    && (forall m :: j <= m < |items| ==> items[m].id !in visited)
    && (forall m :: 0 <= m < j ==> items[m].id in visited)
    && Listed(cats, result, visited - visited0, level, k, parentAt)
    && (j < |items| ==> forall i :: 0 <= i < |result| && result[i].level == level ==> result[i].category.id < items[j].id)
  }

  /** Before the recursive call at line 29: visiting the next item keeps the
      exploration facts, leaves its key unexpanded and its children unvisited,
      and shrinks the unvisited part. */
  lemma ExpandReady(cats: seq<DataCategory>, k: Key, level: int, items: seq<DataCategory>, j: int,
                    visited0: set<int>, started0: set<Key>, visited: set<int>, started: set<Key>,
                    result: seq<StructuredCategory>, parentAt: seq<int>)
    requires DistinctIds(cats)
    requires Expanding(cats, k, level, items, j, visited0, started0, visited, started, result, parentAt) && j < |items|
    ensures Explored(cats, visited + {items[j].id}, started)
    ensures Under(items[j].id) !in started
    ensures forall c :: c in cats && KeyOf(c) == Under(items[j].id) ==> c.id !in visited + {items[j].id}
    ensures Ids(cats) - (visited + {items[j].id}) < Ids(cats) - visited
  {
    VisitFresh(cats, visited, started, items[j]);
    assert items[j].id in Ids(cats) - visited;
  }

  /** After the recursive call: the loop facts hold for one more item. */
  lemma ExpandStep(cats: seq<DataCategory>, k: Key, level: int, items: seq<DataCategory>, j: int,
                   visited0: set<int>, started0: set<Key>, visited: set<int>, started: set<Key>,
                   result: seq<StructuredCategory>, parentAt: seq<int>,
                   sub: seq<StructuredCategory>, visitedAfter: set<int>, startedAfter: set<Key>, subParents: seq<int>)
    requires DistinctIds(cats) && Ascending(items)
    requires Expanding(cats, k, level, items, j, visited0, started0, visited, started, result, parentAt) && j < |items|
    requires Explored(cats, visitedAfter, startedAfter)
    requires Grown(cats, visited + {items[j].id}, started, visitedAfter, startedAfter)
    requires Listed(cats, sub, visitedAfter - (visited + {items[j].id}), level + 1, Under(items[j].id), subParents)
    ensures Expanding(cats, k, level, items, j + 1, visited0, started0, visitedAfter, startedAfter,
                      result + [StructuredCategory(items[j], level)] + sub,
                      parentAt + [-1] + Shifted(sub, subParents, level + 1, |result|))
  {
    var item := items[j];
    GrownStep(cats, visited0, started0, visited, started, item, visitedAfter, startedAfter);
    forall m | j < m < |items|
      ensures items[m].id !in visitedAfter
    {
      assert items[m].id != item.id;
    }
    ListedStep(cats, result, visited - visited0, level, k, parentAt, item, sub, visitedAfter - (visited + {item.id}), subParents);
    assert visited - visited0 + {item.id} + (visitedAfter - (visited + {item.id})) == visitedAfter - visited0;
    assert j + 1 < |items| ==> item.id < items[j + 1].id;
  }

  /** Before the loop: no item visited yet, `k` expanded, nothing listed. */
  lemma ExpandStart(cats: seq<DataCategory>, k: Key, level: int, items: seq<DataCategory>, visited0: set<int>, started0: set<Key>)
    requires forall c :: c in items <==> c in cats && KeyOf(c) == k
    requires Explored(cats, visited0, started0) && k !in started0
    requires k.Under? ==> k.id in visited0
    requires forall c :: c in cats && KeyOf(c) == k ==> c.id !in visited0
    ensures Expanding(cats, k, level, items, 0, visited0, started0, visited0, started0 + {k}, [], [])
  {
    assert EntryIds([]) == {};
    forall m | 0 <= m < |items|
      ensures items[m] in cats && KeyOf(items[m]) == k && items[m].id !in visited0
    {
      assert items[m] in items;
    }
  }

  /** After the loop: every category filed under `k` is visited and listed. */
  lemma ExpandDone(cats: seq<DataCategory>, k: Key, level: int, items: seq<DataCategory>,
                   visited0: set<int>, started0: set<Key>, visited: set<int>, started: set<Key>,
                   result: seq<StructuredCategory>, parentAt: seq<int>)
    requires forall c :: c in items <==> c in cats && KeyOf(c) == k
    requires Expanding(cats, k, level, items, |items|, visited0, started0, visited, started, result, parentAt)
    ensures Explored(cats, visited, started) && k in started
    ensures Grown(cats, visited0, started0, visited, started)
    ensures forall c :: c in cats && KeyOf(c) == k ==> c.id in visited
    ensures Listed(cats, result, visited - visited0, level, k, parentAt) && |parentAt| == |result|
  {
    forall c | c in cats && KeyOf(c) == k
      ensures c.id in visited
    {
      var m :| 0 <= m < |items| && items[m] == c;
    }
  }

  /** `buildList(k, level)` (lines 21-32): exactly `PreOrder(cats, k, level,
      path)`, the members of group `k` in ascending id order, each at `level`
      and immediately followed by the list built for its own id one level
      deeper, where `path` is any set of ids already visited (the ids whose
      lists enclose this call). Every category it lists is added to
      `visited`, and these are exactly the categories filed under the keys it
      expands, `k` among them. */
  method BuildList(groups: map<Key, seq<DataCategory>>, ghost cats: seq<DataCategory>, k: Key, level: int,
                   visited0: set<int>, ghost started0: set<Key>, ghost path: set<int>)
    returns (result: seq<StructuredCategory>, visited: set<int>, ghost started: set<Key>, ghost parentAt: seq<int>)
    requires DistinctIds(cats) && path <= visited0
    requires forall key :: GroupOf(groups, key) == Members(cats, key)
    requires Explored(cats, visited0, started0)
    requires k !in started0
    requires k.Under? ==> k.id in visited0
    requires forall c :: c in cats && KeyOf(c) == k ==> c.id !in visited0
    ensures Explored(cats, visited, started) && k in started
    ensures Grown(cats, visited0, started0, visited, started)
    ensures forall c :: c in cats && KeyOf(c) == k ==> c.id in visited
    ensures Listed(cats, result, visited - visited0, level, k, parentAt) && |parentAt| == |result|
    ensures result == PreOrder(cats, k, level, path)
    decreases Ids(cats) - visited0, 1
  {
    started := started0 + {k};
    visited := visited0;
    MembersDistinct(cats, k);
    var items := SortById(GroupOf(groups, k));
    assert items == SortById(Members(cats, k));
    result := [];
    parentAt := [];
    ExpandStart(cats, k, level, items, visited0, started0);
    FollowingStart(cats, items, level, path, visited);
    var j := 0;
    while j < |items|
      invariant Expanding(cats, k, level, items, j, visited0, started0, visited, started, result, parentAt)
      invariant Following(cats, items, j, level, path, visited, result)
    {
      result, visited, started, parentAt :=
        ExpandItem(groups, cats, k, level, items, j, visited0, started0, path, result, visited, started, parentAt);
      j := j + 1;
    }
    ExpandDone(cats, k, level, items, visited0, started0, visited, started, result, parentAt);
    FollowingDone(cats, k, level, path, items, visited, result);
  }

  /** One turn of the loop at lines 26-30: the entry for `items[j]` at
      `level`, followed by the list `buildList(items[j].id, level + 1)`
      returns for it. */
  method ExpandItem(groups: map<Key, seq<DataCategory>>, ghost cats: seq<DataCategory>, k: Key, level: int,
                    items: seq<DataCategory>, j: int, ghost visited0: set<int>, ghost started0: set<Key>,
                    ghost path: set<int>, result: seq<StructuredCategory>, visited: set<int>,
                    ghost started: set<Key>, ghost parentAt: seq<int>)
    returns (resultAfter: seq<StructuredCategory>, visitedAfter: set<int>, ghost startedAfter: set<Key>,
             ghost parentAtAfter: seq<int>)
    requires forall key :: GroupOf(groups, key) == Members(cats, key)
    requires Ascending(items) && j < |items|
    requires Expanding(cats, k, level, items, j, visited0, started0, visited, started, result, parentAt)
    requires Following(cats, items, j, level, path, visited, result)
    ensures Expanding(cats, k, level, items, j + 1, visited0, started0, visitedAfter, startedAfter, resultAfter, parentAtAfter)
    ensures Following(cats, items, j + 1, level, path, visitedAfter, resultAfter)
    decreases Ids(cats) - visited, 0
  {
    var item := items[j];
    ExpandReady(cats, k, level, items, j, visited0, started0, visited, started, result, parentAt);
    var sub; ghost var subParents;
    sub, visitedAfter, startedAfter, subParents :=
      BuildList(groups, cats, Under(item.id), level + 1, visited + {item.id}, started, path + {item.id});
    ExpandStep(cats, k, level, items, j, visited0, started0, visited, started, result, parentAt,
               sub, visitedAfter, startedAfter, subParents);
    FollowingStep(cats, items, j, level, path, visited, result, visitedAfter, sub);
    parentAtAfter := parentAt + [-1] + Shifted(sub, subParents, level + 1, |result|);
    resultAfter := result + [StructuredCategory(item, level)] + sub;
  }

  /** The orphan pass after its first `n` categories: every one of them whose
      parent is missing has been visited. */
  ghost predicate Adopting(cats: seq<DataCategory>, n: int, visited0: set<int>,
                           flat: seq<StructuredCategory>, visited: set<int>, started: set<Key>, parentAt: seq<int>)
  {
    && 0 <= n <= |cats|
    && Explored(cats, visited, started) && Root in started && visited0 <= visited
    && (forall c :: c in cats && KeyOf(c) == Root ==> c.id in visited)
    && (forall m :: 0 <= m < n && !ParentPresent(cats, cats[m]) ==> cats[m].id in visited)
    && Arranged(cats, flat, visited, parentAt)
  }

  /** Skipping a category that is visited or whose parent is present. */
  lemma AdoptSkip(cats: seq<DataCategory>, n: int, visited0: set<int>,
                  flat: seq<StructuredCategory>, visited: set<int>, started: set<Key>, parentAt: seq<int>)
    requires Adopting(cats, n, visited0, flat, visited, started, parentAt) && n < |cats|
    requires cats[n].id in visited || ParentPresent(cats, cats[n])
    ensures Adopting(cats, n + 1, visited0, flat, visited, started, parentAt)
  {
  }

  /** Before the call at line 44: the orphan is not a root category, and
      visiting it leaves its key unexpanded and its children unvisited. */
  lemma AdoptReady(cats: seq<DataCategory>, n: int, visited0: set<int>,
                   flat: seq<StructuredCategory>, visited: set<int>, started: set<Key>, parentAt: seq<int>)
    requires DistinctIds(cats)
    requires Adopting(cats, n, visited0, flat, visited, started, parentAt) && n < |cats|
    requires cats[n].id !in visited && !ParentPresent(cats, cats[n])
    ensures KeyOf(cats[n]) != Root
    ensures Explored(cats, visited + {cats[n].id}, started)
    ensures Under(cats[n].id) !in started
    ensures forall c :: c in cats && KeyOf(c) == Under(cats[n].id) ==> c.id !in visited + {cats[n].id}
  {
    VisitFresh(cats, visited, started, cats[n]);
  }

  /** After the call: the orphan's entry and the list built under it extend the result. */
  lemma AdoptStep(cats: seq<DataCategory>, n: int, visited0: set<int>,
                  flat: seq<StructuredCategory>, visited: set<int>, started: set<Key>, parentAt: seq<int>,
                  sub: seq<StructuredCategory>, visitedAfter: set<int>, startedAfter: set<Key>, subParents: seq<int>)
    requires DistinctIds(cats)
    requires Adopting(cats, n, visited0, flat, visited, started, parentAt) && n < |cats|
    requires cats[n].id !in visited && KeyOf(cats[n]) != Root
    requires Explored(cats, visitedAfter, startedAfter) && started <= startedAfter
    requires Grown(cats, visited + {cats[n].id}, started, visitedAfter, startedAfter)
    requires Listed(cats, sub, visitedAfter - (visited + {cats[n].id}), 1, Under(cats[n].id), subParents)
    ensures Adopting(cats, n + 1, visited0, flat + [StructuredCategory(cats[n], 0)] + sub, visitedAfter, startedAfter,
                     parentAt + [-1] + Shifted(sub, subParents, 1, |flat|))
  {
    TopStep(cats, flat, visited, parentAt, cats[n], sub, visitedAfter - (visited + {cats[n].id}), subParents);
    assert visited + {cats[n].id} + (visitedAfter - (visited + {cats[n].id})) == visitedAfter;
  }

  /** A category visited by expanding its key has its parent in the list. */
  lemma ExpandedHasParent(cats: seq<DataCategory>, visited: set<int>, started: set<Key>, c: DataCategory)
    requires Explored(cats, visited, started) && c in cats && KeyOf(c) in started
    ensures !Adoptable(cats, c)
  {
    if KeyOf(c) != Root {
      var p := KeyOf(c).id;
      assert p in Ids(cats);
      var d :| d in cats && d.id == p;
    }
  }

  /** After the root pass no adoptable category is visited. */
  lemma RootPassAdoptsNone(cats: seq<DataCategory>, visited: set<int>, started: set<Key>)
    requires Explored(cats, visited, started) && Grown(cats, {}, {}, visited, started)
    ensures forall m :: 0 <= m < |cats| && Adoptable(cats, cats[m]) ==> cats[m].id !in visited
  {
    forall m | 0 <= m < |cats| && cats[m].id in visited
      ensures !Adoptable(cats, cats[m])
    {
      ExpandedHasParent(cats, visited, started, cats[m]);
    }
  }

  /** Adopting `cats[n]` leaves every later adoptable category unvisited. */
  lemma AdoptKeepsLaterUnvisited(cats: seq<DataCategory>, n: int, visited: set<int>, started: set<Key>,
                                 visitedAfter: set<int>, startedAfter: set<Key>)
    requires DistinctIds(cats) && 0 <= n < |cats|
    requires forall m :: n <= m < |cats| && Adoptable(cats, cats[m]) ==> cats[m].id !in visited
    requires Explored(cats, visitedAfter, startedAfter)
    requires Grown(cats, visited + {cats[n].id}, started, visitedAfter, startedAfter)
    ensures forall m :: n + 1 <= m < |cats| && Adoptable(cats, cats[m]) ==> cats[m].id !in visitedAfter
  {
    forall m | n + 1 <= m < |cats| && Adoptable(cats, cats[m]) && cats[m].id in visitedAfter
      ensures false
    {
      assert cats[m].id != cats[n].id;
      ExpandedHasParent(cats, visitedAfter, startedAfter, cats[m]);
    }
  }

  /** The orphan pass after its first `n` categories, with what it has
      appended so far: exactly their adoptions, and every later adoptable
      category is still unvisited. */
  ghost predicate Orphaning(cats: seq<DataCategory>, n: int, visited0: set<int>, flat0: seq<StructuredCategory>,
                            flat: seq<StructuredCategory>, visited: set<int>, started: set<Key>, parentAt: seq<int>)
  {
    && DistinctIds(cats)
    && Adopting(cats, n, visited0, flat, visited, started, parentAt)
    && (forall m :: n <= m < |cats| && Adoptable(cats, cats[m]) ==> cats[m].id !in visited)
    && flat == flat0 + Adopted(cats, n)
  }

  /** Passing over a category that is visited or whose parent is present
      appends nothing. */
  lemma OrphanSkip(cats: seq<DataCategory>, n: int, visited0: set<int>, flat0: seq<StructuredCategory>,
                   flat: seq<StructuredCategory>, visited: set<int>, started: set<Key>, parentAt: seq<int>)
    requires Orphaning(cats, n, visited0, flat0, flat, visited, started, parentAt) && n < |cats|
    requires cats[n].id in visited || ParentPresent(cats, cats[n])
    ensures Orphaning(cats, n + 1, visited0, flat0, flat, visited, started, parentAt)
  {
    AdoptSkip(cats, n, visited0, flat, visited, started, parentAt);
    assert !Adoptable(cats, cats[n]);
    AdoptedSnoc(cats, n, flat0, flat, []);
  }

  /** The body of the `if` at lines 41-45: a top-level entry for `cats[n]`,
      marked visited, then the list built for its id from level 1. */
  method Adopt(groups: map<Key, seq<DataCategory>>, cats: seq<DataCategory>, n: int, ghost visited0: set<int>,
               ghost flat0: seq<StructuredCategory>, flat: seq<StructuredCategory>, visited: set<int>,
               ghost started: set<Key>, ghost parentAt: seq<int>)
    returns (flatAfter: seq<StructuredCategory>, visitedAfter: set<int>, ghost startedAfter: set<Key>, ghost parentAtAfter: seq<int>)
    requires forall key :: GroupOf(groups, key) == Members(cats, key)
    requires Orphaning(cats, n, visited0, flat0, flat, visited, started, parentAt) && n < |cats|
    requires cats[n].id !in visited && !ParentPresent(cats, cats[n])
    ensures Orphaning(cats, n + 1, visited0, flat0, flatAfter, visitedAfter, startedAfter, parentAtAfter)
    ensures flatAfter == flat + [StructuredCategory(cats[n], 0)] + PreOrder(cats, Under(cats[n].id), 1, {cats[n].id})
  {
    var cat := cats[n];
    AdoptReady(cats, n, visited0, flat, visited, started, parentAt);
    var sub, visitedSub, startedSub, subParents := BuildList(groups, cats, Under(cat.id), 1, visited + {cat.id}, started, {cat.id});
    AdoptStep(cats, n, visited0, flat, visited, started, parentAt, sub, visitedSub, startedSub, subParents);
    AdoptKeepsLaterUnvisited(cats, n, visited, started, visitedSub, startedSub);
    AdoptedSnoc(cats, n, flat0, flat, sub);
    parentAtAfter := parentAt + [-1] + Shifted(sub, subParents, 1, |flat|);
    flatAfter := flat + [StructuredCategory(cat, 0)] + sub;
    visitedAfter := visitedSub;
    startedAfter := startedSub;
  }

  /** The orphan pass (lines 37-47): every category still unvisited whose
      parent is not in the list gets a top-level entry followed by the list
      built under it, in input order; these are exactly the adoptable
      categories, so the pass appends `Adopted(cats, |cats|)`. */
  method AdoptOrphans(groups: map<Key, seq<DataCategory>>, cats: seq<DataCategory>, flat0: seq<StructuredCategory>,
                      visited0: set<int>, ghost started0: set<Key>, ghost parentAt0: seq<int>)
    returns (flat: seq<StructuredCategory>, visited: set<int>, ghost started: set<Key>, ghost parentAt: seq<int>)
    requires DistinctIds(cats)
    requires forall key :: GroupOf(groups, key) == Members(cats, key)
    requires Explored(cats, visited0, started0) && Root in started0
    requires forall c :: c in cats && KeyOf(c) == Root ==> c.id in visited0
    requires Arranged(cats, flat0, visited0, parentAt0)
    requires forall m :: 0 <= m < |cats| && Adoptable(cats, cats[m]) ==> cats[m].id !in visited0
    ensures Adopting(cats, |cats|, visited0, flat, visited, started, parentAt)
    ensures flat == flat0 + Adopted(cats, |cats|)
  {
    flat, visited, started, parentAt := flat0, visited0, started0, parentAt0;
    assert Adopted(cats, 0) == [] && flat0 + [] == flat0;
    var n := 0;
    while n < |cats|
      invariant Orphaning(cats, n, visited0, flat0, flat, visited, started, parentAt)
    {
      if cats[n].id !in visited && !ParentPresent(cats, cats[n]) {
        flat, visited, started, parentAt := Adopt(groups, cats, n, visited0, flat0, flat, visited, started, parentAt);
      } else {
        OrphanSkip(cats, n, visited0, flat0, flat, visited, started, parentAt);
      }
      n := n + 1;
    }
  }

  /** One turn of the safeguard: a top-level entry for a category not yet listed. */
  lemma SafeguardStep(cats: seq<DataCategory>, flat: seq<StructuredCategory>, visited: set<int>, parentAt: seq<int>, cat: DataCategory)
    requires Arranged(cats, flat, visited, parentAt)
    requires cat in cats && KeyOf(cat) != Root && cat.id !in visited
    ensures Arranged(cats, flat + [StructuredCategory(cat, 0)], visited + {cat.id}, parentAt + [-1])
  {
    TopStep(cats, flat, visited, parentAt, cat, [], {}, []);
    assert flat + [StructuredCategory(cat, 0)] + [] == flat + [StructuredCategory(cat, 0)];
    assert parentAt + [-1] + Shifted([], [], 1, |flat|) == parentAt + [-1];
    assert visited + {cat.id} + {} == visited + {cat.id};
  }

  /** The final safeguard (lines 50-55): every category still unvisited is
      appended at the top level, in input order, so afterwards every id is
      listed; what it appends is exactly `Leftovers(cats, visited0)`. */
  method AppendUnvisited(cats: seq<DataCategory>, flat0: seq<StructuredCategory>, visited0: set<int>, ghost parentAt0: seq<int>)
    returns (flat: seq<StructuredCategory>, visited: set<int>, ghost parentAt: seq<int>)
    requires visited0 <= Ids(cats)
    requires forall c :: c in cats && KeyOf(c) == Root ==> c.id in visited0
    requires Arranged(cats, flat0, visited0, parentAt0)
    ensures visited == Ids(cats)
    ensures Arranged(cats, flat, visited, parentAt)
    ensures flat == flat0 + Leftovers(cats, visited0)
  {
    flat, visited, parentAt := flat0, visited0, parentAt0;
    var n := 0;
    while n < |cats|
      invariant 0 <= n <= |cats|
      invariant visited0 <= visited <= Ids(cats)
      invariant forall m :: 0 <= m < n ==> cats[m].id in visited
      invariant Arranged(cats, flat, visited, parentAt)
      invariant flat0 + Leftovers(cats, visited0) == flat + Leftovers(cats[n..], visited)
    {
      var cat := cats[n];
      LeftoversStep(cats, n, visited0, flat0, flat, visited);
      if cat.id !in visited {
        SafeguardStep(cats, flat, visited, parentAt, cat);
        parentAt := parentAt + [-1];
        flat := flat + [StructuredCategory(cat, 0)];
        visited := visited + {cat.id};
      }
      n := n + 1;
    }
    assert cats[n..] == [];
  }

  /** The entries' categories, in list order. */
  function Categories(s: seq<StructuredCategory>): (r: seq<DataCategory>)
    ensures |r| == |s| && forall i :: 0 <= i < |s| ==> r[i] == s[i].category
  {
    seq(|s|, i requires 0 <= i < |s| => s[i].category)
  }

  lemma {:induction false} CountInDistinct(s: seq<DataCategory>, x: DataCategory)
    requires DistinctIds(s)
    ensures multiset(s)[x] == if x in s then 1 else 0
  {
    if s != [] {
      assert DistinctIds(s[1..]);
      CountInDistinct(s[1..], x);
      assert s == [s[0]] + s[1..];
    }
  }

  /** Two id-distinct lists with the same members are permutations of each other. */
  lemma SamePermutation(a: seq<DataCategory>, b: seq<DataCategory>)
    requires DistinctIds(a) && DistinctIds(b)
    requires forall x :: x in a <==> x in b
    ensures multiset(a) == multiset(b)
  {
    forall x
      ensures multiset(a)[x] == multiset(b)[x]
    {
      CountInDistinct(a, x);
      CountInDistinct(b, x);
    }
  }

  /** Sorting a group keeps its categories: the sorted copy is a permutation. */
  lemma SortByIdPermutes(s: seq<DataCategory>)
    requires DistinctIds(s)
    ensures multiset(SortById(s)) == multiset(s)
  {
    SamePermutation(SortById(s), s);
  }

  /** A list arranged over every id of `cats` holds each category exactly once,
      and its depths are consistent with the parents. */
  lemma ArrangedComplete(cats: seq<DataCategory>, flat: seq<StructuredCategory>, parentAt: seq<int>)
    requires DistinctIds(cats) && Arranged(cats, flat, Ids(cats), parentAt)
    ensures multiset(Categories(flat)) == multiset(cats)
    ensures ParentsPrecede(flat)
    ensures forall e :: e in flat && !ParentPresent(cats, e.category) ==> e.level == 0
  {
    forall x
      ensures x in Categories(flat) <==> x in cats
    {
      if x in cats {
        assert x.id in EntryIds(flat);
        var e :| e in flat && e.category.id == x.id;
        SameIdSameCategory(cats, x, e.category);
        var i :| 0 <= i < |flat| && flat[i] == e;
        assert Categories(flat)[i] == x;
      }
      if x in Categories(flat) {
        var i :| 0 <= i < |flat| && Categories(flat)[i] == x;
        assert flat[i] in flat;
      }
    }
    assert DistinctIds(Categories(flat));
    SamePermutation(Categories(flat), cats);
    forall j | 0 <= j < |flat| && flat[j].level > 0
      ensures exists i :: 0 <= i < j && IsParentEntry(flat[i], flat[j])
    {
      assert IsParentEntry(flat[parentAt[j]], flat[j]);
    }
    forall e | e in flat && e.level > 0
      ensures ParentPresent(cats, e.category)
    {
      var j :| 0 <= j < |flat| && flat[j] == e;
      assert flat[parentAt[j]] in flat;
    }
  }

  /** The hook's result for `categories` (lines 7-57): null or undefined gives
      the empty list; otherwise every category appears exactly once, every
      category below the top level comes after its parent's entry one level up,
      root categories and categories whose parent is missing stay at the top
      level, and the root categories keep ascending id order. */
  method Flatten(categories: Option<seq<DataCategory>>) returns (flat: seq<StructuredCategory>)
    requires categories.Some? ==> DistinctIds(categories.value)
    ensures categories.None? ==> flat == []
    ensures categories.Some? ==> multiset(Categories(flat)) == multiset(categories.value)
    ensures ParentsPrecede(flat)
    ensures forall e :: e in flat ==> e.level >= 0
    ensures categories.Some? ==> forall e :: e in flat && !ParentPresent(categories.value, e.category) ==> e.level == 0
    ensures forall i :: 0 <= i < |flat| && KeyOf(flat[i].category) == Root ==> flat[i].level == 0
    ensures forall i, j :: 0 <= i < j < |flat| && KeyOf(flat[i].category) == Root && KeyOf(flat[j].category) == Root ==>
              flat[i].category.id < flat[j].category.id
    ensures categories.Some? ==> flat == TreeOrder(categories.value)
  {
    if categories.None? {
      return [];
    }
    var cats := categories.value;
    var groups := GroupByParent(cats);
    var visited: set<int>;
    ghost var started: set<Key>;
    ghost var parentAt: seq<int>;
    flat, visited, started, parentAt := BuildList(groups, cats, Root, 0, {}, {}, {});
    RootPassArranged(cats, flat, visited, parentAt);
    RootPassAdoptsNone(cats, visited, started);
    flat, visited, started, parentAt := AdoptOrphans(groups, cats, flat, visited, started, parentAt);
    flat, visited, parentAt := AppendUnvisited(cats, flat, visited, parentAt);
    ArrangedComplete(cats, flat, parentAt);
  }

  /** A key no category is filed under has an empty group. */
  lemma NoMembers(cats: seq<DataCategory>, k: Key)
    requires forall c :: c in cats ==> KeyOf(c) != k
    ensures Members(cats, k) == []
  {
  }

  /** A category nobody names as parent gets an empty list. */
  lemma PreOrderLeaf(cats: seq<DataCategory>, k: Key, level: int, path: set<int>)
    requires DistinctIds(cats) && forall c :: c in cats ==> KeyOf(c) != k
    ensures PreOrder(cats, k, level, path) == []
  {
    NoMembers(cats, k);
  }

  /** With no adoptable category the orphan pass appends nothing. */
  lemma {:induction false} AdoptedNone(cats: seq<DataCategory>, n: nat)
    requires DistinctIds(cats) && n <= |cats|
    requires forall c :: c in cats ==> !Adoptable(cats, c)
    ensures Adopted(cats, n) == []
  {
    if n > 0 {
      AdoptedNone(cats, n - 1);
      assert cats[n - 1] in cats;
    }
  }

  /** When every id is listed the safeguard appends nothing. */
  lemma {:induction false} LeftoversNone(rest: seq<DataCategory>, listed: set<int>)
    requires forall c :: c in rest ==> c.id in listed
    ensures Leftovers(rest, listed) == []
  {
    if rest != [] {
      assert rest[0] in rest;
      LeftoversNone(rest[1..], listed);
    }
  }

  /** The groups of a three-category list, category by category. */
  lemma MembersOf3(cats: seq<DataCategory>, k: Key)
    requires |cats| == 3
    ensures Members(cats, k) == (if KeyOf(cats[0]) == k then [cats[0]] else [])
                                + (if KeyOf(cats[1]) == k then [cats[1]] else [])
                                + (if KeyOf(cats[2]) == k then [cats[2]] else [])
  {
    var s0 := if KeyOf(cats[0]) == k then [cats[0]] else [];
    var s1 := if KeyOf(cats[1]) == k then [cats[1]] else [];
    assert Members(cats[..1], k) == s0 by {
      assert cats[..0] == [];
      MembersSnoc(cats, 0, k);
    }
    assert Members(cats[..2], k) == s0 + s1 by {
      MembersSnoc(cats, 1, k);
    }
    MembersSnoc(cats, 2, k);
    assert cats[..3] == cats;
  }

  /** The loop over one item without children: its entry alone. */
  lemma SubtreesOfLeaf(cats: seq<DataCategory>, x: DataCategory, level: int, path: set<int>)
    requires DistinctIds(cats) && x in cats
    requires forall c :: c in cats ==> KeyOf(c) != Under(x.id)
    ensures Subtrees(cats, [x], level, path) == [StructuredCategory(x, level)]
  {
    assert [x][..0] == [];
    if x.id !in path {
      PreOrderLeaf(cats, Under(x.id), level + 1, path + {x.id});
    }
  }

  /** Two categories in ascending id order after the sort. */
  lemma SortTwo(x: DataCategory, y: DataCategory)
    requires x.id != y.id
    ensures SortById([x, y]) == if x.id < y.id then [x, y] else [y, x]
  {
    assert [x, y][1..] == [y] && [y][1..] == [];
    assert SortById([y]) == [y];
    if y.id < x.id {
      assert [y][1..] == [] && InsertById(x, []) == [x];
    }
  }

  /** The loop over two items without children: their two entries. */
  lemma SubtreesOfTwoLeaves(cats: seq<DataCategory>, u: DataCategory, v: DataCategory, level: int, path: set<int>)
    requires DistinctIds(cats) && u in cats && v in cats
    requires forall c :: c in cats ==> KeyOf(c) != Under(u.id) && KeyOf(c) != Under(v.id)
    ensures Subtrees(cats, [u, v], level, path) == [StructuredCategory(u, level), StructuredCategory(v, level)]
  {
    SubtreesOfLeaf(cats, u, level, path);
    assert [u, v][..1] == [u];
    if v.id !in path {
      PreOrderLeaf(cats, Under(v.id), level + 1, path + {v.id});
    }
  }

  /** The loop over one item with the given list below it. */
  lemma SubtreesOfOne(cats: seq<DataCategory>, u: DataCategory, level: int, path: set<int>)
    requires DistinctIds(cats) && u in cats && u.id !in path
    ensures Subtrees(cats, [u], level, path)
              == [StructuredCategory(u, level)] + PreOrder(cats, Under(u.id), level + 1, path + {u.id})
  {
    assert [u][..0] == [];
  }

  /** The children of `r` in the first example below, in ascending id order. */
  lemma ChildrenById(r: DataCategory, x: DataCategory, y: DataCategory)
    requires r.parent == None && r.id != 0 && x.parent == Some(r.id) && y.parent == Some(r.id)
    requires y.id < x.id && r.id != x.id && r.id != y.id
    ensures PreOrder([r, x, y], Under(r.id), 1, {r.id}) == [StructuredCategory(y, 1), StructuredCategory(x, 1)]
  {
    var cats := [r, x, y];
    assert Members(cats, Under(r.id)) == [x, y] by {
      MembersOf3(cats, Under(r.id));
    }
    SortTwo(x, y);
    assert Subtrees(cats, [y, x], 1, {r.id}) == [StructuredCategory(y, 1), StructuredCategory(x, 1)] by {
      SubtreesOfTwoLeaves(cats, y, x, 1, {r.id});
    }
  }

  /** The root pass of the first example below. */
  lemma RootWithChildren(r: DataCategory, x: DataCategory, y: DataCategory)
    requires r.parent == None && r.id != 0 && x.parent == Some(r.id) && y.parent == Some(r.id)
    requires y.id < x.id && r.id != x.id && r.id != y.id
    ensures PreOrder([r, x, y], Root, 0, {}) == [StructuredCategory(r, 0), StructuredCategory(y, 1), StructuredCategory(x, 1)]
  {
    var cats := [r, x, y];
    var none: set<int> := {};
    assert Members(cats, Root) == [r] by {
      MembersOf3(cats, Root);
    }
    assert SortById([r]) == [r];
    assert Subtrees(cats, [r], 0, none) == [StructuredCategory(r, 0), StructuredCategory(y, 1), StructuredCategory(x, 1)] by {
      ChildrenById(r, x, y);
      assert none + {r.id} == {r.id};
      SubtreesOfOne(cats, r, 0, none);
    }
  }

  /** Children are listed in ascending id order, not in input order: a root
      with children `x` and `y`, where `y` has the smaller id, lists `y` first. */
  lemma SiblingsInIdOrder(r: DataCategory, x: DataCategory, y: DataCategory)
    requires r.parent == None && r.id != 0 && x.parent == Some(r.id) && y.parent == Some(r.id)
    requires y.id < x.id && r.id != x.id && r.id != y.id
    ensures TreeOrder([r, x, y]) == [StructuredCategory(r, 0), StructuredCategory(y, 1), StructuredCategory(x, 1)]
  {
    var cats := [r, x, y];
    var none: set<int> := {};
    var top := PreOrder(cats, Root, 0, none);
    RootWithChildren(r, x, y);
    AdoptedNone(cats, 3);
    assert top + [] == top;
    LeftoversNone(cats, EntryIds(top));
  }

  /** The child of root `a` in the second example below. */
  lemma OnlyChild(a: DataCategory, b: DataCategory, c: DataCategory)
    requires a.parent == None && b.parent == None && a.id != 0 && c.parent == Some(a.id)
    requires a.id < b.id && c.id != a.id && c.id != b.id
    ensures PreOrder([a, b, c], Under(a.id), 1, {a.id}) == [StructuredCategory(c, 1)]
  {
    var cats := [a, b, c];
    assert Members(cats, Under(a.id)) == [c] by {
      MembersOf3(cats, Under(a.id));
    }
    assert SortById([c]) == [c];
    assert Subtrees(cats, [c], 1, {a.id}) == [StructuredCategory(c, 1)] by {
      SubtreesOfLeaf(cats, c, 1, {a.id});
    }
  }

  /** The two-item loop of the root pass in the second example below. */
  lemma RootsWithChild(a: DataCategory, b: DataCategory, c: DataCategory)
    requires a.parent == None && b.parent == None && a.id != 0 && c.parent == Some(a.id)
    requires a.id < b.id && c.id != a.id && c.id != b.id
    ensures Subtrees([a, b, c], [a, b], 0, {})
              == [StructuredCategory(a, 0), StructuredCategory(c, 1), StructuredCategory(b, 0)]
  {
    var cats := [a, b, c];
    var none: set<int> := {};
    assert Subtrees(cats, [a], 0, none) == [StructuredCategory(a, 0), StructuredCategory(c, 1)] by {
      OnlyChild(a, b, c);
      assert none + {a.id} == {a.id};
      SubtreesOfOne(cats, a, 0, none);
    }
    assert PreOrder(cats, Under(b.id), 1, none + {b.id}) == [] by {
      PreOrderLeaf(cats, Under(b.id), 1, none + {b.id});
    }
    assert [a, b][..1] == [a];
  }

  /** Each item is immediately followed by its own subtree: the child of root
      `a` comes before root `b`, although it is after `b` in the input. */
  lemma SubtreeBeforeNextRoot(a: DataCategory, b: DataCategory, c: DataCategory)
    requires a.parent == None && b.parent == None && a.id != 0 && c.parent == Some(a.id)
    requires a.id < b.id && c.id != a.id && c.id != b.id
    ensures TreeOrder([a, b, c]) == [StructuredCategory(a, 0), StructuredCategory(c, 1), StructuredCategory(b, 0)]
  {
    var cats := [a, b, c];
    var top := PreOrder(cats, Root, 0, {});
    assert top == [StructuredCategory(a, 0), StructuredCategory(c, 1), StructuredCategory(b, 0)] by {
      assert Members(cats, Root) == [a, b] by {
        MembersOf3(cats, Root);
      }
      SortTwo(a, b);
      RootsWithChild(a, b, c);
    }
    AdoptedNone(cats, 3);
    assert top + [] == top;
    LeftoversNone(cats, EntryIds(top));
  }

  /** The root pass of the third example below: the one root alone. */
  lemma RootBesideCycle(b: DataCategory, c: DataCategory, r: DataCategory)
    requires b.parent == Some(c.id) && c.parent == Some(b.id) && b.id != 0 && c.id != 0 && r.parent == None
    requires b.id != c.id && r.id != b.id && r.id != c.id
    ensures PreOrder([b, c, r], Root, 0, {}) == [StructuredCategory(r, 0)]
  {
    var cats := [b, c, r];
    assert Members(cats, Root) == [r] by {
      MembersOf3(cats, Root);
    }
    assert SortById([r]) == [r];
    assert Subtrees(cats, [r], 0, {}) == [StructuredCategory(r, 0)] by {
      SubtreesOfLeaf(cats, r, 0, {});
    }
  }

  /** The safeguard of the third example below: the cycle, in input order. */
  lemma CycleLeftovers(b: DataCategory, c: DataCategory, r: DataCategory)
    requires b.id != c.id && r.id != b.id && r.id != c.id
    ensures Leftovers([b, c, r], {r.id}) == [StructuredCategory(b, 0), StructuredCategory(c, 0)]
  {
    assert [b, c, r][1..] == [c, r] && [c, r][1..] == [r];
    LeftoversNone([r], {r.id} + {b.id} + {c.id});
  }

  /** Categories on a parent cycle are reached by neither pass; the safeguard
      lists them at level 0, in input order, after the root pass. */
  lemma CycleLeftAtTopLevel(b: DataCategory, c: DataCategory, r: DataCategory)
    requires b.parent == Some(c.id) && c.parent == Some(b.id) && b.id != 0 && c.id != 0 && r.parent == None
    requires b.id != c.id && r.id != b.id && r.id != c.id
    ensures TreeOrder([b, c, r]) == [StructuredCategory(r, 0), StructuredCategory(b, 0), StructuredCategory(c, 0)]
  {
    var cats := [b, c, r];
    var top := PreOrder(cats, Root, 0, {});
    RootBesideCycle(b, c, r);
    assert ParentPresent(cats, b) && ParentPresent(cats, c);
    AdoptedNone(cats, 3);
    assert top + [] == top;
    assert EntryIds(top) == {r.id};
    CycleLeftovers(b, c, r);
  }
}
