/** The navigation sidebar (src/components/sidebar.tsx): the role and search
    filter over the menu catalogue (src/components/data/sidebar_data.tsx),
    the expand/collapse state, the search auto-expansion and the navigation
    guard. The role filter writes each narrowed submenu back into the shared
    catalogue, so the catalogue is part of the state here. */
module Sidebar {
  import opened Common
  import opened Text
  import Session

  /** A `SidebarItem` without its icon and badge. `caption` is the source's
      `label` (a keyword here); an absent `requiredRole` or `submenu` is None. */
  datatype Item = Item(caption: string, href: string, requiredRole: Option<seq<string>>, submenu: Option<seq<Item>>)

  /** `user?.role || 'VIEWER'` */
  function RoleOf(user: Option<Session.User>): (r: string)
    ensures r != ""
    ensures user.Some? && user.value.role != "" ==> r == user.value.role
    ensures user.None? ==> r == "VIEWER"
  {
    if user.Some? && user.value.role != "" then user.value.role else "VIEWER"
  }

  /** The footer's name: `first_name last_name`, or "Guest User" when nobody is signed in. */
  function UserName(user: Option<Session.User>): (r: string)
    ensures user.None? ==> r == "Guest User"
    ensures user.Some? ==> r == user.value.firstName + " " + user.value.lastName
  {
    match user
    case None => "Guest User"
    case Some(u) => u.firstName + " " + u.lastName
  }

  /** `!requiredRole || requiredRole.some(r => r.toLowerCase() === role.toLowerCase())`:
      an item without a role list is open to everyone, and an empty role
      list admits nobody. */
  predicate Permits(required: Option<seq<string>>, role: string)
  {
    required.None? || exists i :: 0 <= i < |required.value| && SameIgnoringCase(required.value[i], role)
  }

  /** `caption.toLowerCase().includes(query.toLowerCase())` */
  predicate LabelMatches(caption: string, query: string)
  {
    Contains(Lower(caption), Lower(query))
  }

  /** An item matches a search when its own caption or a submenu caption does. */
  predicate Matches(item: Item, query: string)
  {
    LabelMatches(item.caption, query)
    || (item.submenu.Some? && exists i :: 0 <= i < |item.submenu.value| && LabelMatches(item.submenu.value[i].caption, query))
  }

  /** `submenu.filter(sub => permitted)`, in order. */
  function PermittedOnly(subs: seq<Item>, role: string): (r: seq<Item>)
    ensures |r| <= |subs|
    ensures forall x :: x in r <==> x in subs && Permits(x.requiredRole, role)
  {
    if subs == [] then []
    else (if Permits(subs[0].requiredRole, role) then [subs[0]] else []) + PermittedOnly(subs[1..], role)
  }

  /** Filtering a filtered submenu again for the same role changes nothing. */
  lemma {:induction false} PermittedOnlyIdempotent(subs: seq<Item>, role: string)
    ensures PermittedOnly(PermittedOnly(subs, role), role) == PermittedOnly(subs, role)
  {
    if subs != [] {
      PermittedOnlyIdempotent(subs[1..], role);
      var head := if Permits(subs[0].requiredRole, role) then [subs[0]] else [];
      var rest := PermittedOnly(subs[1..], role);
      assert PermittedOnly(subs, role) == head + rest;
      if head == [] {
        assert head + rest == rest;
      } else {
        assert (head + rest)[1..] == rest;
      }
    }
  }

  /** The item as the role filter leaves it: a submenu keeps only its
      permitted entries; everything else stays. */
  function Narrowed(item: Item, role: string): (r: Item)
    ensures r.caption == item.caption && r.href == item.href && r.requiredRole == item.requiredRole
    ensures item.submenu.None? ==> r == item
    ensures item.submenu.Some? ==> r.submenu == Some(PermittedOnly(item.submenu.value, role))
  {
    if item.submenu.Some? then item.(submenu := Some(PermittedOnly(item.submenu.value, role))) else item
  }

  /** Whether the filter keeps `item`: its role list admits `role`, and,
      when there is a query, its caption or a remaining submenu caption matches. */
  predicate Shown(item: Item, role: string, query: string)
  {
    Permits(item.requiredRole, role) && (query == "" || Matches(Narrowed(item, role), query))
  }

  /** The menu the sidebar shows for `role` and `query`, computed from the
      catalogue without changing it: the kept items, narrowed, in catalogue
      order. This is the filter as evidently intended. */
  function Visible(catalogue: seq<Item>, role: string, query: string): (r: seq<Item>)
    ensures |r| <= |catalogue|
  {
    if catalogue == [] then []
    else
      var last := catalogue[|catalogue| - 1];
      Visible(catalogue[..|catalogue| - 1], role, query) + (if Shown(last, role, query) then [Narrowed(last, role)] else [])
  }

  /** An item is on show exactly when some catalogue item the filter keeps
      narrows to it. */
  lemma {:induction false} VisibleMembership(catalogue: seq<Item>, role: string, query: string)
    ensures forall x :: x in Visible(catalogue, role, query) ==>
              exists i :: 0 <= i < |catalogue| && Shown(catalogue[i], role, query) && x == Narrowed(catalogue[i], role)
    ensures forall i :: 0 <= i < |catalogue| && Shown(catalogue[i], role, query) ==> Narrowed(catalogue[i], role) in Visible(catalogue, role, query)
  {
    if catalogue != [] {
      var n := |catalogue| - 1;
      var init := catalogue[..n];
      VisibleMembership(init, role, query);
      assert forall i :: 0 <= i < n ==> init[i] == catalogue[i];
      var tail := if Shown(catalogue[n], role, query) then [Narrowed(catalogue[n], role)] else [];
      assert Visible(catalogue, role, query) == Visible(init, role, query) + tail;
      forall x | x in Visible(catalogue, role, query)
        ensures exists i :: 0 <= i < |catalogue| && Shown(catalogue[i], role, query) && x == Narrowed(catalogue[i], role)
      {
        if x !in Visible(init, role, query) {
          assert x in tail;
        }
      }
    }
  }

  /** Every submenu entry on show is permitted for the role. */
  lemma VisibleSubmenusArePermitted(catalogue: seq<Item>, role: string, query: string, x: Item, sub: Item)
    requires x in Visible(catalogue, role, query)
    requires x.submenu.Some? && sub in x.submenu.value
    ensures Permits(sub.requiredRole, role) && Permits(x.requiredRole, role)
  {
    VisibleMembership(catalogue, role, query);
  }

  /** With an empty query the filter keeps every permitted item. */
  lemma EmptyQueryKeepsPermitted(catalogue: seq<Item>, role: string, i: int)
    requires 0 <= i < |catalogue| && Permits(catalogue[i].requiredRole, role)
    ensures Narrowed(catalogue[i], role) in Visible(catalogue, role, "")
  {
    VisibleMembership(catalogue, role, "");
  }

  /** The one-item step of the role filter on the shared catalogue: items the
      role may see have their submenu narrowed in place; the others are left
      untouched (they are rejected before the submenu is reached). */
  function PruneOne(item: Item, role: string): (r: Item)
    ensures Permits(item.requiredRole, role) ==> r == Narrowed(item, role)
    ensures !Permits(item.requiredRole, role) ==> r == item
  {
    if Permits(item.requiredRole, role) then Narrowed(item, role) else item
  }

  /** The catalogue as the role filter leaves it. */
  function Pruned(catalogue: seq<Item>, role: string): (r: seq<Item>)
    ensures |r| == |catalogue|
    ensures forall i :: 0 <= i < |catalogue| ==> r[i] == PruneOne(catalogue[i], role)
  {
    seq(|catalogue|, i requires 0 <= i < |catalogue| => PruneOne(catalogue[i], role))
  }

  /** Running the filter again for the same role shows the same menu: the
      write-back is harmless as long as the role does not change. */
  lemma {:induction false} SameRoleSeesSameMenu(catalogue: seq<Item>, role: string, query: string)
    ensures Visible(Pruned(catalogue, role), role, query) == Visible(catalogue, role, query)
  {
    if catalogue != [] {
      var n := |catalogue| - 1;
      var last := catalogue[n];
      assert Pruned(catalogue, role)[..n] == Pruned(catalogue[..n], role);
      SameRoleSeesSameMenu(catalogue[..n], role, query);
      if last.submenu.Some? {
        PermittedOnlyIdempotent(last.submenu.value, role);
      }
      assert Narrowed(PruneOne(last, role), role) == Narrowed(last, role);
    }
  }

  /** `isItemActive`: as written, no href is ever active. */
  function IsItemActive(href: string): (r: bool)
    ensures !r
  {
    if href == "" then false
    else if href == "/" then false
    else false
  }

  /** `hasActiveSubmenu` */
  predicate HasActiveSubmenu(submenu: seq<Item>)
  {
    exists i :: 0 <= i < |submenu| && IsItemActive(submenu[i].href)
  }

  /** The captions of the shown items that have an active submenu entry. */
  function ActiveLabels(items: seq<Item>): (r: seq<string>)
    ensures forall l :: l in r ==> exists i :: 0 <= i < |items| && items[i].caption == l
                                             && items[i].submenu.Some? && HasActiveSubmenu(items[i].submenu.value)
  {
    if items == [] then []
    else
      var head := items[0];
      (if head.submenu.Some? && HasActiveSubmenu(head.submenu.value) then [head.caption] else [])
      + ActiveLabels(items[1..])
  }

  predicate NoDuplicates(s: seq<string>)
  {
    forall i, j :: 0 <= i < j < |s| ==> s[i] != s[j]
  }

  /** `[...new Set(s)]`: the first occurrence of each caption, in order. */
  function Dedup(s: seq<string>): (r: seq<string>)
    ensures NoDuplicates(r)
    ensures forall x :: x in r <==> x in s
    ensures NoDuplicates(s) ==> r == s
  {
    if s == [] then []
    else
      var init := s[..|s| - 1];
      var last := s[|s| - 1];
      assert s == init + [last];
      var d := Dedup(init);
      if last in d then d
      else
        assert NoDuplicates(s) ==> NoDuplicates(init) && d + [last] == s;
        d + [last]
  }

  /** The auto-expand effect: the expanded captions gain those of the shown
      items with an active submenu, without duplicates. */
  function AutoExpanded(expanded: seq<string>, shown: seq<Item>): (r: seq<string>)
    ensures NoDuplicates(r)
    ensures forall x :: x in r <==> x in expanded || x in ActiveLabels(shown)
  {
    Dedup(expanded + ActiveLabels(shown))
  }

  /** Since no href is active, auto-expansion adds nothing; it only drops
      repeated captions, and leaves a duplicate-free list as it was. */
  lemma {:induction false} AutoExpandAddsNothing(expanded: seq<string>, shown: seq<Item>)
    ensures ActiveLabels(shown) == []
    ensures NoDuplicates(expanded) ==> AutoExpanded(expanded, shown) == expanded
  {
    if shown != [] {
      AutoExpandAddsNothing(expanded, shown[1..]);
      if shown[0].submenu.Some? {
        assert !HasActiveSubmenu(shown[0].submenu.value);
      }
    }
    assert expanded + [] == expanded;
  }

  /** `prev.filter(caption => caption !== itemLabel)` */
  function Drop(s: seq<string>, caption: string): (r: seq<string>)
    ensures forall x :: x in r <==> x in s && x != caption
    ensures caption !in s ==> r == s
  {
    if s == [] then []
    else (if s[0] == caption then [] else [s[0]]) + Drop(s[1..], caption)
  }

  lemma {:induction false} DropAppend(a: seq<string>, b: seq<string>, caption: string)
    ensures Drop(a + b, caption) == Drop(a, caption) + Drop(b, caption)
  {
    if a == [] {
      assert a + b == b;
    } else {
      assert (a + b)[0] == a[0] && (a + b)[1..] == a[1..] + b;
      DropAppend(a[1..], b, caption);
    }
  }

  /** `toggleExpanded(caption)` while expanded: an expanded caption closes, a
      closed one opens at the end. */
  function Toggled(expanded: seq<string>, caption: string): (r: seq<string>)
    ensures caption in r <==> caption !in expanded
    ensures forall x :: x != caption ==> (x in r <==> x in expanded)
    ensures caption !in expanded ==> r == expanded + [caption]
  {
    if caption in expanded then Drop(expanded, caption) else expanded + [caption]
  }

  /** Opening and then closing the same item restores the expanded list. */
  lemma ToggleTwiceRestores(expanded: seq<string>, caption: string)
    requires caption !in expanded
    ensures Toggled(Toggled(expanded, caption), caption) == expanded
  {
    DropAppend(expanded, [caption], caption);
  }

  /** `handleSearch`'s expansion: the captions of catalogue items that match
      the query and have a non-empty submenu, in catalogue order. It reads
      the catalogue as the role filter last left it, with no role check. */
  function SearchExpanded(catalogue: seq<Item>, query: string): (r: seq<string>)
    ensures |r| <= |catalogue|
    ensures forall l :: l in r <==>
              exists i :: 0 <= i < |catalogue| && catalogue[i].caption == l && Matches(catalogue[i], query)
                          && catalogue[i].submenu.Some? && |catalogue[i].submenu.value| > 0
  {
    if catalogue == [] then []
    else
      var c := catalogue[0];
      var rest := SearchExpanded(catalogue[1..], query);
      assert forall i :: 1 <= i < |catalogue| ==> catalogue[1..][i - 1] == catalogue[i];
      (if Matches(c, query) && c.submenu.Some? && |c.submenu.value| > 0 then [c.caption] else []) + rest
  }

  /** What `handleNavigation` does besides returning early. */
  datatype NavEffect = Navigated(href: string) | ClosedMobile

  /** `handleNavigation(href, hasSubmenu)`: a submenu parent does nothing
      while the sidebar is expanded; otherwise a real href is navigated to
      and an open mobile sidebar is closed. */
  function Navigation(href: string, hasSubmenu: bool, isCollapsed: bool, isMobileOpen: bool): (r: seq<NavEffect>)
    ensures Navigated(href) in r <==> (!hasSubmenu || isCollapsed) && href != "" && href != "#"
    ensures ClosedMobile in r <==> (!hasSubmenu || isCollapsed) && isMobileOpen
    ensures forall e :: e in r ==> e == Navigated(href) || e == ClosedMobile
  {
    if hasSubmenu && !isCollapsed then []
    else (if href != "" && href != "#" then [Navigated(href)] else [])
         + (if isMobileOpen then [ClosedMobile] else [])
  }

  /** The loop invariant of the filter effect after `i` items of the
      catalogue `cat0`: the first `i` are pruned, the rest untouched, and
      `items` is the menu of the first `i`. */
  ghost predicate Filtering(cat0: seq<Item>, cat: seq<Item>, items: seq<Item>, i: int, role: string, query: string)
  {
    0 <= i <= |cat| == |cat0|
    && (forall j :: 0 <= j < i ==> cat[j] == PruneOne(cat0[j], role))
    && (forall j :: i <= j < |cat| ==> cat[j] == cat0[j])
    && items == Visible(cat0[..i], role, query)
  }

  /** One turn of the filter loop keeps `Filtering`. */
  lemma FilterStep(cat0: seq<Item>, cat: seq<Item>, items: seq<Item>, i: int, role: string, query: string)
    requires Filtering(cat0, cat, items, i, role, query) && i < |cat|
    ensures Filtering(cat0, cat[i := PruneOne(cat[i], role)], items + (if Shown(cat[i], role, query) then [Narrowed(cat[i], role)] else []),
                      i + 1, role, query)
    ensures Permits(cat[i].requiredRole, role) ==> PruneOne(cat[i], role) == Narrowed(cat[i], role)
    ensures !Permits(cat[i].requiredRole, role) || cat[i].submenu.None? ==> cat[i := PruneOne(cat[i], role)] == cat
  {
    assert cat0[..i + 1][..i] == cat0[..i];
  }

  /** When the filter loop ends, the catalogue is pruned and `items` is the menu. */
  lemma FilterDone(cat0: seq<Item>, cat: seq<Item>, items: seq<Item>, i: int, role: string, query: string)
    requires Filtering(cat0, cat, items, i, role, query) && i >= |cat|
    ensures cat == Pruned(cat0, role) && items == Visible(cat0, role, query)
  {
    assert cat0[..i] == cat0;
  }

  /** The sidebar's state, together with the module-level catalogue that
      the role filter writes back into. */
  class SidebarState {
    /** `sidebarItems`, shared by every mount of the sidebar. */
    var catalogue: seq<Item>
    var isCollapsed: bool
    var expandedItems: seq<string>
    var searchQuery: string
    var filteredItems: seq<Item>

    constructor (catalogue: seq<Item>)
      ensures this.catalogue == catalogue
      ensures !isCollapsed && expandedItems == [] && searchQuery == "" && filteredItems == []
    {
      this.catalogue := catalogue;
      isCollapsed := false;
      expandedItems := [];
      searchQuery := "";
      filteredItems := [];
    }

    /** The role/search filter effect. The shown items are those `Visible`
        computes from the catalogue as it was; the catalogue itself is left
        pruned for `role`. */
    method FilterEffect(role: string)
      modifies this
      ensures filteredItems == Visible(old(catalogue), role, searchQuery)
      ensures catalogue == Pruned(old(catalogue), role)
      ensures isCollapsed == old(isCollapsed) && expandedItems == old(expandedItems) && searchQuery == old(searchQuery)
    {
      var items: seq<Item> := [];
      var i := 0;
      while i < |catalogue|
        invariant Filtering(old(catalogue), catalogue, items, i, role, searchQuery)
        invariant isCollapsed == old(isCollapsed) && expandedItems == old(expandedItems) && searchQuery == old(searchQuery)
      {
        var item := catalogue[i];
        FilterStep(old(catalogue), catalogue, items, i, role, searchQuery);
        if Permits(item.requiredRole, role) {
          if item.submenu.Some? {
            item := item.(submenu := Some(PermittedOnly(item.submenu.value, role)));
            catalogue := catalogue[i := item];
          }
          if searchQuery == "" || Matches(item, searchQuery) {
            items := items + [item];
          }
        }
        i := i + 1;
      }
      FilterDone(old(catalogue), catalogue, items, i, role, searchQuery);
      filteredItems := items;
    }

    /** The auto-expand effect over the shown items. */
    method AutoExpandEffect()
      modifies this
      ensures expandedItems == AutoExpanded(old(expandedItems), filteredItems)
      ensures catalogue == old(catalogue) && isCollapsed == old(isCollapsed)
      ensures searchQuery == old(searchQuery) && filteredItems == old(filteredItems)
    {
      expandedItems := Dedup(expandedItems + ActiveLabels(filteredItems));
    }

    /** `toggleCollapse`: returns the new collapsed flag, which is also
        handed to `onCollapseChange`. Collapsing closes every item and
        clears the search; expanding leaves both alone. */
    method ToggleCollapse() returns (collapsed: bool)
      modifies this
      ensures collapsed == !old(isCollapsed) && isCollapsed == collapsed
      ensures collapsed ==> expandedItems == [] && searchQuery == ""
      ensures !collapsed ==> expandedItems == old(expandedItems) && searchQuery == old(searchQuery)
      ensures catalogue == old(catalogue) && filteredItems == old(filteredItems)
    {
      collapsed := !isCollapsed;
      isCollapsed := collapsed;
      if collapsed {
        expandedItems := [];
        searchQuery := "";
      }
    }

    /** `toggleExpanded(caption)`: ignored while collapsed. */
    method ToggleExpanded(caption: string)
      modifies this
      ensures old(isCollapsed) ==> expandedItems == old(expandedItems)
      ensures !old(isCollapsed) ==> expandedItems == Toggled(old(expandedItems), caption)
      ensures catalogue == old(catalogue) && isCollapsed == old(isCollapsed)
      ensures searchQuery == old(searchQuery) && filteredItems == old(filteredItems)
    {
      if isCollapsed {
        return;
      }
      if caption in expandedItems {
        expandedItems := Drop(expandedItems, caption);
      } else {
        expandedItems := expandedItems + [caption];
      }
    }

    /** `handleSearch(query)`: stores the query and, when it is not empty,
        replaces the expanded list by the matching items with a submenu. */
    method HandleSearch(query: string)
      modifies this
      ensures searchQuery == query
      ensures query != "" ==> expandedItems == SearchExpanded(catalogue, query)
      ensures query == "" ==> expandedItems == old(expandedItems)
      ensures catalogue == old(catalogue) && isCollapsed == old(isCollapsed) && filteredItems == old(filteredItems)
    {
      searchQuery := query;
      if query != "" {
        expandedItems := SearchExpanded(catalogue, query);
      }
    }
  }

  /** `sidebarItems` as shipped (src/components/data/sidebar_data.tsx), without icons and badges. */
  function ShippedCatalogue(): seq<Item>
  {
    [ Item("Dashboard", "/", None, None),
      Item("Data Management", "", None, Some([
        Item("Manage Fiscal Years", "/fiscal-year", None, None),
        Item("Manage Sectors", "/sector", None, None),
        Item("Manage Data Categories", "/data-categories", None, None),
        Item("Manage Economic Data", "/manage-economic-data", None, None),
        Item("Manage Offices", "/manage-offices", None, None)])),
      Item("Reports", "/tickets/status", None, Some([
        Item("Generate Reports", "/level-report", None, None)])),
      Item("User Management", "/categories", None, Some([
        Item("Manage Users", "/users/users-list", None, None),
        Item("User Activity Logs", "users/activity-logs", None, None)])) ]
  }

  /** A submenu none of whose entries names a role is kept whole by the role filter. */
  lemma {:induction false} OpenSubmenuKept(subs: seq<Item>, role: string)
    requires forall i :: 0 <= i < |subs| ==> subs[i].requiredRole.None?
    ensures PermittedOnly(subs, role) == subs
  {
    if subs != [] {
      OpenSubmenuKept(subs[1..], role);
      assert [subs[0]] + subs[1..] == subs;
    }
  }

  /** No submenu entry of the catalogue names a role. */
  predicate OpenSubmenus(catalogue: seq<Item>)
  {
    forall i :: 0 <= i < |catalogue| && catalogue[i].submenu.Some? ==>
      forall j :: 0 <= j < |catalogue[i].submenu.value| ==> catalogue[i].submenu.value[j].requiredRole.None?
  }

  /** A catalogue whose submenus name no roles is left as it was by the
      write-back, for every role. */
  lemma OpenCatalogueKept(catalogue: seq<Item>, role: string)
    requires OpenSubmenus(catalogue)
    ensures Pruned(catalogue, role) == catalogue
  {
    forall i | 0 <= i < |catalogue|
      ensures PruneOne(catalogue[i], role) == catalogue[i]
    {
      if catalogue[i].submenu.Some? {
        OpenSubmenuKept(catalogue[i].submenu.value, role);
      }
    }
  }

  /** The shipped catalogue names no roles, so the write-back leaves it as it
      was for every role: the defect below stays latent until a role-gated
      submenu entry is added. */
  lemma ShippedCatalogueIsUnharmed(role: string)
    ensures OpenSubmenus(ShippedCatalogue())
    ensures Pruned(ShippedCatalogue(), role) == ShippedCatalogue()
  {
    OpenCatalogueKept(ShippedCatalogue(), role);
  }

  /** A catalogue with one submenu entry reserved for admins. */
  function AuditCatalogue(): seq<Item>
  {
    [Item("Reports", "/reports", None, Some([Item("Audit Trail", "/audit", Some(["ADMIN"]), None)]))]
  }

  /** As written, a viewer's visit prunes the shared catalogue, so an admin
      who signs in later in the same page load no longer sees the admin-only
      entry that `Visible` gives an admin. */
  method RoleSwitchLosesSubmenu() returns (adminSees: seq<Item>, adminShouldSee: seq<Item>)
    ensures |adminSees| == 1 && adminSees[0].submenu == Some([])
    ensures adminShouldSee == Visible(AuditCatalogue(), "ADMIN", "")
    ensures |adminShouldSee| == 1 && adminShouldSee[0].submenu == Some(AuditCatalogue()[0].submenu.value)
  {
    var audit := Item("Audit Trail", "/audit", Some(["ADMIN"]), None);
    assert !SameIgnoringCase("ADMIN", "VIEWER");
    assert SameIgnoringCase("ADMIN", "ADMIN");
    assert !Permits(audit.requiredRole, "VIEWER");
    assert SameIgnoringCase(audit.requiredRole.value[0], "ADMIN");
    assert Permits(audit.requiredRole, "ADMIN");
    assert PermittedOnly([audit], "VIEWER") == [];
    assert PermittedOnly([audit], "ADMIN") == [audit];
    var state := new SidebarState(AuditCatalogue());
    state.FilterEffect("VIEWER");
    state.FilterEffect("ADMIN");
    assert PermittedOnly([], "ADMIN") == [];
    adminSees := state.filteredItems;
    adminShouldSee := Visible(AuditCatalogue(), "ADMIN", "");
  }
}
