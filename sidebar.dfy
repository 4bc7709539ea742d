/**
 * The navigation sidebar: which entries it lists for the signed-in user and which of
 * them is highlighted for the current pathname.
 */
module Sidebar {
  import opened Text
  import opened Storage
  import opened UserService

  datatype MenuItem = MenuItem(path: string, caption: string, adminOnly: bool)

  const UserItems: seq<MenuItem> := [
    MenuItem("/concerts", "Conciertos", false),
    MenuItem("/my-orders", "Mis Órdenes", false)
  ]

  const AdminItems: seq<MenuItem> := [
    MenuItem("/admin/concerts", "Gestión Conciertos", true),
    MenuItem("/admin/venues", "Gestión Venues", true),
    MenuItem("/admin/orders", "Todas las Órdenes", true)
  ]

  /** `menuItems`: the two user entries, followed by the three admin entries for administrators. */
  function MenuItems(isAdmin: bool): (items: seq<MenuItem>)
    ensures |items| == if isAdmin then 5 else 2
    ensures items[..2] == UserItems
    ensures isAdmin ==> items[2..] == AdminItems
    ensures forall i :: 0 <= i < |items| ==> (items[i].adminOnly <==> i >= 2)
  {
    if isAdmin then UserItems + AdminItems else UserItems
  }

  /** The sidebar as rendered for the session in storage. */
  function Menu(items: map<string, Item>): seq<MenuItem> {
    MenuItems(IsAdmin(items))
  }

  /** An entry is highlighted on its own path, and (except `/concerts`) on every path it prefixes. */
  predicate IsActive(pathname: string, path: string) {
    pathname == path || (path != "/concerts" && StartsWith(pathname, path))
  }

  /** The `/concerts` entry is highlighted only on `/concerts` itself. */
  lemma ConcertsEntryExact(pathname: string)
    ensures IsActive(pathname, "/concerts") <==> pathname == "/concerts"
  {
  }

  /** Every other entry is highlighted exactly on the paths it prefixes. */
  lemma OtherEntriesByPrefix(pathname: string, path: string)
    requires path != "/concerts"
    ensures IsActive(pathname, path) <==> StartsWith(pathname, path)
  {
  }

  lemma ActiveIsPrefix(pathname: string, path: string)
    requires IsActive(pathname, path)
    ensures StartsWith(pathname, path)
  {
    if pathname == path {
      assert pathname[..|path|] == path;
    }
  }

  /** Two prefixes of the same text: the shorter is a prefix of the longer. */
  lemma PrefixesNest(s: string, a: string, b: string)
    requires StartsWith(s, a) && StartsWith(s, b) && |a| <= |b|
    ensures StartsWith(b, a)
  {
    assert b[..|a|] == s[..|b|][..|a|] == s[..|a|];
  }

  /** No entry's path is a prefix of another's: the React keys are distinct and nest nowhere. */
  lemma PathsDoNotNest(isAdmin: bool)
    ensures forall i, j :: 0 <= i < |MenuItems(isAdmin)| && 0 <= j < |MenuItems(isAdmin)| && i != j ==>
      !StartsWith(MenuItems(isAdmin)[j].path, MenuItems(isAdmin)[i].path)
  {
    var items := MenuItems(isAdmin);
    forall i, j | 0 <= i < |items| && 0 <= j < |items| && i != j
      ensures !StartsWith(items[j].path, items[i].path)
    {
      var a, b := items[i].path, items[j].path;
      if |a| <= |b| {
        // the paths first differ within the shorter one
        if i == 0 || j == 0 {
          assert a[1] != b[1];
        } else if i == 1 || j == 1 {
          assert a[1] != b[1];
        } else {
          assert a[7] != b[7];
        }
      }
    }
  }

  /** Whatever the pathname, at most one entry of the sidebar is highlighted. */
  lemma {:induction false} AtMostOneActive(isAdmin: bool, pathname: string, i: nat, j: nat)
    requires i < |MenuItems(isAdmin)| && j < |MenuItems(isAdmin)|
    requires IsActive(pathname, MenuItems(isAdmin)[i].path)
    requires IsActive(pathname, MenuItems(isAdmin)[j].path)
    ensures i == j
  {
    var items := MenuItems(isAdmin);
    var a, b := items[i].path, items[j].path;
    if i != j {
      PathsDoNotNest(isAdmin);
      ActiveIsPrefix(pathname, a);
      ActiveIsPrefix(pathname, b);
      if |a| <= |b| {
        PrefixesNest(pathname, a, b);
      } else {
        PrefixesNest(pathname, b, a);
      }
    }
  }

  /** Pages below an admin entry keep it highlighted; the concert detail page highlights no entry at all. */
  lemma HighlightExamples()
    ensures IsActive("/admin/venues/7/sections", "/admin/venues")
    ensures forall isAdmin: bool, i :: 0 <= i < |MenuItems(isAdmin)| ==> !IsActive("/concerts/7", MenuItems(isAdmin)[i].path)
  {
    assert "/admin/venues/7/sections"[..|"/admin/venues"|] == "/admin/venues";
    forall isAdmin: bool, i | 0 <= i < |MenuItems(isAdmin)|
      ensures !IsActive("/concerts/7", MenuItems(isAdmin)[i].path)
    {
      var path := MenuItems(isAdmin)[i].path;
      if path != "/concerts" {
        assert path in ["/my-orders", "/admin/concerts", "/admin/venues", "/admin/orders"] by {
          if i >= 2 { assert MenuItems(isAdmin)[i] == AdminItems[i - 2]; }
        }
        assert |path| >= 2 && path[1] != "/concerts/7"[1];
      }
    }
  }
}
