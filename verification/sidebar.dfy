/** The admin sidebar: the menu with its active flags, the list of expanded submenu titles and
    its toggle, the collapsed and mobile-open flags, and the logout sequence. */
module Sidebar {
  import opened JsValues

  /** A navigable entry: a top-level item or a submenu item. */
  datatype MenuLink = MenuLink(title: string, path: string)

  /** A top-level item is either a link or a titled group of links. */
  datatype MenuItem = Single(link: MenuLink) | Group(title: string, links: seq<MenuLink>)

  const Menu: seq<MenuItem> := [
    Single(MenuLink("Dashboard", "/admin")),
    Group("Master Data", [
      MenuLink("Kelola Pengguna", "/admin/users"),
      MenuLink("Kelola Departemen", "/admin/departments"),
      MenuLink("Kelola Jabatan", "/admin/positions"),
      MenuLink("Kelola Bank", "/admin/bank")]),
    Single(MenuLink("Kelola Absensi", "/admin/attendance")),
    Single(MenuLink("Kelola Pembayaran", "/admin/salary-payment")),
    Single(MenuLink("Lokasi Kantor", "/admin/location"))
  ]

  /** Every link of a menu, groups flattened in place. */
  function Links(items: seq<MenuItem>): (ls: seq<MenuLink>)
  {
    if items == [] then []
    else (match items[0]
          case Single(l) => [l]
          case Group(_, gl) => gl) + Links(items[1..])
  }

  /** An item's `active` flag: the pathname equals its path exactly. */
  predicate Active(link: MenuLink, pathname: string) {
    pathname == link.path
  }

  /** The menu's eight paths are pairwise distinct, so at most one entry is active for any
      pathname. */
  lemma AtMostOneActive(pathname: string)
    ensures |Links(Menu)| == 8
    ensures forall i, j :: 0 <= i < j < |Links(Menu)| ==>
      !(Active(Links(Menu)[i], pathname) && Active(Links(Menu)[j], pathname))
  {
    var ls := Links(Menu);
    assert ls == [
      MenuLink("Dashboard", "/admin"),
      MenuLink("Kelola Pengguna", "/admin/users"),
      MenuLink("Kelola Departemen", "/admin/departments"),
      MenuLink("Kelola Jabatan", "/admin/positions"),
      MenuLink("Kelola Bank", "/admin/bank"),
      MenuLink("Kelola Absensi", "/admin/attendance"),
      MenuLink("Kelola Pembayaran", "/admin/salary-payment"),
      MenuLink("Lokasi Kantor", "/admin/location")];
  }

  /** The list without any occurrence of `title`: `prev.filter(item => item !== title)`. */
  function Without(s: seq<string>, title: string): (r: seq<string>)
  {
    if s == [] then []
    else (if s[0] == title then [] else [s[0]]) + Without(s[1..], title)
  }


  lemma {:induction false} WithoutMembers(s: seq<string>, title: string)
    ensures forall x :: x in Without(s, title) <==> x in s && x != title
    ensures |Without(s, title)| <= |s|
  {
    if s != [] {
      WithoutMembers(s[1..], title);
      assert s == [s[0]] + s[1..];
    }
  }

  lemma {:induction false} WithoutAbsent(s: seq<string>, title: string)
    requires title !in s
    ensures Without(s, title) == s
  {
    if s != [] {
      WithoutAbsent(s[1..], title);
      assert s == [s[0]] + s[1..];
    }
  }

  lemma {:induction false} WithoutAppend(s: seq<string>, t: seq<string>, title: string)
    ensures Without(s + t, title) == Without(s, title) + Without(t, title)
  {
    if s != [] {
      assert (s + t)[1..] == s[1..] + t;
      WithoutAppend(s[1..], t, title);
    } else {
      assert s + t == t;
    }
  }

  /** `toggleSubmenu`'s updater: remove a present title everywhere, append an absent one. The
      title's membership flips, and every other title keeps its membership. */
  function Toggle(prev: seq<string>, title: string): (r: seq<string>)
    ensures title in r <==> title !in prev
    ensures forall x :: x != title ==> (x in r <==> x in prev)
  {
    WithoutMembers(prev, title);
    if title in prev then Without(prev, title) else prev + [title]
  }

  /** A present title disappears entirely; an absent one is appended at the end. */
  lemma ToggleEffect(prev: seq<string>, title: string)
    ensures title in prev ==> title !in Toggle(prev, title)
    ensures title !in prev ==> Toggle(prev, title) == prev + [title]
  {
    WithoutMembers(prev, title);
  }

  /** Every other title keeps its membership, and the others keep their relative order: with
      the toggled title removed, the list is unchanged. */
  lemma ToggleKeepsOthers(prev: seq<string>, title: string)
    ensures forall x :: x != title ==> (x in Toggle(prev, title) <==> x in prev)
    ensures Without(Toggle(prev, title), title) == Without(prev, title)
  {
    WithoutMembers(prev, title);
    if title in prev {
      WithoutAbsent(Without(prev, title), title);
    } else {
      WithoutAppend(prev, [title], title);
      assert Without([title], title) == [];
    }
  }

  /** Toggling the same title twice restores its membership; from a list without it, it
      restores the list exactly. */
  lemma ToggleTwice(prev: seq<string>, title: string)
    ensures (title in Toggle(Toggle(prev, title), title)) == (title in prev)
    ensures title !in prev ==> Toggle(Toggle(prev, title), title) == prev
  {
    WithoutMembers(prev, title);
    if title !in prev {
      WithoutAppend(prev, [title], title);
      assert Without([title], title) == [];
      WithoutAbsent(prev, title);
    } else {
      assert title in Toggle(prev, title) + [title];
    }
  }

  /** Toggles of two different titles commute as far as membership goes. */
  lemma ToggleOtherTitles(prev: seq<string>, a: string, b: string)
    requires a != b
    ensures forall x :: x in Toggle(Toggle(prev, a), b) <==> x in Toggle(Toggle(prev, b), a)
  {
    ToggleKeepsOthers(prev, a);
    ToggleKeepsOthers(prev, b);
    ToggleKeepsOthers(Toggle(prev, a), b);
    ToggleKeepsOthers(Toggle(prev, b), a);
    ToggleEffect(prev, a);
    ToggleEffect(prev, b);
    ToggleEffect(Toggle(prev, a), b);
    ToggleEffect(Toggle(prev, b), a);
  }

  /** The links on screen: top-level links always; a group's links only when the sidebar is
      not collapsed and the group's title is expanded. */
  function ShownLinks(items: seq<MenuItem>, collapsed: bool, expanded: seq<string>): (ls: seq<MenuLink>)
  {
    if items == [] then []
    else (match items[0]
          case Single(l) => [l]
          case Group(t, gl) => if !collapsed && t in expanded then gl else [])
         + ShownLinks(items[1..], collapsed, expanded)
  }

  /** A link is on screen exactly when it is a top-level link, or it belongs to a group whose
      submenu is open. */
  lemma {:induction false} ShownLinksExactly(items: seq<MenuItem>, collapsed: bool, expanded: seq<string>, l: MenuLink)
    ensures l in ShownLinks(items, collapsed, expanded) <==>
      (Single(l) in items) ||
      (!collapsed && exists g :: g in items && g.Group? && g.title in expanded && l in g.links)
  {
    if items != [] {
      ShownLinksExactly(items[1..], collapsed, expanded, l);
      assert items == [items[0]] + items[1..];
      if !collapsed && items[0].Group? && items[0].title in expanded && l in items[0].links {
        assert items[0] in items;
      }
      if (exists g :: g in items[1..] && g.Group? && g.title in expanded && l in g.links) {
        var g :| g in items[1..] && g.Group? && g.title in expanded && l in g.links;
        assert g in items;
      }
    }
  }

  /** With the sidebar open and every group's title expanded, every link is on screen, in menu
      order. */
  lemma {:induction false} AllOpenShowsAll(items: seq<MenuItem>, expanded: seq<string>)
    requires forall g :: g in items && g.Group? ==> g.title in expanded
    ensures ShownLinks(items, false, expanded) == Links(items)
  {
    if items != [] {
      assert items[0] in items;
      forall g | g in items[1..] && g.Group?
        ensures g.title in expanded
      {
        assert g in items;
      }
      AllOpenShowsAll(items[1..], expanded);
    }
  }

  /** Collapsing hides every submenu entry: only top-level links remain. */
  lemma CollapsedShowsOnlyTopLevel(items: seq<MenuItem>, expanded: seq<string>, l: MenuLink)
    ensures l in ShownLinks(items, true, expanded) <==> Single(l) in items
  {
    ShownLinksExactly(items, true, expanded, l);
  }

  class SidebarState {
    var isCollapsed: bool
    var isMobileOpen: bool
    var expandedMenus: seq<string>

    /** The initial state: expanded, mobile menu closed, only `Master Data` open. */
    constructor ()
      ensures !isCollapsed && !isMobileOpen && expandedMenus == ["Master Data"]
    {
      isCollapsed := false;
      isMobileOpen := false;
      expandedMenus := ["Master Data"];
    }

    function Shown(): seq<MenuLink>
      reads this
    {
      ShownLinks(Menu, isCollapsed, expandedMenus)
    }

    method ToggleSubmenu(title: string)
      modifies this
      ensures expandedMenus == Toggle(old(expandedMenus), title)
      ensures isCollapsed == old(isCollapsed) && isMobileOpen == old(isMobileOpen)
    {
      if title in expandedMenus {
        expandedMenus := Without(expandedMenus, title);
      } else {
        expandedMenus := expandedMenus + [title];
      }
    }

    /** The collapse button. */
    method ToggleCollapsed()
      modifies this
      ensures isCollapsed == !old(isCollapsed)
      ensures isMobileOpen == old(isMobileOpen) && expandedMenus == old(expandedMenus)
    {
      isCollapsed := !isCollapsed;
    }

    /** The mobile menu button. */
    method ToggleMobileOpen()
      modifies this
      ensures isMobileOpen == !old(isMobileOpen)
      ensures isCollapsed == old(isCollapsed) && expandedMenus == old(expandedMenus)
    {
      isMobileOpen := !isMobileOpen;
    }

    /** A click on the mobile overlay. */
    method CloseMobile()
      modifies this
      ensures !isMobileOpen
      ensures isCollapsed == old(isCollapsed) && expandedMenus == old(expandedMenus)
    {
      isMobileOpen := false;
    }

    /** A click on a link: navigate to its path; on a screen narrower than 1024 pixels the
        mobile menu closes too. */
    method FollowLink(link: MenuLink, innerWidth: int) returns (target: string)
      modifies this
      ensures target == link.path
      ensures isMobileOpen == (old(isMobileOpen) && innerWidth >= 1024)
      ensures isCollapsed == old(isCollapsed) && expandedMenus == old(expandedMenus)
    {
      target := link.path;
      if innerWidth < 1024 {
        isMobileOpen := false;
      }
    }
  }

  /** A fresh sidebar shows every link of the menu, in order: `Master Data`, the only group, is
      open from the start. */
  method InitialShownLinks() returns (shown: seq<MenuLink>)
    ensures shown == Links(Menu)
  {
    var s := new SidebarState();
    shown := s.Shown();
    AllOpenShowsAll(Menu, ["Master Data"]);
  }

  /** The logout button: sign out, then the confirmation dialog, then navigate to `/login`. A
      step that throws ends the handler, so no navigation happens. */
  method HandleLogout(signOut: Outcome<()>, confirmation: Outcome<()>) returns (navigateTo: Option<string>)
    ensures navigateTo.Some? <==> signOut.Ok? && confirmation.Ok?
    ensures navigateTo.Some? ==> navigateTo.value == "/login"
  {
    navigateTo := None;
    if signOut.Threw? {
      return;
    }
    if confirmation.Threw? {
      return;
    }
    navigateTo := Some("/login");
  }
}
