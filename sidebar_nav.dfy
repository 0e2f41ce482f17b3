/**
 * The sidebar's navigation tables and active-item rule
 * (src/components/layout/sidebar-nav.tsx): an item marked `exactMatch` is
 * active when the pathname equals its href, any other item when the
 * pathname starts with its href.
 */
module SidebarNav {
  import opened JsBuiltins

  /** `NavItem` without its icon (`caption` is its `label`); an absent `exactMatch` is `false`. */
  datatype NavItem = NavItem(href: string, caption: string, exactMatch: bool)

  const Dashboard := NavItem("/dashboard", "Dashboard", true)
  const DispatchManager := NavItem("/dispatch", "Dispatch Manager", false)
  const ReturnLogger := NavItem("/returns", "Return Logger", false)
  const EmployeeRoster := NavItem("/employees", "Employee Roster", false)
  const Profile := NavItem("/profile", "Profile", false)
  const Settings := NavItem("/settings", "Settings", false)

  const MainNavItems: seq<NavItem> := [Dashboard, DispatchManager, ReturnLogger, EmployeeRoster]
  const SecondaryNavItems: seq<NavItem> := [Profile, Settings]

  /** `item.exactMatch ? pathname === item.href : pathname.startsWith(item.href)`. */
  function IsActive(item: NavItem, pathname: string): (active: bool)
    ensures item.exactMatch ==> (active <==> pathname == item.href)
    ensures !item.exactMatch ==> (active <==> |item.href| <= |pathname| && pathname[..|item.href|] == item.href)
  {
    if item.exactMatch then pathname == item.href else StartsWith(pathname, item.href)
  }

  /** The `isActive` flag of every item of a table, in table order. */
  function ActiveFlags(items: seq<NavItem>, pathname: string): (flags: seq<bool>)
    ensures |flags| == |items|
    ensures forall i :: 0 <= i < |items| ==> flags[i] == IsActive(items[i], pathname)
  {
    Map(items, (item: NavItem) => IsActive(item, pathname))
  }

  /** An exact-match item is active exactly when the pathname is its href. */
  lemma ExactItemActiveIff(item: NavItem, pathname: string)
    requires item.exactMatch
    ensures IsActive(item, pathname) <==> pathname == item.href
  {
  }

  /** Any other item is active exactly when its href is a character prefix of the pathname. */
  lemma PrefixItemActiveIff(item: NavItem, pathname: string)
    requires !item.exactMatch
    ensures IsActive(item, pathname) <==> |item.href| <= |pathname| && pathname[..|item.href|] == item.href
  {
  }

  /** The item's own href activates it in either mode. */
  lemma OwnHrefIsActive(item: NavItem)
    ensures IsActive(item, item.href)
  {
  }

  /** Dashboard is the only exact-match item, so a path below it does not activate it. */
  lemma OnlyDashboardIsExact()
    ensures forall item :: item in MainNavItems + SecondaryNavItems && item.exactMatch ==> item == Dashboard
    ensures !IsActive(Dashboard, "/dashboard/x")
  {
  }

  /** Prefix matching is by character: "/employeesX" activates the Employee Roster item. */
  lemma CharacterPrefixActivates()
    ensures IsActive(EmployeeRoster, "/employeesX")
    ensures IsActive(EmployeeRoster, "/employees/42")
  {
  }

  /** All hrefs across both tables are distinct. */
  lemma HrefsDistinct()
    ensures var items := MainNavItems + SecondaryNavItems;
      forall i, j :: 0 <= i < j < |items| ==> items[i].href != items[j].href
  {
  }

  /** Two prefixes of one string: the shorter is a prefix of the longer. */
  lemma PrefixesAreNested(s: string, a: string, b: string)
    requires StartsWith(s, a) && StartsWith(s, b) && |a| <= |b|
    ensures StartsWith(b, a)
  {
    assert b[..|a|] == s[..|b|][..|a|] == s[..|a|];
  }

  /** Whatever the pathname, at most one item of the two tables is active. */
  lemma AtMostOneActive(pathname: string)
    ensures var items := MainNavItems + SecondaryNavItems;
      forall i, j :: 0 <= i < j < |items| && IsActive(items[i], pathname) ==> !IsActive(items[j], pathname)
  {
    var items := MainNavItems + SecondaryNavItems;
    forall i, j | 0 <= i < j < |items| && IsActive(items[i], pathname)
      ensures !IsActive(items[j], pathname)
    {
      var a, b := items[i].href, items[j].href;
      assert !StartsWith(a, b) && !StartsWith(b, a) by {
        assert a[1] != b[1] || a[2] != b[2];
      }
      if IsActive(items[j], pathname) {
        assert StartsWith(pathname, a) && StartsWith(pathname, b);
        if |a| <= |b| {
          PrefixesAreNested(pathname, a, b);
        } else {
          PrefixesAreNested(pathname, b, a);
        }
      }
    }
  }
}
