/**
  The navigation sidebar: the menu every role sees (four common entries followed by
  the role's own entries), which entry is highlighted, what a click reports, and the
  group label above the menu.
 */
module Sidebar {
  import opened Common
  import opened Roles

  /** A menu entry; icons are rendering detail and are not kept. */
  datatype MenuItem = MenuItem(title: string, url: string)

  const CommonItems: seq<MenuItem> := [
    MenuItem("Dashboard", "dashboard"),
    MenuItem("Attendance", "attendance"),
    MenuItem("AI Assistant", "chatbot"),
    MenuItem("Notifications", "notifications")
  ]

  /** The role-specific entries; a role without a table entry contributes none. */
  function RoleItems(role: Role): seq<MenuItem> {
    match role
    case Student => [
      MenuItem("My Syllabus", "syllabus"),
      MenuItem("My Progress", "progress"),
      MenuItem("Schemes & Scholarships", "schemes")
    ]
    case Teacher => [
      MenuItem("Today's Work", "todays-work"),
      MenuItem("Syllabus Tracking", "syllabus"),
      MenuItem("Reports", "reports")
    ]
    case SchoolAdmin => [
      MenuItem("Staff Management", "staff"),
      MenuItem("School Analytics", "analytics"),
      MenuItem("System Settings", "settings"),
      MenuItem("Compliance", "compliance")
    ]
    case Government => [
      MenuItem("District Overview", "district"),
      MenuItem("School Networks", "schools"),
      MenuItem("Policy Management", "policies"),
      MenuItem("Data Analytics", "data")
    ]
    case Other(_) => []
  }

  /** The menu: the common entries, then the role's own, in table order. */
  function SidebarItems(role: Role): (items: seq<MenuItem>)
    ensures |items| >= 4 && items[..4] == CommonItems
    ensures items[4..] == RoleItems(role)
  {
    CommonItems + RoleItems(role)
  }

  /** Menu entries navigate by url: no two entries share one. */
  predicate DistinctUrls(items: seq<MenuItem>) {
    forall i, j :: 0 <= i < j < |items| ==> items[i].url != items[j].url
  }

  /** Menu entries are keyed by title: no two entries share one. */
  predicate DistinctTitles(items: seq<MenuItem>) {
    forall i, j :: 0 <= i < j < |items| ==> items[i].title != items[j].title
  }

  /** Seven entries for student and teacher, eight for school admin and government,
      and exactly the common four for any other role. */
  lemma MenuShape(role: Role)
    ensures role.Student? || role.Teacher? ==> |SidebarItems(role)| == 7
    ensures role.SchoolAdmin? || role.Government? ==> |SidebarItems(role)| == 8
    ensures role.Other? ==> SidebarItems(role) == CommonItems
  {
  }

  lemma MenuUrlsDistinct(role: Role)
    ensures DistinctUrls(SidebarItems(role))
  {
    DistinctUrlsAppend(CommonItems, RoleItems(role));
  }

  /** Two menus without duplicate urls that share no url join into one without. */
  lemma DistinctUrlsAppend(a: seq<MenuItem>, b: seq<MenuItem>)
    requires DistinctUrls(a) && DistinctUrls(b)
    requires forall i, j :: 0 <= i < |a| && 0 <= j < |b| ==> a[i].url != b[j].url
    ensures DistinctUrls(a + b)
  {
  }

  lemma MenuTitlesDistinct(role: Role)
    ensures DistinctTitles(SidebarItems(role))
  {
    DistinctTitlesAppend(CommonItems, RoleItems(role));
  }

  /** Two menus without duplicate titles that share no title join into one without. */
  lemma DistinctTitlesAppend(a: seq<MenuItem>, b: seq<MenuItem>)
    requires DistinctTitles(a) && DistinctTitles(b)
    requires forall i, j :: 0 <= i < |a| && 0 <= j < |b| ==> a[i].title != b[j].title
    ensures DistinctTitles(a + b)
  {
  }

  /** The entry is highlighted when its url is the current section. */
  predicate IsActive(currentSection: string, url: string) {
    currentSection == url
  }

  /** The section the sidebar compares against; it defaults to the dashboard. */
  function CurrentSection(given: Option<string>): (s: string)
    ensures given.None? ==> s == "dashboard"
    ensures given.Some? ==> s == given.value
  {
    match given
    case None => "dashboard"
    case Some(s) => s
  }

  /** With no section given, the Dashboard entry, and only it, is highlighted in every
      role's menu. */
  lemma DefaultHighlightsDashboard(role: Role)
    ensures forall j :: 0 <= j < |SidebarItems(role)| ==>
      (IsActive(CurrentSection(None), SidebarItems(role)[j].url) <==> j == 0)
  {
    MenuUrlsDistinct(role);
    assert SidebarItems(role)[0].url == "dashboard";
  }

  /** At most one entry of any role's menu is highlighted, and with the default section
      only the Dashboard entry is. */
  lemma AtMostOneActive(role: Role, current: string, i: int, j: int)
    requires 0 <= i < |SidebarItems(role)| && 0 <= j < |SidebarItems(role)|
    requires IsActive(current, SidebarItems(role)[i].url)
    requires IsActive(current, SidebarItems(role)[j].url)
    ensures i == j
    ensures current == "dashboard" ==> i == 0
  {
    MenuUrlsDistinct(role);
  }

  /** The group label: one fixed string per known role and "Dashboard" otherwise. */
  function PortalTitle(role: Role): (t: string)
    ensures t == "Dashboard" <==> role.Other?
  {
    match role
    case Student => "Student Portal"
    case Teacher => "Teacher Portal"
    case SchoolAdmin => "School Admin"
    case Government => "Government Portal"
    case Other(_) => "Dashboard"
  }

  lemma PortalTitleInjective(a: Role, b: Role)
    requires !a.Other? && !b.Other?
    requires PortalTitle(a) == PortalTitle(b)
    ensures a == b
  {
  }
}
