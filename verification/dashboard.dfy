/**
  The role dashboard: the section it shows, how a section is routed to a view for the
  current role, the header title and welcome line, and the quick-action buttons.
 */
module Dashboard {
  import opened Common
  import opened Roles
  import Sidebar
  import Syllabus

  /** The main panel; the two tracking views receive the role string. */
  datatype View =
    | DashboardHome
    | TodaysWorkPanel
    | SyllabusTracking(role: string)
    | ProgressTracking(role: string)
    | SchemesScholarships
    | ChatbotInterface

  /** The sections that each role has a dedicated view for; the assistant is open to all. */
  function AllowedSections(role: Role): set<string> {
    match role
    case Student => {"chatbot", "syllabus", "progress", "schemes"}
    case Teacher => {"chatbot", "todays-work", "syllabus"}
    case _ => {"chatbot"}
  }

  /** Chooses the main panel. Every (role, section) pair yields a view, and the pairs
      outside the role's allow-list all yield the dashboard home. */
  function Route(role: Role, section: string): (v: View)
    ensures v == ChatbotInterface <==> section == "chatbot"
    ensures v == TodaysWorkPanel <==> section == "todays-work" && role == Teacher
    ensures v.SyllabusTracking? <==> section == "syllabus" && (role == Student || role == Teacher)
    ensures v.SyllabusTracking? ==> v.role == RoleId(role)
    ensures v.ProgressTracking? <==> section == "progress" && role == Student
    ensures v.ProgressTracking? ==> v.role == RoleId(role)
    ensures v == SchemesScholarships <==> section == "schemes" && role == Student
    ensures v == DashboardHome <==> section !in AllowedSections(role)
  {
    match section
    case "todays-work" => if role == Teacher then TodaysWorkPanel else DashboardHome
    case "syllabus" =>
      if role == Student || role == Teacher then SyllabusTracking(RoleId(role)) else DashboardHome
    case "progress" => if role == Student then ProgressTracking(RoleId(role)) else DashboardHome
    case "schemes" => if role == Student then SchemesScholarships else DashboardHome
    case "chatbot" => ChatbotInterface
    case _ => DashboardHome
  }

  /** The syllabus component's empty branch is never reached through the router. */
  lemma RoutedSyllabusRenders(role: Role, section: string)
    requires Route(role, section).SyllabusTracking?
    ensures Syllabus.Render(Route(role, section).role) != Syllabus.NothingRendered
  {
  }

  /** The dashboard's navigation state: the role it was opened with and the section. */
  datatype NavState = NavState(role: Role, section: string)

  function InitialNav(role: Role): (n: NavState)
    ensures n.role == role && n.section == "dashboard"
    ensures Route(role, n.section) == DashboardHome
  {
    NavState(role, "dashboard")
  }

  /** Any string becomes the section, unvalidated; the role never changes. */
  function Navigate(n: NavState, section: string): (n': NavState)
    ensures n'.role == n.role
    ensures n'.section == section
  {
    n.(section := section)
  }

  lemma NavigateIdempotent(n: NavState, section: string)
    ensures Navigate(Navigate(n, section), section) == Navigate(n, section)
  {
  }

  /** A sidebar click moves the dashboard to the clicked entry's section. */
  function SidebarClick(n: NavState, i: int): (n': NavState)
    requires 0 <= i < |Sidebar.SidebarItems(n.role)|
    ensures n'.role == n.role
    ensures forall j :: 0 <= j < |Sidebar.SidebarItems(n.role)| ==>
      (Sidebar.IsActive(n'.section, Sidebar.SidebarItems(n.role)[j].url) <==> j == i)
  {
    Sidebar.MenuUrlsDistinct(n.role);
    Navigate(n, Sidebar.SidebarItems(n.role)[i].url)
  }

  /** Every dedicated view of a role has an entry in that role's sidebar. */
  lemma SidebarReachesEveryView(role: Role, section: string)
    requires section in AllowedSections(role)
    ensures exists i :: 0 <= i < |Sidebar.SidebarItems(role)|
                        && Sidebar.SidebarItems(role)[i].url == section
  {
    var items := Sidebar.SidebarItems(role);
    assert items[2].url == "chatbot";
    if section != "chatbot" {
      match role
      case Student =>
        if section == "syllabus" {
          assert items[4].url == section;
        } else if section == "progress" {
          assert items[5].url == section;
        } else {
          assert items[6].url == section;
        }
      case Teacher =>
        if section == "todays-work" {
          assert items[4].url == section;
        } else {
          assert items[5].url == section;
        }
    }
  }

  /** The header title: one fixed string per known role and "Dashboard" otherwise. */
  function RoleTitle(role: Role): (t: string)
    ensures t == "Dashboard" <==> role.Other?
    ensures !role.Other? ==> |t| > 10 && t[|t| - 10..] == " Dashboard"
  {
    match role
    case Student => "Student Dashboard"
    case Teacher => "Teacher Dashboard"
    case SchoolAdmin => "School Administrator Dashboard"
    case Government => "Government Portal Dashboard"
    case Other(_) => "Dashboard"
  }

  lemma RoleTitleInjective(a: Role, b: Role)
    requires !a.Other? && !b.Other?
    requires RoleTitle(a) == RoleTitle(b)
    ensures a == b
  {
  }

  /** The header and the sidebar label agree only on the fallback for an unknown role. */
  lemma TitleDiffersFromSidebar(role: Role)
    ensures RoleTitle(role) == Sidebar.PortalTitle(role) <==> role.Other?
  {
  }

  /** A row of the mock profile table; only the display name matters here. */
  datatype Profile = Profile(name: Option<string>)

  function ProfileOf(role: Role): Option<Profile> {
    match role
    case Student => Some(Profile(Some("Alex Johnson")))
    case Teacher => Some(Profile(Some("Sarah Wilson")))
    case SchoolAdmin => Some(Profile(Some("Dr. Michael Brown")))
    case Government => Some(Profile(Some("Dr. Priya Sharma")))
    case Other(_) => None
  }

  const WelcomeBack := "Welcome back, "

  /** "Welcome" without a profile, a personal greeting with a named one; the nameless
      "System Overview" line is never produced because every profile is named. */
  function WelcomeMessage(role: Role): (w: string)
    ensures w == "Welcome" <==> role.Other?
    ensures !role.Other? ==> |w| > |WelcomeBack| && w[..|WelcomeBack|] == WelcomeBack
    ensures w != "System Overview"
  {
    match ProfileOf(role)
    case None => "Welcome"
    case Some(p) =>
      match p.name
      case Some(n) => WelcomeBack + n
      case None => "System Overview"
  }

  /** A quick-action button and the section it navigates to, if it has a handler. */
  datatype QuickAction = QuickAction(caption: string, target: Option<string>)

  function QuickActions(role: Role): seq<QuickAction> {
    match role
    case Student => [
      QuickAction("View My Syllabus", Some("syllabus")),
      QuickAction("My Progress", Some("progress")),
      QuickAction("Schemes & Scholarships", Some("schemes"))
    ]
    case Teacher => [
      QuickAction("Syllabus Tracking", Some("syllabus")),
      QuickAction("Today's Work", Some("todays-work")),
      QuickAction("Reports", Some("reports"))
    ]
    case SchoolAdmin => [
      QuickAction("Manage Staff", None),
      QuickAction("View Analytics", None),
      QuickAction("System Settings", None)
    ]
    case Government => [
      QuickAction("District Overview", None),
      QuickAction("Data Analytics", None),
      QuickAction("Policy Management", None)
    ]
    case Other(_) => []
  }

  /** Pressing a button navigates to its target; a button without a handler does nothing. */
  function Press(n: NavState, a: QuickAction): (n': NavState)
    ensures a.target.None? ==> n' == n
    ensures a.target.Some? ==> n'.section == a.target.value && n'.role == n.role
  {
    match a.target
    case Some(t) => Navigate(n, t)
    case None => n
  }

  /** The student's buttons all open a dedicated view; the teacher's open one each
      except "Reports", which lands on the dashboard home; the administrator's and the
      government official's buttons never move the dashboard. */
  lemma QuickActionOutcomes(n: NavState, i: int)
    requires 0 <= i < |QuickActions(n.role)|
    ensures n.role == Student ==> Route(n.role, Press(n, QuickActions(n.role)[i]).section) != DashboardHome
    ensures n.role == Teacher ==>
      (Route(n.role, Press(n, QuickActions(n.role)[i]).section) == DashboardHome <==> i == 2)
    ensures n.role == SchoolAdmin || n.role == Government ==> Press(n, QuickActions(n.role)[i]) == n
  {
  }
}
