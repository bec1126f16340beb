/**
  The application shell: three pieces of state (signed in, selected role, chat panel open)
  decide whether the login form, the role selector or the dashboard with its floating
  chat panel is on screen.
 */
module Page {
  import opened Common

  /** `selectedRole` is `string | null`; `None` stands for `null`. */
  datatype PageState = PageState(authenticated: bool, role: Option<string>, chatbot: bool)

  const InitialPage: PageState := PageState(false, None, false)

  /** JavaScript truthiness of `selectedRole`: present and not the empty string. */
  predicate Truthy(role: Option<string>) {
    role.Some? && role.value != ""
  }

  datatype Screen = LoginScreen | RoleSelectorScreen | DashboardScreen(role: string)

  /** What is rendered: the login form until signed in, then the role selector while no
      role is chosen, then the dashboard for the chosen role. */
  function ScreenOf(s: PageState): (sc: Screen)
    ensures sc == LoginScreen <==> !s.authenticated
    ensures sc == RoleSelectorScreen <==> s.authenticated && !Truthy(s.role)
    ensures sc.DashboardScreen? <==> s.authenticated && Truthy(s.role)
    ensures sc.DashboardScreen? ==> s.role == Some(sc.role) && sc.role != ""
  {
    if !s.authenticated then LoginScreen
    else if !Truthy(s.role) then RoleSelectorScreen
    else DashboardScreen(s.role.value)
  }

  /** The chat panel is drawn only inside the dashboard, and only while open. */
  function ChatPanelShown(s: PageState): (shown: bool)
    ensures shown ==> s.authenticated && Truthy(s.role)
    ensures shown <==> ScreenOf(s).DashboardScreen? && s.chatbot
  {
    s.authenticated && Truthy(s.role) && s.chatbot
  }

  /** The handlers; the credentials a login carries are not checked. */
  datatype PageEvent =
    | Login(role: string, email: string, password: string)
    | Logout
    | BackToRoles
    | SelectRole(role: string)
    | ToggleChatbot

  /** The state change each handler makes. */
  function Apply(s: PageState, e: PageEvent): PageState {
    match e
    case Login(r, _, _) => s.(authenticated := true, role := Some(r))
    case Logout => PageState(false, None, false)
    case BackToRoles => s.(role := None, chatbot := false)
    case SelectRole(r) => s.(role := Some(r))
    case ToggleChatbot => s.(chatbot := !s.chatbot)
  }

  /** Which handlers the current screen wires to a control: the login form signs in, the
      role selector picks a role, and the dashboard offers sign-out (its back button) and
      the chat toggle. The back-to-roles handler is passed to no screen. */
  predicate Enabled(s: PageState, e: PageEvent) {
    match ScreenOf(s)
    case LoginScreen => e.Login?
    case RoleSelectorScreen => e.SelectRole?
    case DashboardScreen(_) => e.Logout? || e.ToggleChatbot?
  }

  /** An event the current screen offers no control for changes nothing. */
  function Step(s: PageState, e: PageEvent): (s': PageState)
    ensures !Enabled(s, e) ==> s' == s
    ensures e.Logout? && Enabled(s, e) ==> s' == InitialPage
  {
    if Enabled(s, e) then Apply(s, e) else s
  }

  function Run(s: PageState, events: seq<PageEvent>): PageState
    decreases |events|
  {
    if events == [] then s else Run(Step(s, events[0]), events[1..])
  }

  /** Signing in lands on the dashboard of the chosen role, or on the role selector when
      the role is empty, and never depends on the email or password given. */
  lemma LoginOutcome(s: PageState, role: string, email: string, password: string)
    requires ScreenOf(s) == LoginScreen
    ensures Step(s, Login(role, email, password)) == Step(s, Login(role, "", ""))
    ensures ScreenOf(Step(s, Login(role, email, password)))
         == if role == "" then RoleSelectorScreen else DashboardScreen(role)
  {
  }

  /** Picking a role changes only the role; from the role selector a non-empty choice
      opens that role's dashboard. */
  lemma SelectRoleOutcome(s: PageState, role: string)
    ensures Apply(s, SelectRole(role)).role == Some(role)
    ensures Apply(s, SelectRole(role)).authenticated == s.authenticated
    ensures Apply(s, SelectRole(role)).chatbot == s.chatbot
    ensures ScreenOf(s) == RoleSelectorScreen && role != "" ==>
      ScreenOf(Step(s, SelectRole(role))) == DashboardScreen(role)
  {
  }

  /** Signing out from anywhere returns to the initial state. */
  lemma LogoutResets(s: PageState)
    ensures Apply(s, Logout) == InitialPage
    ensures ScreenOf(Apply(s, Logout)) == LoginScreen
  {
  }

  /** Toggling the chat panel twice changes nothing. */
  lemma ToggleTwice(s: PageState)
    ensures Apply(Apply(s, ToggleChatbot), ToggleChatbot) == s
    ensures ScreenOf(Apply(s, ToggleChatbot)) == ScreenOf(s)
  {
  }

  /** What every reachable state satisfies: the panel is open only on the dashboard, and a
      role is held only after signing in. */
  predicate PageInvariant(s: PageState) {
    && (s.chatbot ==> ScreenOf(s).DashboardScreen?)
    && (s.role.Some? ==> s.authenticated)
  }

  lemma StepKeepsInvariant(s: PageState, e: PageEvent)
    requires PageInvariant(s)
    ensures PageInvariant(Step(s, e))
  {
  }

  lemma {:induction false} RunKeepsInvariant(s: PageState, events: seq<PageEvent>)
    requires PageInvariant(s)
    ensures PageInvariant(Run(s, events))
    decreases |events|
  {
    if events != [] {
      StepKeepsInvariant(s, events[0]);
      RunKeepsInvariant(Step(s, events[0]), events[1..]);
    }
  }

  /** In every reachable state the panel is shown exactly when it is open. */
  lemma ReachablePanel(events: seq<PageEvent>)
    ensures PageInvariant(Run(InitialPage, events))
    ensures ChatPanelShown(Run(InitialPage, events)) == Run(InitialPage, events).chatbot
  {
    RunKeepsInvariant(InitialPage, events);
  }

  /** The unwired back-to-roles handler would also keep the invariant, and would show the
      role selector to a signed-in user. */
  lemma BackToRolesKeepsInvariant(s: PageState)
    requires PageInvariant(s)
    ensures PageInvariant(Apply(s, BackToRoles))
    ensures ScreenOf(Apply(s, BackToRoles)) == if s.authenticated then RoleSelectorScreen else LoginScreen
  {
  }

  /** The toggle is safe only because the login screen offers no chat button: applied to
      the initial state it would leave the panel open with no dashboard on screen. */
  lemma UnguardedToggleBreaksInvariant()
    ensures PageInvariant(InitialPage)
    ensures !PageInvariant(Apply(InitialPage, ToggleChatbot))
    ensures Step(InitialPage, ToggleChatbot) == InitialPage
  {
  }
}
