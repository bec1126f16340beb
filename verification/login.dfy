/**
  The sign-in form: email, password, a show-password switch, a role picker offering the
  four known roles, a demo button that fills in the role's sample credentials, and a
  submit that hands the captured role and credentials to the page after a delay. The
  delay is a separate `Finish` event.
 */
module Login {
  import opened Common
  import opened Roles
  import Page

  datatype Credentials = Credentials(email: string, password: string)

  /** What `onLogin` receives: the role and the credentials as they were at submit time. */
  datatype LoginRequest = LoginRequest(role: string, credentials: Credentials)

  datatype FormState = FormState(
    role: string,
    email: string,
    password: string,
    showPassword: bool,
    loading: bool,
    pending: Option<LoginRequest>)

  const InitialForm: FormState := FormState("student", "", "", false, false, None)

  const DemoPassword: string := "demo123"

  /** The sample credentials of each known role; an unknown role has none (the lookup
      yields `undefined`). */
  function DemoCredentials(role: string): (c: Option<Credentials>)
    ensures c.Some? <==> IsKnownId(role)
    ensures c.Some? ==> c.value.password == DemoPassword && c.value.email != ""
  {
    if role == "student" then Some(Credentials("student@edutrack.demo", DemoPassword))
    else if role == "teacher" then Some(Credentials("teacher@edutrack.demo", DemoPassword))
    else if role == "school-admin" then Some(Credentials("admin@edutrack.demo", DemoPassword))
    else if role == "government" then Some(Credentials("gov@edutrack.demo", DemoPassword))
    else None
  }

  /** Each known role has its own demo email. */
  lemma DemoEmailsDistinct(a: string, b: string)
    requires IsKnownId(a) && IsKnownId(b) && a != b
    ensures DemoCredentials(a).value.email != DemoCredentials(b).value.email
  {
    assert DemoCredentials("student").value.email[0] == 's';
    assert DemoCredentials("teacher").value.email[0] == 't';
    assert DemoCredentials("school-admin").value.email[0] == 'a';
    assert DemoCredentials("government").value.email[0] == 'g';
  }

  /** The demo button copies the selected role's sample credentials into the form. For a
      role without sample credentials reading them fails, which is `None` here. */
  function FillDemo(f: FormState): (r: Option<FormState>)
    ensures r.Some? <==> IsKnownId(f.role)
    ensures r.Some? ==> DemoCredentials(f.role) == Some(Credentials(r.value.email, r.value.password))
    ensures r.Some? ==> r.value.(email := f.email, password := f.password) == f
  {
    match DemoCredentials(f.role)
    case None => None
    case Some(c) => Some(f.(email := c.email, password := c.password))
  }

  /** The password field's `type`: plain text exactly while the password is shown. */
  function PasswordInputType(f: FormState): (t: string)
    ensures t == "text" <==> f.showPassword
    ensures t == "text" || t == "password"
  {
    if f.showPassword then "text" else "password"
  }

  /** The submit button's caption. */
  function SubmitCaption(f: FormState): (t: string)
    ensures t == "Signing in..." <==> f.loading
    ensures t == "Signing in..." || t == "Sign In"
  {
    if f.loading then "Signing in..." else "Sign In"
  }

  /** The eye button flips the password field between hidden and plain text, and changes
      nothing else; pressing it twice restores the form. */
  lemma EyeButtonFlips(f: FormState)
    ensures PasswordInputType(FormStep(f, ToggleShowPassword)) != PasswordInputType(f)
    ensures FormStep(f, ToggleShowPassword).(showPassword := f.showPassword) == f
    ensures FormStep(FormStep(f, ToggleShowPassword), ToggleShowPassword) == f
  {
  }

  /** With both fields filled in, the button reads "Sign In" exactly when pressing it
      does something; while it reads "Signing in..." a submit changes nothing. */
  lemma CaptionShowsDisabled(f: FormState)
    ensures SubmitCaption(f) == "Signing in..." ==> FormStep(f, SubmitForm) == f
    ensures f.email != "" && f.password != "" ==>
      (SubmitCaption(f) == "Sign In" <==> FormStep(f, SubmitForm) != f)
  {
  }

  /** The submit button is disabled while loading, and both fields are `required`. */
  predicate CanSubmit(f: FormState) {
    !f.loading && f.email != "" && f.password != ""
  }

  /** Submitting starts loading and captures the role and credentials for the delayed
      hand-over; a submit the form does not allow changes nothing. */
  function Submit(f: FormState): (f': FormState)
    ensures !CanSubmit(f) ==> f' == f
    ensures CanSubmit(f) ==>
      && f'.loading
      && f'.pending == Some(LoginRequest(f.role, Credentials(f.email, f.password)))
      && f'.(loading := false, pending := f.pending) == f
  {
    if CanSubmit(f) then
      f.(loading := true, pending := Some(LoginRequest(f.role, Credentials(f.email, f.password))))
    else f
  }

  /** The delayed hand-over: passes on what `Submit` captured and stops loading. */
  function Complete(f: FormState): (r: (FormState, Option<LoginRequest>))
    ensures r.1 == f.pending
    ensures !r.0.loading && r.0.pending.None?
    ensures r.0.(loading := f.loading, pending := f.pending) == f
  {
    (f.(loading := false, pending := None), f.pending)
  }

  datatype FormEvent =
    | EditEmail(email: string)
    | EditPassword(password: string)
    | ToggleShowPassword
    | ChooseRole(choice: Role)
    | UseDemo
    | SubmitForm
    | Finish

  /** One event. The picker offers only the four known roles, and the hand-over happens
      only after a submit; other events of those kinds change nothing. */
  function FormStep(f: FormState, e: FormEvent): FormState {
    match e
    case EditEmail(s) => f.(email := s)
    case EditPassword(s) => f.(password := s)
    case ToggleShowPassword => f.(showPassword := !f.showPassword)
    case ChooseRole(r) => if r.Other? then f else f.(role := RoleId(r))
    case UseDemo => (match FillDemo(f) case Some(g) => g case None => f)
    case SubmitForm => Submit(f)
    case Finish => if f.pending.Some? then Complete(f).0 else f
  }

  function FormRun(f: FormState, events: seq<FormEvent>): FormState
    decreases |events|
  {
    if events == [] then f else FormRun(FormStep(f, events[0]), events[1..])
  }

  /** What every reachable form satisfies: the selected role is known, a hand-over is
      waiting exactly while loading, and what it carries is a known role with non-empty
      credentials. */
  predicate FormInvariant(f: FormState) {
    && IsKnownId(f.role)
    && (f.loading <==> f.pending.Some?)
    && (f.pending.Some? ==>
          && IsKnownId(f.pending.value.role)
          && f.pending.value.credentials.email != ""
          && f.pending.value.credentials.password != "")
  }

  lemma StepKeepsInvariant(f: FormState, e: FormEvent)
    requires FormInvariant(f)
    ensures FormInvariant(FormStep(f, e))
  {
  }

  lemma {:induction false} RunKeepsInvariant(f: FormState, events: seq<FormEvent>)
    requires FormInvariant(f)
    ensures FormInvariant(FormRun(f, events))
    decreases |events|
  {
    if events != [] {
      StepKeepsInvariant(f, events[0]);
      RunKeepsInvariant(FormStep(f, events[0]), events[1..]);
    }
  }

  /** In every reachable form the demo button succeeds, and a waiting hand-over carries a
      known role. */
  lemma ReachableForm(events: seq<FormEvent>)
    ensures FormInvariant(FormRun(InitialForm, events))
    ensures FillDemo(FormRun(InitialForm, events)).Some?
  {
    RunKeepsInvariant(InitialForm, events);
  }

  /** Filling in the demo credentials and submitting hands over the role's sample
      credentials. */
  lemma DemoThenSubmit(f: FormState)
    requires FormInvariant(f) && !f.loading
    ensures Submit(FillDemo(f).value).pending
         == Some(LoginRequest(f.role, DemoCredentials(f.role).value))
  {
  }

  /** Every hand-over the form makes from a reachable state opens the dashboard of the
      submitted role on the page. */
  lemma HandOverOpensDashboard(events: seq<FormEvent>, page: Page.PageState)
    requires Page.ScreenOf(page) == Page.LoginScreen
    ensures
      var f := FormRun(InitialForm, events);
      var req := Complete(f).1;
      req.Some? ==>
        Page.ScreenOf(Page.Step(page, Page.Login(req.value.role, req.value.credentials.email,
                                                 req.value.credentials.password)))
        == Page.DashboardScreen(req.value.role)
  {
    RunKeepsInvariant(InitialForm, events);
  }
}
