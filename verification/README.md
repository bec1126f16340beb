# EduTrack AI dashboard — decision logic in Dafny

EduTrack AI is a mock school-attendance dashboard with no backend. The components decide
every outcome locally from fixed tables and a few pieces of state. This project restates
that logic as immutable datatypes and pure functions and proves its properties. The
logic covered is:

- **Roles** (`roles.dfy`). `AppSidebar`, `AttendanceDashboard`, `SyllabusTracking` and
  `AttendanceChart` receive the role as a string. The chatbot, today's-work panel and
  schemes page take no role. `Role` keeps the four known roles and wraps any other string
  in `Other`, so the components' fallbacks for unknown roles stay visible.
  - `ParseRole`/`RoleId` round-trip on canonical roles. These are the only values
    `ParseRole` produces, so for them comparing strings and comparing `Role` values decide
    the same thing.
  - A hand-built value such as `Other("teacher")` is not canonical and stands for no
    role string.
- **Text** (`text.dfy`). This covers `toLowerCase`, `includes` and `trim`.
  - `Contains` is stated as "occurs at some offset". A left-to-right `Scan` is proved
    equivalent to it.
  - `Trim` strips ECMAScript white space and line terminators.
- **Sidebar** (`sidebar.dfy`). This covers the menu builder, the active-entry rule, the
  default section and the group label.
- **Dashboard** (`dashboard.dfy`).
  - The section router is total: every role and section string yields a view, and
    anything unhandled yields the dashboard home.
  - Also modelled: the navigation state, the header title, the welcome line and the
    quick-action buttons.
- **Syllabus** (`syllabus.dfy`). This covers the progress colour bands, the per-role
  dispatch, the support alert and the consistency of the literal tables.
- **Chatbot** (`chatbot.dfy`).
  - Replies come from an ordered, first-match list of case-insensitive keyword rules with a
    catch-all.
  - The conversation is append-only. Each reply arrives as a separate `Answer` event for
    the oldest query still waiting.
  - In every reachable conversation the k-th bot answer is the reply to the k-th user
    message and comes after it. The replies still due are exactly those for the
    unanswered messages.
- **Page** (`page.dfy`). This is the sign-in / role / chat-panel state machine of the
  application shell, driven by the events each screen offers.
- **Login** (`login.dfy`). This covers the sign-in form: demo credentials, the submit and
  loading flow, and the delayed hand-over to the page, which is a separate `Finish` event.
- **Schemes** (`schemes.dfy`). This covers the status colour and icon tables, the
  Apply/Enroll buttons, and the count badges checked against the lists.
- **Today's work** (`todays_work.dfy`). This covers the status badge variant, the caption
  (only the first hyphen becomes a space) and the per-card display rules.
- **Attendance chart** (`attendance_chart.dfy`).
  - Covered: the best-day maximum, bar widths proportional to it, the 90 % badge rule, the
    heading and the consistency of the literal rows.
  - Percentages are integer tenths. Pixel heights are integer hundredths.

Timers are modelled as discrete events. Clock readings, locale formatting and rendering
are not modelled.

## Model

| member | source | states |
|---|---|---|
| Roles.ParseRole | src/components/LoginForm.tsx:180-203 | any role string reads back unchanged; it is `Other` exactly when it is not one of the four ids the selectors offer |
| Roles.ParseRoleId | src/components/LoginForm.tsx:180-203 | reading a role's id gives back the same role |
| Roles.RoleIdInjective | src/components/LoginForm.tsx:180-203 | distinct roles have distinct ids |
| Text.LowerChar | src/components/ChatbotInterface.tsx:78 | upper-case ASCII letters move to lower case, every other character is kept, and no upper-case letter remains |
| Text.Lower | src/components/ChatbotInterface.tsx:78 | lower-casing keeps the length and lower-cases each character in place |
| Text.LowerIdempotent | src/components/ChatbotInterface.tsx:78 | lower-casing twice equals lower-casing once |
| Text.ScanIff | src/components/ChatbotInterface.tsx:80-88 | a window-by-window scan finds a pattern exactly when it occurs at some offset |
| Text.TrimStart | src/components/ChatbotInterface.tsx:52 | the result is a suffix with no leading white space, and only white space was dropped |
| Text.TrimEnd | src/components/ChatbotInterface.tsx:52 | the result is a prefix with no trailing white space, and only white space was dropped |
| Text.TrimEmptyIffBlank | src/components/ChatbotInterface.tsx:52 | the trimmed input is empty exactly when every character is white space |
| Sidebar.SidebarItems | src/components/AppSidebar.tsx:39-76 | the menu is the four common entries in order, followed by the role's own entries |
| Sidebar.MenuShape | src/components/AppSidebar.tsx:47-75 | the menu has 7 entries for student and teacher and 8 for school admin and government; an unknown role gets exactly the common four |
| Sidebar.MenuUrlsDistinct | src/components/AppSidebar.tsx:40-70 | no two entries of any role's menu share a url |
| Sidebar.MenuTitlesDistinct | src/components/AppSidebar.tsx:106-107 | no two entries of any role's menu share a title, so the titles work as list keys |
| Sidebar.DefaultHighlightsDashboard | src/components/AppSidebar.tsx:78-93 | with no section given, every role's menu highlights the Dashboard entry and no other |
| Sidebar.AtMostOneActive | src/components/AppSidebar.tsx:93 | at most one entry is highlighted, and with the default section it is the Dashboard entry |
| Sidebar.PortalTitle | src/components/AppSidebar.tsx:83-91 | the group label is "Dashboard" exactly for an unknown role |
| Sidebar.PortalTitleInjective | src/components/AppSidebar.tsx:83-91 | the four known roles get four different labels |
| Syllabus.ProgressColor | src/components/SyllabusTracking.tsx:79-83 | success from 80, warning from 60 up to 80, destructive below 60, each as an if-and-only-if |
| Syllabus.ProgressColorMonotone | src/components/SyllabusTracking.tsx:79-83 | more progress never earns a worse band |
| Syllabus.Render | src/components/SyllabusTracking.tsx:85-228 | student gets the subject view, teacher the class view, and any other role renders nothing |
| Syllabus.SupportAlertMeansBehind | src/components/SyllabusTracking.tsx:202-207 | in a consistent class row the support alert shows exactly when not every student is on track, and the number it names is the students not on track |
| Syllabus.TablesWellFormed | src/components/SyllabusTracking.tsx:23-77 | every row has completed ≤ chapters and a percentage equal to the rounded chapter ratio; on-track plus behind equals the class size; both classes show the support alert; the overall figure is the rounded mean |
| Dashboard.Route | src/components/AttendanceDashboard.tsx:100-116 | "chatbot" opens the assistant for every role; "todays-work" opens only for teachers; "syllabus" for students and teachers; "progress" and "schemes" for students; every other pair yields the dashboard home |
| Dashboard.RoutedSyllabusRenders | src/components/AttendanceDashboard.tsx:104-106 | the syllabus component's empty branch is never reached through the router |
| Dashboard.InitialNav | src/components/AttendanceDashboard.tsx:76 | the dashboard opens on section "dashboard", which routes to the home view |
| Dashboard.Navigate | src/components/AttendanceDashboard.tsx:96-98 | navigation sets the section to exactly the given string and keeps the role |
| Dashboard.NavigateIdempotent | src/components/AttendanceDashboard.tsx:96-98 | navigating to a section twice is the same as navigating once |
| Dashboard.SidebarClick | src/components/AppSidebar.tsx:113 | a click on an entry navigates to its url, keeps the role, and makes that entry the only highlighted one |
| Dashboard.SidebarReachesEveryView | src/components/AttendanceDashboard.tsx:100-116 | every dedicated view of a role has an entry in that role's sidebar |
| Dashboard.RoleTitle | src/components/AttendanceDashboard.tsx:78-86 | the header title is "Dashboard" exactly for an unknown role, and every known role's title ends in " Dashboard" |
| Dashboard.TitleDiffersFromSidebar | src/components/AttendanceDashboard.tsx:78-86 | the header title equals the sidebar's group label only for an unknown role |
| Dashboard.RoleTitleInjective | src/components/AttendanceDashboard.tsx:78-86 | the four known roles get four different titles |
| Dashboard.WelcomeMessage | src/components/AttendanceDashboard.tsx:41-94 | "Welcome" exactly for an unknown role, "Welcome back, " and a name for each known role, and never "System Overview" |
| Dashboard.Press | src/components/AttendanceDashboard.tsx:305-381 | a button with a handler navigates to its target; one without does nothing |
| Dashboard.QuickActionOutcomes | src/components/AttendanceDashboard.tsx:305-381 | every student button opens a dedicated view; a teacher button lands on the home view exactly for "Reports"; admin and government buttons never move the dashboard |
| Chatbot.BotReply | src/components/ChatbotInterface.tsx:77-93 | the scholarship reply exactly when "scholarship" occurs; attendance when "attendance" occurs but not "scholarship"; schemes when "scheme" or "government" occurs but neither earlier keyword; the catch-all otherwise |
| Chatbot.CaseInsensitive | src/components/ChatbotInterface.tsx:78 | a query and its lower-cased form get the same answer |
| Chatbot.FirstMatchSpec | src/components/ChatbotInterface.tsx:80-92 | first-match evaluation returns the reply of the first rule that fires, or the fallback exactly when none fires |
| Chatbot.BotReplyIsFirstMatch | src/components/ChatbotInterface.tsx:77-93 | the reply chain equals first-match evaluation of the three keyword rules with the catch-all as fallback |
| Chatbot.QuickQueryReplies | src/components/ChatbotInterface.tsx:44-49 | the four quick queries get the scholarship, schemes, catch-all and attendance replies respectively |
| Chatbot.UnrelatedTextFallback | src/components/ChatbotInterface.tsx:92 | a query with none of the keywords gets the catch-all reply |
| Chatbot.SendMessage | src/components/ChatbotInterface.tsx:51-75 | a blank input changes nothing; otherwise the untrimmed input is appended as a user message, its reply is scheduled and the input is cleared |
| Chatbot.DeliverReply | src/components/ChatbotInterface.tsx:64-72 | the reply to the oldest waiting query is appended as a bot message showing that query's answer |
| Chatbot.ChooseQuickQuery | src/components/ChatbotInterface.tsx:95-97 | a quick query only fills the input box |
| Chatbot.AppendOnly | src/components/ChatbotInterface.tsx:61-71 | whatever happens, earlier messages stay in place and in order |
| Chatbot.StepKeepsInvariant | src/components/ChatbotInterface.tsx:51-97 | every event keeps the conversation invariant: the greeting comes first, the k-th bot answer is the reply to the k-th user message and comes after it, the replies still due are for the unanswered messages in order, and no user message is blank |
| Chatbot.SendKeepsInvariant | src/components/ChatbotInterface.tsx:51-75 | sending keeps the conversation invariant |
| Chatbot.AppendQueryKeepsInvariant | src/components/ChatbotInterface.tsx:54-61 | appending a non-blank user message and scheduling its reply keeps the conversation invariant |
| Chatbot.AnswerKeepsInvariant | src/components/ChatbotInterface.tsx:64-72 | a delivered reply keeps the conversation invariant |
| Chatbot.RunKeepsInvariant | src/components/ChatbotInterface.tsx:51-97 | any sequence of events keeps the conversation invariant |
| Chatbot.ReachableChatInvariant | src/components/ChatbotInterface.tsx:26-97 | in every conversation reachable from the greeting, the k-th bot answer is the reply to the k-th user message, and the replies still due are for the unanswered messages, oldest first |
| Page.ScreenOf | src/pages/Index.tsx:35-48 | the login form while signed out, the role selector while signed in without a role, and otherwise the dashboard for the held role |
| Page.ChatPanelShown | src/pages/Index.tsx:52-56 | the chat panel is drawn exactly when the dashboard is on screen and the panel is open |
| Page.Step | src/pages/Index.tsx:37-62 | an event the current screen offers no control for changes nothing; sign-out from the dashboard restores the initial state |
| Page.LoginOutcome | src/pages/Index.tsx:14-18 | sign-in ignores the credentials and opens the dashboard of the given role |
| Page.SelectRoleOutcome | src/pages/Index.tsx:26-28 | picking a role changes only the role and opens that role's dashboard |
| Page.LogoutResets | src/pages/Index.tsx:20-24 | sign-out from any state restores the initial state and the login screen |
| Page.ToggleTwice | src/pages/Index.tsx:62 | toggling the chat panel twice changes nothing, and the toggle never changes the screen |
| Page.StepKeepsInvariant | src/pages/Index.tsx:36-65 | every offered event keeps the page invariant: the panel is open only on the dashboard, and a role is held only after sign-in |
| Page.RunKeepsInvariant | src/pages/Index.tsx:36-65 | any event sequence keeps the page invariant |
| Page.ReachablePanel | src/pages/Index.tsx:10-65 | in every reachable state the panel is shown exactly when it is open, which implies signed in with a role |
| Page.BackToRolesKeepsInvariant | src/pages/Index.tsx:30-33 | back-to-roles keeps the invariant, keeps the session and shows the role selector to a signed-in user |
| Page.UnguardedToggleBreaksInvariant | src/pages/Index.tsx:58-63 | the toggle exists only on the dashboard: applied to the initial state it would break the invariant, and there the step ignores it |
| Login.DemoCredentials | src/components/LoginForm.tsx:70-78 | sample credentials exist exactly for the four known roles, always with password "demo123" |
| Login.DemoEmailsDistinct | src/components/LoginForm.tsx:71-76 | each known role has its own demo email |
| Login.FillDemo | src/components/LoginForm.tsx:80-84 | the demo button succeeds exactly for a known role and then sets only email and password, to the role's pair |
| Login.EyeButtonFlips | src/components/LoginForm.tsx:156-175 | the eye button switches the password field between hidden and plain text, changes nothing else, and two presses restore the form |
| Login.CaptionShowsDisabled | src/components/LoginForm.tsx:207-214 | while the button reads "Signing in..." a submit changes nothing; with both fields filled it reads "Sign In" exactly when a submit takes effect |
| Login.Submit | src/components/LoginForm.tsx:59-62 | a permitted submit starts loading and captures the role and credentials as typed, changing nothing else; a disabled submit changes nothing |
| Login.Complete | src/components/LoginForm.tsx:64-67 | the delayed hand-over passes on exactly what the submit captured and stops loading |
| Login.StepKeepsInvariant | src/components/LoginForm.tsx:53-84 | every form event keeps the invariant: the role is known, a hand-over is waiting exactly while loading, and it carries a known role |
| Login.RunKeepsInvariant | src/components/LoginForm.tsx:53-84 | any event sequence keeps the form invariant |
| Login.ReachableForm | src/components/LoginForm.tsx:180-203 | in every reachable form the demo button succeeds |
| Login.DemoThenSubmit | src/components/LoginForm.tsx:59-84 | demo fill followed by submit hands over the selected role's sample credentials |
| Login.HandOverOpensDashboard | src/components/LoginForm.tsx:64-67 | every hand-over from a reachable form opens the submitted role's dashboard on the page |
| Schemes.StatusTone | src/components/SchemesScholarpships.tsx:75-83 | grey exactly for unknown statuses, blue exactly for eligible, green exactly for enrolled |
| Schemes.StatusToneInjective | src/components/SchemesScholarpships.tsx:75-83 | the four known statuses get four different colours |
| Schemes.StatusIcon | src/components/SchemesScholarpships.tsx:85-93 | the document icon exactly for unknown statuses, the clock exactly for applied or pending, and one icon each for eligible and enrolled |
| Schemes.IconSharedOnlyByAppliedAndPending | src/components/SchemesScholarpships.tsx:75-93 | two different known statuses share an icon exactly when they are applied and pending, and their colours always differ |
| Schemes.OffersAction | src/components/SchemesScholarpships.tsx:189-191 | "Apply Now" appears exactly for eligible offers, which are the blue ones; "Enroll Now" (lines 241-245) uses the same test |
| Schemes.CountStatus | src/components/SchemesScholarpships.tsx:212-214 | the count is at most the list length and is zero exactly when the status is absent |
| Schemes.CountIsPositions | src/components/SchemesScholarpships.tsx:212-214 | the count equals the number of positions holding the status |
| Schemes.BadgesMatchLists | src/components/SchemesScholarpships.tsx:15-73 | "3 Active" is the number of scholarships, "2 Enrolled" the number of enrolled schemes, and exactly one offer of each kind shows its button |
| Schemes.ListedStatusesKnown | src/components/SchemesScholarpships.tsx:15-73 | every listed offer has a status the badge styles know |
| TodaysWork.StatusVariant | src/components/TodaysWorkPanel.tsx:49-56 | success exactly for completed, warning exactly for in-progress, secondary for everything else |
| TodaysWork.FirstIndex | src/components/TodaysWorkPanel.tsx:91 | absent exactly when the character does not occur; otherwise the position of its first occurrence |
| TodaysWork.ReplaceFirst | src/components/TodaysWorkPanel.tsx:91 | the length is kept; only the first occurrence changes, to the replacement; a string without the character is unchanged |
| TodaysWork.ReplaceFirstRemovesOne | src/components/TodaysWorkPanel.tsx:91 | exactly one occurrence of the character turns into the replacement |
| TodaysWork.StatusCaptions | src/components/TodaysWorkPanel.tsx:91 | "in-progress" reads "in progress"; "completed" and "upcoming" are unchanged |
| TodaysWork.ShowsNotes | src/components/TodaysWorkPanel.tsx:117-127 | the notes row appears exactly for the in-progress lesson |
| TodaysWork.ShowsBanner | src/components/TodaysWorkPanel.tsx:129-135 | the completion banner appears exactly for completed lessons |
| TodaysWork.NotesAndBannerExclusive | src/components/TodaysWorkPanel.tsx:117-135 | no card shows both the notes row and the banner |
| TodaysWork.LessonCards | src/components/TodaysWorkPanel.tsx:22-135 | over the literal lessons: only the completed one shows the banner, whose fixed "28" matches its attendance; every lesson but the upcoming one shows an attendance line; only the running lesson has notes |
| AttendanceChart.HeadingOfRole | src/components/AttendanceChart.tsx:36 | the heading reads "District Analytics" exactly when the role string parses to the government role, and it depends on the role only through its parse |
| AttendanceChart.MaxPresent | src/components/AttendanceChart.tsx:29 | the result is at least every day's count and equals some day's count |
| AttendanceChart.BarWidth | src/components/AttendanceChart.tsx:58 | the width is between 0 and 100 percent, is 100 exactly for the best day, and is the floor of the proportion |
| AttendanceChart.BarWidthMonotone | src/components/AttendanceChart.tsx:58 | a larger count never gets a shorter bar |
| AttendanceChart.Highlighted | src/components/AttendanceChart.tsx:67-69 | a day's badge is highlighted exactly when its percentage, read as a decimal, is at least 90 |
| AttendanceChart.MonthBarHeight | src/components/AttendanceChart.tsx:88 | the bar is the percentage of an 80px column and never taller than 80px |
| AttendanceChart.WeeklyConsistent | src/components/AttendanceChart.tsx:7-14 | every day accounts for all 156 students, and each percentage is the day's count over 156, rounded to one decimal |
| AttendanceChart.BestDayIsFriday | src/components/AttendanceChart.tsx:100-107 | the "Best Day" Friday at 95.5 percent has the highest count and percentage, and has the only full bar |
| AttendanceChart.WeeklyBadges | src/components/AttendanceChart.tsx:30-40 | only Saturday's badge is plain, and the mean of the daily percentages rounds to 92.4 |
| AttendanceChart.MonthlyBarsFit | src/components/AttendanceChart.tsx:83-89 | every monthly bar fits its 80px column |

## Left out

- Rendering is not modelled: JSX layout, CSS classes (kept only as enum tags such as `Tone` and `Variant`), icons and UI primitives.
- The delays become discrete events instead of time:
  - the chat reply is `Answer`
  - the sign-in hand-over is `Finish`
- Message ids, timestamps and the date badge are not modelled. They come from the clock and the locale.
- Messages keep what was said rather than the text. A user message holds the typed text. A bot message holds the greeting or a `Reply` tag, and `Content` maps that to the verbatim text.
- Floating-point averages and `toFixed` are not modelled. Percentages are integer tenths, and `WeeklyBadges` states the rounding of the exact mean.
- Chatbot.ChatState: models one mounted chat panel. Closing the floating panel (`src/pages/Index.tsx`) unmounts it, which discards its messages and any reply still due. The dashboard's own chat section is a separate conversation.
- The chat language selector is not modelled. It only changes the input placeholder.
- The progress view and the role selector's layout are not modelled. Both are presentational.
- The schemes page's four stat cards ("12", "3", "2", "₹75K") are not modelled. They are fixed numbers that the lists do not determine.
- Text.Lower, Text.LowerChar: lower-case ASCII letters only. `toLowerCase` also folds non-ASCII letters, which no keyword or quick query contains.
- Roles.ParseRole: a role string that names an inherited object property (such as "constructor") would make the source's table lookups return something other than `undefined`. The model treats every unknown string alike.
- Login.Submit: models the `required` attribute as "email and password non-empty". The browser's email-format check for `type="email"` is not modelled.
- Login.FillDemo: for an unknown role the source throws when it reads the missing entry. The model returns `None` instead. No reachable form has an unknown role.
- AttendanceChart.MaxPresent: requires a non-empty week. `Math.max` of nothing is `-Infinity`, which is not a count.
- AttendanceChart.BarWidth: gives the width in whole percent (the floor) where the source keeps the fraction. It requires a positive maximum, because dividing by zero would give `NaN`.
- The dashboard's "Switch Role" button calls the sign-out handler. `BackToRoles` is defined but is passed to no screen. `Page.Enabled` therefore offers it nowhere, and `Page.BackToRolesKeepsInvariant` states what it would do.
