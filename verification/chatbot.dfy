/**
  The scripted assistant: a first-match list of case-insensitive keyword rules with a
  catch-all reply, and the append-only conversation it keeps. The reply delay is a
  separate `Answer` event that answers the oldest query still waiting.
 */
module Chatbot {
  import opened Text

  /** The canned replies, one per keyword group plus the catch-all. */
  datatype Reply = ScholarshipInfo | AttendanceInfo | SchemesInfo | GeneralHelp

  /** The text shown for each reply. */
  function ReplyText(r: Reply): string {
    match r
    case ScholarshipInfo =>
      "Here are current scholarship opportunities:\n\n"
      + "\U{2022} National Merit Scholarship (Deadline: March 15)\n"
      + "\U{2022} State Education Grant (Monthly stipend: \U{20B9}2,000)\n"
      + "\U{2022} Minority Community Scholarship\n"
      + "\U{2022} Excellence in STEM Award\n\n"
      + "Would you like detailed information about any specific scholarship?"
    case AttendanceInfo =>
      "Your current attendance status:\n\n"
      + "\U{2022} Overall: 92% (Excellent)\n"
      + "\U{2022} This month: 95%\n"
      + "\U{2022} Days present: 23/25\n"
      + "\U{2022} Last RFID scan: Today 8:15 AM\n\n"
      + "You're maintaining excellent attendance! Keep it up!"
    case SchemesInfo =>
      "Latest Government Education Schemes:\n\n"
      + "\U{2022} Digital India Education Initiative\n"
      + "\U{2022} Skill Development Program 2024\n"
      + "\U{2022} Free Textbook Distribution\n"
      + "\U{2022} Mid-day Meal Program\n"
      + "\U{2022} Teacher Training Enhancement\n\n"
      + "These schemes are actively running in your district. Would you like application details?"
    case GeneralHelp =>
      "I understand your query. Let me provide you with relevant information from our database. "
      + "You can ask me about:\n\n"
      + "\U{2022} Government scholarships and schemes\n"
      + "\U{2022} Attendance tracking\n"
      + "\U{2022} Academic support resources\n"
      + "\U{2022} Application procedures\n\n"
      + "How can I assist you further?"
  }

  const GreetingText: string :=
    "Hello! I'm your AI assistant. I can help you with government schemes, scholarships, "
    + "and educational queries. You can ask me in English, Hindi, or other regional languages."

  /** Which reply a query gets: the keywords are looked for, in this order, in the
      lower-cased query, and the first that occurs picks the reply. */
  function BotReply(query: string): (r: Reply)
    ensures r == ScholarshipInfo <==> Contains(Lower(query), "scholarship")
    ensures r == AttendanceInfo <==>
      !Contains(Lower(query), "scholarship") && Contains(Lower(query), "attendance")
    ensures r == SchemesInfo <==>
      && !Contains(Lower(query), "scholarship") && !Contains(Lower(query), "attendance")
      && (Contains(Lower(query), "scheme") || Contains(Lower(query), "government"))
    ensures r == GeneralHelp <==>
      && !Contains(Lower(query), "scholarship") && !Contains(Lower(query), "attendance")
      && !Contains(Lower(query), "scheme") && !Contains(Lower(query), "government")
  {
    var lowerQuery := Lower(query);
    if Contains(lowerQuery, "scholarship") then ScholarshipInfo
    else if Contains(lowerQuery, "attendance") then AttendanceInfo
    else if Contains(lowerQuery, "scheme") || Contains(lowerQuery, "government") then SchemesInfo
    else GeneralHelp
  }

  /** The text the assistant answers a query with. */
  function BotResponse(query: string): string {
    ReplyText(BotReply(query))
  }

  /** Matching ignores case: a query and its lower-cased form get the same reply. */
  lemma CaseInsensitive(query: string)
    ensures BotResponse(query) == BotResponse(Lower(query))
  {
    LowerIdempotent(query);
  }

  /** A rule fires when any of its keywords occurs in the (lower-cased) query. */
  datatype Rule = Rule(keywords: seq<string>, reply: Reply)

  predicate Fires(rule: Rule, q: string) {
    exists k :: 0 <= k < |rule.keywords| && Contains(q, rule.keywords[k])
  }

  /** The assistant's rules in precedence order. */
  const Rules: seq<Rule> := [
    Rule(["scholarship"], ScholarshipInfo),
    Rule(["attendance"], AttendanceInfo),
    Rule(["scheme", "government"], SchemesInfo)
  ]

  /** The reply of the first rule that fires, or the fallback when none does. */
  function FirstMatch(rules: seq<Rule>, q: string, fallback: Reply): Reply
    decreases |rules|
  {
    if rules == [] then fallback
    else if Fires(rules[0], q) then rules[0].reply
    else FirstMatch(rules[1..], q, fallback)
  }

  /** Rule `i` is the first one that fires. */
  predicate FirstFiring(rules: seq<Rule>, q: string, i: int) {
    && 0 <= i < |rules|
    && Fires(rules[i], q)
    && forall j :: 0 <= j < i ==> !Fires(rules[j], q)
  }

  /** First-match semantics: the reply is that of the first firing rule, and the
      fallback exactly when no rule fires. */
  lemma {:induction false} FirstMatchSpec(rules: seq<Rule>, q: string, fallback: Reply)
    ensures (exists i :: FirstFiring(rules, q, i) && FirstMatch(rules, q, fallback) == rules[i].reply)
         || ((forall i :: 0 <= i < |rules| ==> !Fires(rules[i], q))
             && FirstMatch(rules, q, fallback) == fallback)
    decreases |rules|
  {
    if rules != [] {
      if Fires(rules[0], q) {
        assert FirstFiring(rules, q, 0);
      } else {
        FirstMatchSpec(rules[1..], q, fallback);
        if i :| FirstFiring(rules[1..], q, i) && FirstMatch(rules[1..], q, fallback) == rules[1..][i].reply {
          assert FirstFiring(rules, q, i + 1);
        } else {
          forall i | 0 <= i < |rules|
            ensures !Fires(rules[i], q)
          {
            if i > 0 {
              assert rules[i] == rules[1..][i - 1];
            }
          }
        }
      }
    }
  }

  /** The assistant's if-chain is the first-match evaluation of `Rules`. */
  lemma BotReplyIsFirstMatch(query: string)
    ensures BotReply(query) == FirstMatch(Rules, Lower(query), GeneralHelp)
  {
    var q := Lower(query);
    assert Fires(Rules[0], q) <==> Contains(q, "scholarship") by {
      assert Rules[0].keywords[0] == "scholarship";
    }
    assert Fires(Rules[1], q) <==> Contains(q, "attendance") by {
      assert Rules[1].keywords[0] == "attendance";
    }
    assert Fires(Rules[2], q) <==> Contains(q, "scheme") || Contains(q, "government") by {
      assert Rules[2].keywords[0] == "scheme" && Rules[2].keywords[1] == "government";
    }
    var r1 := Rules[1..];
    var r2 := r1[1..];
    assert r1[0] == Rules[1] && r2[0] == Rules[2] && r2[1..] == [];
    assert FirstMatch(r2, q, GeneralHelp) == if Fires(Rules[2], q) then SchemesInfo else GeneralHelp;
    assert FirstMatch(r1, q, GeneralHelp)
        == if Fires(Rules[1], q) then AttendanceInfo else FirstMatch(r2, q, GeneralHelp);
  }

  /** The four quick-query buttons, in their on-screen order. */
  const QuickQueries: seq<string> := [
    "Show me scholarship opportunities",
    "Government education schemes",
    "Financial aid programs",
    "My attendance summary"
  ]

  /** What each quick query is answered with once sent. */
  lemma QuickQueryReplies()
    ensures BotReply(QuickQueries[0]) == ScholarshipInfo
    ensures BotReply(QuickQueries[1]) == SchemesInfo
    ensures BotReply(QuickQueries[2]) == GeneralHelp
    ensures BotReply(QuickQueries[3]) == AttendanceInfo
  {
    ScholarshipQuery();
    SchemesQuery();
    FinancialAidQuery();
    AttendanceQuery();
  }

  lemma ScholarshipQuery()
    ensures BotReply("Show me scholarship opportunities") == ScholarshipInfo
  {
    ScholarshipQueryLower();
    ScholarshipQueryKeywords();
  }

  lemma ScholarshipQueryLower()
    ensures Lower("Show me scholarship opportunities") == "show me scholarship opportunities"
  {
  }

  lemma ScholarshipQueryKeywords()
    ensures Contains("show me scholarship opportunities", "scholarship")
  {
    assert "show me scholarship opportunities" == "show me " + "scholarship" + " opportunities";
    ContainsMiddle("show me ", "scholarship", " opportunities");
  }

  lemma SchemesQuery()
    ensures BotReply("Government education schemes") == SchemesInfo
  {
    SchemesQueryLower();
    SchemesQueryKeywords();
  }

  lemma SchemesQueryLower()
    ensures Lower("Government education schemes") == "government education schemes"
  {
  }

  lemma SchemesQueryKeywords()
    ensures !Contains("government education schemes", "scholarship")
    ensures !Contains("government education schemes", "attendance")
    ensures Contains("government education schemes", "scheme")
  {
    var q := "government education schemes";
    AbsentChar(q, "scholarship", 4);
    AbsentPair(q, "attendance", 1);
    assert q == "government education " + "scheme" + "s";
    ContainsMiddle("government education ", "scheme", "s");
  }

  lemma FinancialAidQuery()
    ensures BotReply("Financial aid programs") == GeneralHelp
  {
    FinancialAidQueryLower();
    FinancialAidQueryKeywords();
  }

  lemma FinancialAidQueryLower()
    ensures Lower("Financial aid programs") == "financial aid programs"
  {
  }

  lemma FinancialAidQueryKeywords()
    ensures !Contains("financial aid programs", "scholarship")
    ensures !Contains("financial aid programs", "attendance")
    ensures !Contains("financial aid programs", "scheme")
    ensures !Contains("financial aid programs", "government")
  {
    var q := "financial aid programs";
    AbsentChar(q, "scholarship", 2);
    AbsentChar(q, "attendance", 1);
    AbsentChar(q, "scheme", 2);
    AbsentChar(q, "government", 2);
  }

  lemma AttendanceQuery()
    ensures BotReply("My attendance summary") == AttendanceInfo
  {
    AttendanceQueryLower();
    AttendanceQueryKeywords();
  }

  lemma AttendanceQueryLower()
    ensures Lower("My attendance summary") == "my attendance summary"
  {
  }

  lemma AttendanceQueryKeywords()
    ensures !Contains("my attendance summary", "scholarship")
    ensures Contains("my attendance summary", "attendance")
  {
    AbsentChar("my attendance summary", "scholarship", 2);
    assert "my attendance summary" == "my " + "attendance" + " summary";
    ContainsMiddle("my ", "attendance", " summary");
  }

  /** A query with none of the keywords gets the catch-all reply. */
  lemma UnrelatedTextFallback()
    ensures BotReply("random unrelated text") == GeneralHelp
  {
    UnrelatedTextLower();
    UnrelatedTextKeywords();
  }

  lemma UnrelatedTextLower()
    ensures Lower("random unrelated text") == "random unrelated text"
  {
  }

  lemma UnrelatedTextKeywords()
    ensures !Contains("random unrelated text", "scholarship")
    ensures !Contains("random unrelated text", "attendance")
    ensures !Contains("random unrelated text", "scheme")
    ensures !Contains("random unrelated text", "government")
  {
    var q := "random unrelated text";
    AbsentChar(q, "scholarship", 2);
    AbsentChar(q, "attendance", 8);
    AbsentChar(q, "scheme", 1);
    AbsentChar(q, "government", 0);
  }

  /** What the assistant says: the opening greeting or a reply. */
  datatype BotLine = Greeting | Answered(reply: Reply)

  /** A conversation entry; ids and timestamps are clock readings and are not kept. */
  datatype Message = UserMessage(text: string) | BotMessage(line: BotLine)

  /** The text a message bubble shows. */
  function Content(m: Message): string {
    match m
    case UserMessage(t) => t
    case BotMessage(Greeting) => GreetingText
    case BotMessage(Answered(r)) => ReplyText(r)
  }

  /** The conversation, the input box, and the queries whose replies are still due,
      oldest first. */
  datatype ChatState = ChatState(messages: seq<Message>, input: string, pending: seq<string>)

  const InitialChat: ChatState := ChatState([BotMessage(Greeting)], "", [])

  /** Send: a blank input is ignored; otherwise the untrimmed input is appended as a user
      message, its reply is scheduled, and the input box is cleared. */
  function SendMessage(c: ChatState): (c': ChatState)
    ensures IsBlank(c.input) ==> c' == c
    ensures !IsBlank(c.input) ==>
      && c'.messages == c.messages + [UserMessage(c.input)]
      && Content(c'.messages[|c.messages|]) == c.input
      && c'.input == ""
      && c'.pending == c.pending + [c.input]
  {
    TrimEmptyIffBlank(c.input);
    if Trim(c.input) == [] then c
    else ChatState(c.messages + [UserMessage(c.input)], "", c.pending + [c.input])
  }

  /** The delayed reply to the oldest waiting query is appended as a bot message showing
      `BotResponse` of that query. */
  function DeliverReply(c: ChatState): (c': ChatState)
    requires c.pending != []
    ensures c'.messages == c.messages + [BotMessage(Answered(BotReply(c.pending[0])))]
    ensures Content(c'.messages[|c.messages|]) == BotResponse(c.pending[0])
    ensures c'.pending == c.pending[1..] && c'.input == c.input
  {
    ChatState(c.messages + [BotMessage(Answered(BotReply(c.pending[0])))], c.input, c.pending[1..])
  }

  /** A quick-query button only fills the input box. */
  function ChooseQuickQuery(c: ChatState, i: int): (c': ChatState)
    requires 0 <= i < |QuickQueries|
    ensures c'.messages == c.messages && c'.pending == c.pending
    ensures c'.input == QuickQueries[i]
  {
    c.(input := QuickQueries[i])
  }

  datatype ChatEvent = Typed(text: string) | Quick(index: int) | Send | Answer

  /** One event. A quick-query index outside the button row and an answer with nothing
      waiting cannot happen and change nothing. */
  function ChatStep(c: ChatState, e: ChatEvent): ChatState {
    match e
    case Typed(t) => c.(input := t)
    case Quick(i) => if 0 <= i < |QuickQueries| then ChooseQuickQuery(c, i) else c
    case Send => SendMessage(c)
    case Answer => if c.pending != [] then DeliverReply(c) else c
  }

  function ChatRun(c: ChatState, events: seq<ChatEvent>): ChatState
    decreases |events|
  {
    if events == [] then c else ChatRun(ChatStep(c, events[0]), events[1..])
  }

  /** The conversation is append-only: earlier messages stay, in order, whatever happens. */
  lemma {:induction false} AppendOnly(c: ChatState, events: seq<ChatEvent>)
    ensures |c.messages| <= |ChatRun(c, events).messages|
    ensures ChatRun(c, events).messages[..|c.messages|] == c.messages
    decreases |events|
  {
    if events != [] {
      var c1 := ChatStep(c, events[0]);
      AppendOnly(c1, events[1..]);
      assert c1.messages[..|c.messages|] == c.messages;
    }
  }

  /** The texts of the user messages, oldest first. */
  function UserTexts(ms: seq<Message>): (ts: seq<string>)
    ensures |ts| <= |ms|
  {
    if ms == [] then []
    else
      var last := ms[|ms| - 1];
      UserTexts(ms[..|ms| - 1]) + (if last.UserMessage? then [last.text] else [])
  }

  /** The replies of the answered bot messages, oldest first. */
  function Answers(ms: seq<Message>): (rs: seq<Reply>)
    ensures |rs| <= |ms|
  {
    if ms == [] then []
    else
      var last := ms[|ms| - 1];
      Answers(ms[..|ms| - 1]) + (if last.BotMessage? && last.line.Answered? then [last.line.reply] else [])
  }

  lemma AppendMessage(ms: seq<Message>, m: Message)
    ensures UserTexts(ms + [m]) == UserTexts(ms) + (if m.UserMessage? then [m.text] else [])
    ensures Answers(ms + [m]) == Answers(ms) + (if m.BotMessage? && m.line.Answered? then [m.line.reply] else [])
  {
    assert (ms + [m])[..|ms|] == ms;
  }

  /** No stretch of the conversation from its start holds more answers than questions:
      every answer comes after the question it replies to. */
  predicate AnswersFollowQuestions(ms: seq<Message>) {
    forall n :: 0 <= n <= |ms| ==> |Answers(ms[..n])| <= |UserTexts(ms[..n])|
  }

  /** What every reachable conversation satisfies: it opens with the greeting and every
      later message is a question or an answer; the k-th answer is the reply to the k-th
      question and comes after it; the waiting queries are exactly the unanswered
      questions, oldest first; and no question is blank. */
  predicate ChatInvariant(c: ChatState) {
    var qs := UserTexts(c.messages);
    var rs := Answers(c.messages);
    && |c.messages| == 1 + |qs| + |rs|
    && c.messages[0] == BotMessage(Greeting)
    && |rs| + |c.pending| == |qs|
    && c.pending == qs[|rs|..]
    && (forall k :: 0 <= k < |rs| ==> rs[k] == BotReply(qs[k]))
    && (forall k :: 0 <= k < |qs| ==> !IsBlank(qs[k]))
    && AnswersFollowQuestions(c.messages)
  }

  lemma StepKeepsInvariant(c: ChatState, e: ChatEvent)
    requires ChatInvariant(c)
    ensures ChatInvariant(ChatStep(c, e))
  {
    match e
    case Send => SendKeepsInvariant(c);
    case Answer => if c.pending != [] { AnswerKeepsInvariant(c); }
    case _ =>
  }

  lemma SendKeepsInvariant(c: ChatState)
    requires ChatInvariant(c)
    ensures ChatInvariant(SendMessage(c))
  {
    if !IsBlank(c.input) {
      AppendQueryKeepsInvariant(c, c.input);
    }
  }

  /** Appending a message keeps the prefix property when the whole conversation after
      it still has at least as many questions as answers. */
  lemma AppendFollows(ms: seq<Message>, m: Message)
    requires AnswersFollowQuestions(ms)
    requires |Answers(ms + [m])| <= |UserTexts(ms + [m])|
    ensures AnswersFollowQuestions(ms + [m])
  {
    var ms' := ms + [m];
    forall n | 0 <= n <= |ms'|
      ensures |Answers(ms'[..n])| <= |UserTexts(ms'[..n])|
    {
      if n <= |ms| {
        assert ms'[..n] == ms[..n];
      } else {
        assert ms'[..n] == ms';
      }
    }
  }

  /** Appending a non-blank query and scheduling its reply keeps the invariant. */
  lemma AppendQueryKeepsInvariant(c: ChatState, q: string)
    requires ChatInvariant(c) && !IsBlank(q)
    ensures ChatInvariant(ChatState(c.messages + [UserMessage(q)], "", c.pending + [q]))
  {
    var ms' := c.messages + [UserMessage(q)];
    var qs, rs := UserTexts(c.messages), Answers(c.messages);
    AppendMessage(c.messages, UserMessage(q));
    assert UserTexts(ms') == qs + [q];
    assert Answers(ms') == rs;
    assert (qs + [q])[|rs|..] == qs[|rs|..] + [q];
    AppendFollows(c.messages, UserMessage(q));
    forall k | 0 <= k < |qs + [q]|
      ensures !IsBlank((qs + [q])[k])
    {
      if k < |qs| {
        assert (qs + [q])[k] == qs[k];
      }
    }
    forall k | 0 <= k < |rs|
      ensures rs[k] == BotReply((qs + [q])[k])
    {
      assert (qs + [q])[k] == qs[k];
    }
    assert ms'[0] == c.messages[0];
  }

  /** Delivering the oldest waiting reply keeps the invariant. */
  lemma AnswerKeepsInvariant(c: ChatState)
    requires ChatInvariant(c) && c.pending != []
    ensures ChatInvariant(DeliverReply(c))
  {
    var r := BotReply(c.pending[0]);
    var m := BotMessage(Answered(r));
    var ms' := c.messages + [m];
    var qs, rs := UserTexts(c.messages), Answers(c.messages);
    AppendMessage(c.messages, m);
    assert UserTexts(ms') == qs;
    assert Answers(ms') == rs + [r];
    assert c.pending[0] == qs[|rs|];
    assert c.pending[1..] == qs[|rs| + 1..];
    AppendFollows(c.messages, m);
    ReplyExtendsPairing(qs, rs, r);
    assert ms'[0] == c.messages[0];
  }

  /** The reply to the first unanswered question extends the question/answer pairing. */
  lemma ReplyExtendsPairing(qs: seq<string>, rs: seq<Reply>, r: Reply)
    requires |rs| < |qs| && r == BotReply(qs[|rs|])
    requires forall k :: 0 <= k < |rs| ==> rs[k] == BotReply(qs[k])
    ensures forall k :: 0 <= k < |rs + [r]| ==> (rs + [r])[k] == BotReply(qs[k])
  {
    forall k | 0 <= k < |rs + [r]|
      ensures (rs + [r])[k] == BotReply(qs[k])
    {
      if k < |rs| {
        assert (rs + [r])[k] == rs[k];
      }
    }
  }

  lemma {:induction false} RunKeepsInvariant(c: ChatState, events: seq<ChatEvent>)
    requires ChatInvariant(c)
    ensures ChatInvariant(ChatRun(c, events))
    decreases |events|
  {
    if events != [] {
      StepKeepsInvariant(c, events[0]);
      RunKeepsInvariant(ChatStep(c, events[0]), events[1..]);
    }
  }

  /** In every conversation reachable from the greeting, each bot answer is
      `getBotResponse` of the question it answers, the k-th answer answering the k-th
      question, and the replies still due are for the unanswered questions, in order. */
  lemma ReachableChatInvariant(events: seq<ChatEvent>)
    ensures ChatInvariant(ChatRun(InitialChat, events))
    ensures var ms := ChatRun(InitialChat, events).messages;
      forall k :: 0 <= k < |Answers(ms)| ==>
        k < |UserTexts(ms)| && Answers(ms)[k] == BotReply(UserTexts(ms)[k])
    ensures var c := ChatRun(InitialChat, events);
      c.pending == UserTexts(c.messages)[|Answers(c.messages)|..]
  {
    assert UserTexts(InitialChat.messages) == [] by {
      assert InitialChat.messages[..0] == [];
    }
    assert Answers(InitialChat.messages) == [];
    assert AnswersFollowQuestions(InitialChat.messages) by {
      assert InitialChat.messages[..1] == InitialChat.messages;
    }
    RunKeepsInvariant(InitialChat, events);
  }
}
