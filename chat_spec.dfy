/** The chat widget's conversation engine as functions on a `Session` value: the steps,
    the lesson table, the keyword table, the classifier, the validators and one function
    per handler. The class in chat_engine.dfy runs these handlers step by step on its
    fields and is proved to agree with them; chat_properties.dfy proves what they do.

    An assistant entry of the transcript records which reply was given (a `Say`); `ReplyText`
    and `ReplySpeech` give the words shown and spoken for it, exactly as the component has
    them. */
module ChatSpec {
  import opened Text
  import opened Patterns
  import opened Wrappers


  /** CONVERSATION_STEPS. */
  datatype Step = Start | GuidedLearning | GetName | GetEmail | GetPhone | QueryOrEnd | Closing

  /** The numeric value the source gives each step. */
  function Code(s: Step): int {
    match s
    case Start => 0
    case GuidedLearning => 1
    case GetName => 10
    case GetEmail => 11
    case GetPhone => 12
    case QueryOrEnd => 13
    case Closing => 14
  }

  /** The range test `step >= GET_NAME && step <= GET_PHONE` of the dispatcher. */
  predicate InLeadCapture(s: Step) {
    Code(GetName) <= Code(s) <= Code(GetPhone)
  }

  /** Every reply the assistant gives. The three lessons, the four rows of the keyword
      table and the three classifier rules each have their own reply; `Nudge`,
      `EmailPrompt` and `Echo` carry the part of their text that varies. */
  datatype Say =
    | Greeting
    | Lesson1 | Lesson2 | Lesson3
    | AlreadyOnLessonOne
    | Nudge(trigger: string)
    | LeadPrompt
    | NameError
    | EmailPrompt(name: string)
    | EmailError
    | PhonePrompt
    | PhoneError
    | DetailsSaved
    | UseButtons
    | Farewell
    | GoAhead
    | OtherQuestions
    | GreetingsAnswer | NumbersAnswer | CoursesAnswer | FeesAnswer
    | FoodAnswer | GoAnswer | PleaseAnswer
    | Echo(prompt: string)

  /** A transcript entry: the visitor's text, an assistant reply (with the Yes/No buttons
      or without), or the typing placeholder with its id. */
  datatype Message = FromUser(text: string) | FromBot(say: Say, showButtons: bool) | Typing(id: int)

  /** The captured lead; the empty string stands for a field not captured yet. */
  datatype Lead = Lead(name: string, email: string, phone: string)

  /** One guided lesson: its topic, the reply that shows it, the token that moves on. */
  datatype Lesson = Lesson(topic: string, shown: Say, nextTrigger: string)

  /** A row of a first-match table: the row wins when one of its aliases occurs in the
      lower-cased input. */
  datatype Topic = Topic(aliases: seq<string>, reply: Say)

  datatype Choice = Yes | No

  /** The state the widget owns. */
  datatype Session = Session(step: Step, lessonIndex: nat, lead: Lead,
                             messages: seq<Message>, loading: bool)

  // ---------------------------------------------------------------------------
  // Tables

  /** `suggestions`: the guided lessons. */
  const Lessons: seq<Lesson> := [
    Lesson("Numbers (1 to 5)", Lesson1, "NEXT"),
    Lesson("Days of the Week", Lesson2, "NEXT"),
    Lesson("Months", Lesson3, "DONE")
  ]

  /** The termination keywords. */
  const Keywords: seq<string> := ["stop", "end", "close", "thank you", "done", "finish", "exit", "bye"]

  /** The local keyword table `lessons`, its keys split at `|`, in declaration order. */
  const Topics: seq<Topic> := [
    Topic(["greetings", "hello", "வணக்கம்"], GreetingsAnswer),
    Topic(["numbers", "எண்கள்", "संख्या"], NumbersAnswer),
    Topic(["course", "courses", "क्लास", "classes"], CoursesAnswer),
    Topic(["fee", "fees", "price", "cost"], FeesAnswer)
  ]

  /** The classifier's branches written as a first-match table. */
  const ClassifierRules: seq<Topic> := [
    Topic(["food", "eat"], FoodAnswer),
    Topic(["travel", "go"], GoAnswer),
    Topic(["please", "kindly"], PleaseAnswer)
  ]

  // ---------------------------------------------------------------------------
  // Keyword tests

  /** `patterns.some(p => s.includes(p))`. */
  predicate ContainsAny(s: string, ps: seq<string>) {
    exists k :: 0 <= k < |ps| && ContainsAt(s, ps, k)
  }

  /** The pattern at position `k` of `ps` occurs in `s`. */
  predicate ContainsAt(s: string, ps: seq<string>, k: int) {
    0 <= k < |ps| && Contains(s, ps[k])
  }

  /** Some termination keyword occurs in `lower`. */
  predicate KeywordIn(lower: string) {
    ContainsAny(lower, Keywords)
  }

  /** isTerminationKeyword: lower-case, trim, then look for any keyword as a substring. */
  predicate IsTerminationKeyword(input: string) {
    KeywordIn(Trim(ToLower(input)))
  }

  predicate Hits(t: Topic, lower: string) {
    ContainsAny(lower, t.aliases)
  }

  /** The position of the first row of `table` that `lower` hits, scanning in table order. */
  function FirstHit(table: seq<Topic>, lower: string): (r: Option<nat>)
    ensures r.None? <==> forall i :: 0 <= i < |table| ==> !Hits(table[i], lower)
    ensures r.Some? ==> r.value < |table| && Hits(table[r.value], lower)
                        && forall j :: 0 <= j < r.value ==> !Hits(table[j], lower)
    decreases |table|
  {
    if table == [] then None
    else if Hits(table[0], lower) then Some(0)
    else match FirstHit(table[1..], lower)
      case None => None
      case Some(k) => Some(k + 1)
  }

  /** getResponse: the reply of the first matching row of the keyword table, if any. */
  function LocalLookup(input: string): Option<Say> {
    match FirstHit(Topics, ToLower(input))
    case None => None
    case Some(i) => Some(Topics[i].reply)
  }

  /** The simulated AI classifier (fetchSimulatedAIResponse, without its timer): its
      branches in the order the source tests them. */
  function Classify(prompt: string): Say {
    var lower := ToLower(prompt);
    if Contains(lower, "food") || Contains(lower, "eat") then FoodAnswer
    else if Contains(lower, "travel") || Contains(lower, "go") then GoAnswer
    else if Contains(lower, "please") || Contains(lower, "kindly") then PleaseAnswer
    else Echo(prompt)
  }

  /** handleGeneralQuery: the local table first, the classifier otherwise. */
  function GeneralAnswer(input: string): Say {
    match LocalLookup(input)
    case Some(a) => a
    case None => Classify(input)
  }

  // ---------------------------------------------------------------------------
  // Lead validators

  predicate NameOk(input: string) { |input| >= 2 }
  predicate EmailOk(input: string) { ChatEmail(input) }
  predicate PhoneOk(input: string) { SevenOrMoreDigits(Digits(input)) }

  // ---------------------------------------------------------------------------
  // Handlers

  /** `prev.filter(msg => msg.id !== id)`: only the placeholder carries an id. */
  function RemoveId(ms: seq<Message>, id: int): seq<Message> {
    if ms == [] then []
    else (if ms[0] == Typing(id) then [] else [ms[0]]) + RemoveId(ms[1..], id)
  }

  predicate NoPlaceholder(ms: seq<Message>) {
    forall i :: 0 <= i < |ms| ==> !ms[i].Typing?
  }

  /** botReply(text, stepChange, speakText). */
  function Reply(s: Session, say: Say, stepChange: Option<Step>): Session {
    s.(messages := s.messages + [FromBot(say, false)],
       step := if stepChange.Some? then stepChange.value else s.step)
  }

  function Append(s: Session, m: Message): Session {
    s.(messages := s.messages + [m])
  }

  /** startLeadCapture. */
  function StartLeadCapture(s: Session): Session {
    Reply(s, LeadPrompt, Some(GetName))
  }

  /** The duplicate check for lesson 1 as the source writes it: the second entry of the
      transcript (taken before the current input was appended) holds the first line of
      lesson 1's text. */
  predicate LessonOneShownAsWritten(prior: seq<Message>) {
    |prior| > 1 && Contains(TextOf(prior[1]), Before(ReplyText(Lesson1), '\n'))
  }

  /** The duplicate check as intended: lesson 1 is already among the assistant's entries. */
  predicate LessonOneShown(prior: seq<Message>) {
    exists i :: 0 <= i < |prior| && prior[i] == FromBot(Lesson1, false)
  }

  /** handleGuidedLearning, given the outcome `shown` of the duplicate check for lesson 1. */
  function GuidedWith(s: Session, input: string, shown: bool): Session
    requires s.lessonIndex < |Lessons|
  {
    var lower := ToLower(input);
    var current := Lessons[s.lessonIndex];
    if s.lessonIndex == 0 && (Contains(lower, "yes") || Contains(lower, "no")) then
      if Contains(lower, "yes") then
        if shown then Reply(s, AlreadyOnLessonOne, None)
        else Reply(s, current.shown, Some(GuidedLearning))
      else StartLeadCapture(s)
    else if lower == ToLower(current.nextTrigger) then
      if current.nextTrigger == "DONE" then StartLeadCapture(s)
      else if s.lessonIndex < |Lessons| - 1 then
        Reply(s.(lessonIndex := s.lessonIndex + 1), Lessons[s.lessonIndex + 1].shown, Some(GuidedLearning))
      else s
    else Reply(s, Nudge(current.nextTrigger), None)
  }

  /** handleGuidedLearning as the source writes it, which `Dispatch` runs. `prior` is the
      transcript the handler sees: the current input is not in it yet. */
  function GuidedAsWritten(s: Session, input: string, prior: seq<Message>): Session
    requires s.lessonIndex < |Lessons|
  {
    GuidedWith(s, input, LessonOneShownAsWritten(prior))
  }

  /** handleGuidedLearning with the duplicate check corrected (ChatProperties.YesTwice). */
  function Guided(s: Session, input: string, prior: seq<Message>): Session
    requires s.lessonIndex < |Lessons|
  {
    GuidedWith(s, input, LessonOneShown(prior))
  }

  /** handleLeadCapture: validate the one field the step asks for. */
  function LeadCapture(s: Session, input: string): Session
    requires InLeadCapture(s.step)
  {
    match s.step
    case GetName =>
      if !NameOk(input) then Reply(s, NameError, None)
      else Reply(s.(lead := s.lead.(name := input)), EmailPrompt(input), Some(GetEmail))
    case GetEmail =>
      if !EmailOk(input) then Reply(s, EmailError, None)
      else Reply(s.(lead := s.lead.(email := input)), PhonePrompt, Some(GetPhone))
    case GetPhone =>
      if !PhoneOk(input) then Reply(s, PhoneError, None)
      else Append(s.(lead := s.lead.(phone := input)), FromBot(DetailsSaved, true)).(step := QueryOrEnd)
  }

  /** The general-query flow: placeholder, answer, and the re-prompt that `reprompt`
      (the source's 40% random draw) decides; `now` is the placeholder's id. */
  function General(s: Session, input: string, reprompt: bool, now: int): Session {
    var shown := RemoveId(s.messages + [Typing(now)], now);
    var answered := s.(messages := shown + [FromBot(GeneralAnswer(input), false)]);
    if reprompt then Append(answered, FromBot(OtherQuestions, true)).(step := QueryOrEnd)
    else answered.(step := Start)
  }

  /** handleSend once the input is trimmed, found non-blank, and no reply is pending.
      The input is already trimmed, so the termination test is `KeywordIn` of its lower-cased
      form: the second trim inside isTerminationKeyword changes nothing
      (ChatProperties.TerminationTestOnTrimmed). */
  function Dispatch(s: Session, input: string, reprompt: bool, now: int): Session
    requires s.lessonIndex < |Lessons|
  {
    var s1 := Append(s, FromUser(input));
    if KeywordIn(ToLower(input)) && s.step != GetName && s.step != GetEmail && s.step != GetPhone then
      if s.lead.name == [] then StartLeadCapture(s1)
      else Reply(s1, Farewell, Some(Closing))
    else if s.step == GuidedLearning then GuidedAsWritten(s1, input, s.messages)
    else if InLeadCapture(s.step) then LeadCapture(s1, input)
    else if s.step == QueryOrEnd then Reply(s1, UseButtons, Some(QueryOrEnd))
    else General(s1, input, reprompt, now)
  }

  /** handleSend. */
  function Send(s: Session, raw: string, reprompt: bool, now: int): Session
    requires s.lessonIndex < |Lessons|
  {
    var input := Trim(raw);
    if input == [] || s.loading then s else Dispatch(s, input, reprompt, now)
  }

  /** The label the visitor's choice is recorded with. */
  function ChoiceLabel(option: Choice): string {
    if option == Yes then "Yes, I have a query" else "No, please close"
  }

  /** handleButtonOptionClick. */
  function Click(s: Session, option: Choice): Session {
    var s1 := Append(s, FromUser(ChoiceLabel(option)));
    var s2 := if option == No then Reply(s1, Farewell, Some(Closing)) else Reply(s1, GoAhead, Some(Start));
    s2.(loading := false)
  }

  /** The session the widget starts with. */
  const Initial: Session := Session(GuidedLearning, 0, Lead("", "", ""), [FromBot(Greeting, false)], false)

  /** getInputProps: the text box is disabled while loading, while the buttons are shown
      and after closing, so typed input only reaches handleSend in the other steps. */
  predicate InputEnabled(s: Session) {
    !s.loading && s.step != QueryOrEnd && s.step != Closing
  }

  /** The Yes/No buttons are drawn under an entry only while the step is QueryOrEnd. */
  predicate ButtonsShown(s: Session, i: int) {
    0 <= i < |s.messages| && s.messages[i].FromBot? && s.messages[i].showButtons && s.step == QueryOrEnd
  }

  // ---------------------------------------------------------------------------
  // The invariant every reachable session keeps

  /** Which lead fields are captured in each step: name, then email, then phone. */
  predicate LeadFitsStep(step: Step, lead: Lead) {
    match step
    case GuidedLearning => lead == Lead("", "", "")
    case GetName => lead == Lead("", "", "")
    case GetEmail => lead.name != "" && lead.email == "" && lead.phone == ""
    case GetPhone => lead.name != "" && lead.email != "" && lead.phone == ""
    case _ => lead.name != "" && lead.email != "" && lead.phone != ""
  }

  predicate Consistent(s: Session) {
    && s.lessonIndex < |Lessons|
    && NoPlaceholder(s.messages)
    && LeadFitsStep(s.step, s.lead)
  }

  // ---------------------------------------------------------------------------
  // Wording

  const LessonOneHeader: string := "**Lesson 1: Numbers (1-5)**"
  const LessonOneBody: string := "\n1: **Ek** (एक)\n2: **Do** (दो)\n3: **Teen** (तीन)\n4: **Chaar** (चार)\n5: **Paanch** (पाँच)\n\nType **NEXT** to learn the Days of the Week."

  /** The text shown for each reply. */
  function ReplyText(say: Say): string {
    match say
    case Greeting => "नमस्ते! (Namaste / வணக்கம்) I'm your Hindi learning assistant. Would you like a quick guided lesson on basic words before proceeding? Type **YES** or **NO**."
    case Lesson1 => LessonOneHeader + "\n" + LessonOneBody
    case Lesson2 => "**Lesson 2: Days of the Week**\n\nMonday: **Somvaar** (सोमवार)\nTuesday: **Mangalvaar** (मंगलवार)\nWednesday: **Budhvaar** (बुधवार)\n\nType **NEXT** to learn the Months."
    case Lesson3 => "**Lesson 3: Common Months**\n\nJanuary: **Janvari** (जनवरी)\nFebruary: **Farvari** (फ़रवरी)\nMarch: **March** (मार्च)\n\nThat completes your guided lessons for now! Please type **DONE**."
    case AlreadyOnLessonOne => "You are already on Lesson 1. Type **NEXT** to continue."
    case Nudge(trigger) => "To proceed, please type **" + trigger + "** to see the next lesson."
    case LeadPrompt => "That completes your lessons for now! We'd love to send you a complete vocabulary guide. Could you please provide your **full name** to continue?"
    case NameError => "Please enter your full name (at least 2 characters)."
    case EmailPrompt(name) => "Great, " + name + "! Next, what's your best email address?"
    case EmailError => "That doesn't look like a valid email. Please try again (e.g., example@domain.com)."
    case PhonePrompt => "Thank you. Finally, what's your contact number so we can reach you?"
    case PhoneError => "Please enter a valid phone number (digits only)."
    case DetailsSaved => "Perfect! Your details are saved. Do you have any immediate questions about the courses or Hindi language?"
    case UseButtons => "Please choose one of the buttons below to proceed."
    case Farewell => "Understood! I'm closing the chat now. If you need us, use the WhatsApp button below. Have a great day!"
    case GoAhead => "Great! Go ahead and ask your question."
    case OtherQuestions => "Do you have any *other* questions before I close the chat?"
    case GreetingsAnswer => "**Hindi Greetings / வாழ்த்துகள்:**\n\nThe formal and respectful greeting is **Namaste** (नमस्ते).\n\n**English Translation:** Hello/Greetings\n**Tamil Translation:** Vanakkam (வணக்கம்)"
    case NumbersAnswer => "**Hindi Numbers / எண்கள்:**\n\n**One:** Ek (एक)\n**Two:** Do (दो)\n\nThese are essential for counting!"
    case CoursesAnswer => "📚 **Our Hindi Courses:**\nWe offer structured courses at Raanuva Veeran Academy. Contact us via WhatsApp for enrollment!"
    case FeesAnswer => "💰 **Course Fees:**\nMonthly: ₹5,000 per month. Please contact us on WhatsApp for flexible installment options."
    case FoodAnswer => "The Hindi word for food/meal is **Khaana** (खाना).\n\n**English Translation:** Food/Meal\n**Tamil Translation:** Unavu (உணவு)\n\n**Example Usage:** \"Is the food good?\" translates to \"Kya khaana achha hai?\""
    case GoAnswer => "The basic verb 'to go' is **Jaana** (जाना).\n\n**English Translation:** To Go\n**Tamil Translation:** Selvathu (செல்வது)\n\n**Example Usage:** To say \"I am going,\" you would say \"Main jaa raha hoon.\""
    case PleaseAnswer => "The best word for please is **Kripya** (कृपया).\n\n**English Translation:** Please\n**Tamil Translation:** Thayavuseydhu (தயவுசெய்து)"
    case Echo(prompt) => "I see you are asking about **" + Before(prompt, ' ') + "**! The Hindi word for 'Need' or 'Requirement' is a valuable word to learn: **Zaroorat** (ज़रूरत).\n\nWhat other words do you need translated?"
  }

  /** The text spoken for each reply: the `speak` the source passes, or the shown text
      when it passes none. */
  function ReplySpeech(say: Say): string {
    match say
    case Greeting => "नमस्ते! मैं आपकी हिंदी सीखने में मदद कर सकता हूं"
    case Lesson1 => "Here is your first lesson on numbers one to five."
    case Lesson2 => "Lesson two is the days of the week."
    case Lesson3 => "Lesson three covers some common months."
    case GreetingsAnswer => "नमस्ते"
    case NumbersAnswer => "Here are the first few numbers."
    case CoursesAnswer => "हम कोर्स प्रदान करते हैं"
    case FeesAnswer => "हमारे कोर्स की फीस पांच हजार रुपये प्रति माह है"
    case FoodAnswer => "Here is the information you requested."
    case GoAnswer => "Here is the information you requested."
    case PleaseAnswer => "Here is the information you requested."
    case Echo(_) => "Here is the information you requested."
    case _ => ReplyText(say)
  }

  /** The `text` field of an entry. */
  function TextOf(m: Message): string {
    match m
    case FromUser(t) => t
    case FromBot(say, _) => ReplyText(say)
    case Typing(_) => "Typing..."
  }

  /** The `speakText` field of an entry: None for the visitor's entries and for the
      placeholder, which are not spoken. */
  function SpeechOf(m: Message): Option<string> {
    match m
    case FromBot(say, _) => Some(ReplySpeech(say))
    case _ => None
  }
}
