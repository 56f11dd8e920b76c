/** The chat widget's state and handlers as the component holds them: fields updated by
    each handler in turn. Every handler is proved to leave the fields as the matching
    function of ChatSpec says, and `Send` and `Click` keep the invariant `Consistent`. */
module ChatEngine {
  import opened Text
  import opened ChatSpec
  import opened Wrappers
  import ChatProperties

  class Conversation {
    var step: Step
    var lessonIndex: nat
    var lead: Lead
    var messages: seq<Message>
    var loading: bool

    /** The fields as one value. */
    function State(): Session
      reads this
    {
      Session(step, lessonIndex, lead, messages, loading)
    }

    ghost predicate Valid()
      reads this
    {
      Consistent(State())
    }

    constructor ()
      ensures State() == Initial && Valid()
    {
      step := GuidedLearning;
      lessonIndex := 0;
      lead := Lead("", "", "");
      messages := [FromBot(Greeting, false)];
      loading := false;
    }

    method BotReply(say: Say, stepChange: Option<Step>)
      modifies this
      ensures State() == Reply(old(State()), say, stepChange)
    {
      messages := messages + [FromBot(say, false)];
      if stepChange.Some? {
        step := stepChange.value;
      }
    }

    method StartLeadCapture()
      modifies this
      ensures State() == ChatSpec.StartLeadCapture(old(State()))
    {
      BotReply(LeadPrompt, Some(GetName));
    }

    /** `prior` is the transcript the handler was created over (the current input not
        yet appended). */
    method HandleGuidedLearning(input: string, prior: seq<Message>)
      requires lessonIndex < |Lessons|
      modifies this
      ensures State() == GuidedAsWritten(old(State()), input, prior)
    {
      var lower := ToLower(input);
      var current := Lessons[lessonIndex];
      if lessonIndex == 0 && (Contains(lower, "yes") || Contains(lower, "no")) {
        if Contains(lower, "yes") {
          if LessonOneShownAsWritten(prior) {
            BotReply(AlreadyOnLessonOne, None);
          } else {
            BotReply(current.shown, Some(GuidedLearning));
          }
        } else {
          StartLeadCapture();
        }
      } else if lower == ToLower(current.nextTrigger) {
        if current.nextTrigger == "DONE" {
          StartLeadCapture();
        } else if lessonIndex < |Lessons| - 1 {
          lessonIndex := lessonIndex + 1;
          BotReply(Lessons[lessonIndex].shown, Some(GuidedLearning));
        }
      } else {
        BotReply(Nudge(current.nextTrigger), None);
      }
    }

    method HandleLeadCapture(input: string)
      requires InLeadCapture(step)
      modifies this
      ensures State() == LeadCapture(old(State()), input)
    {
      match step
      case GetName =>
        if !NameOk(input) {
          BotReply(NameError, None);
        } else {
          lead := lead.(name := input);
          BotReply(EmailPrompt(input), Some(GetEmail));
        }
      case GetEmail =>
        if !EmailOk(input) {
          BotReply(EmailError, None);
        } else {
          lead := lead.(email := input);
          BotReply(PhonePrompt, Some(GetPhone));
        }
      case GetPhone =>
        if !PhoneOk(input) {
          BotReply(PhoneError, None);
        } else {
          lead := lead.(phone := input);
          messages := messages + [FromBot(DetailsSaved, true)];
          step := QueryOrEnd;
        }
    }

    /** The placeholder is shown, replaced by the answer, and `reprompt` decides whether
        the buttons are offered again. */
    method HandleGeneralQuery(input: string, reprompt: bool, now: int)
      modifies this
      ensures State() == General(old(State()), input, reprompt, now)
    {
      messages := messages + [Typing(now)];
      var answer := GeneralAnswer(input);
      messages := RemoveId(messages, now);
      messages := messages + [FromBot(answer, false)];
      if reprompt {
        messages := messages + [FromBot(OtherQuestions, true)];
        step := QueryOrEnd;
      } else {
        step := Start;
      }
    }

    /** handleSend after trimming, for non-blank input with no reply pending. */
    method Dispatch(input: string, reprompt: bool, now: int)
      requires lessonIndex < |Lessons|
      modifies this
      ensures State() == ChatSpec.Dispatch(old(State()), input, reprompt, now)
    {
      var prior := messages;
      messages := messages + [FromUser(input)];
      if KeywordIn(ToLower(input)) && step != GetName && step != GetEmail && step != GetPhone {
        if lead.name == [] {
          StartLeadCapture();
        } else {
          BotReply(Farewell, Some(Closing));
        }
      } else if step == GuidedLearning {
        HandleGuidedLearning(input, prior);
      } else if InLeadCapture(step) {
        HandleLeadCapture(input);
      } else if step == QueryOrEnd {
        BotReply(UseButtons, Some(QueryOrEnd));
      } else {
        HandleGeneralQuery(input, reprompt, now);
      }
    }

    /** handleSend. */
    method Send(raw: string, reprompt: bool, now: int)
      requires Valid()
      modifies this
      ensures State() == ChatSpec.Send(old(State()), raw, reprompt, now) && Valid()
    {
      ChatProperties.SendKeepsConsistent(State(), raw, reprompt, now);
      var input := Trim(raw);
      if input == [] || loading {
        return;
      }
      Dispatch(input, reprompt, now);
    }

    /** handleButtonOptionClick; the buttons are shown only in QueryOrEnd. */
    method Click(option: Choice)
      requires Valid() && step == QueryOrEnd
      modifies this
      ensures State() == ChatSpec.Click(old(State()), option) && Valid()
    {
      ChatProperties.ClickKeepsConsistent(State(), option);
      messages := messages + [FromUser(ChoiceLabel(option))];
      if option == No {
        BotReply(Farewell, Some(Closing));
      } else {
        BotReply(GoAhead, Some(Start));
      }
      loading := false;
    }
  }
}
