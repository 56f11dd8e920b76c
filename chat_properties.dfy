/** What the chat widget's handlers guarantee: how typed input is routed, how the guided
    lessons advance, the order in which the lead is captured, how a general question is
    answered, and the invariant every reachable session keeps.

    handleSend trims the input and ignores it when it is blank or a reply is pending
    (`SendIgnoresBlank`); everything else it does is `Dispatch` of the trimmed input, so
    most lemmas here are stated about `Dispatch`. */
module ChatProperties {
  import opened Text
  import opened Patterns
  import opened ChatSpec
  import opened Wrappers

  // ---------------------------------------------------------------------------
  // Keyword matching

  /** handleSend passes the trimmed input to isTerminationKeyword, whose own trim then
      changes nothing: the test is whether a keyword occurs in the lower-cased input. */
  lemma TerminationTestOnTrimmed(input: string)
    requires Trimmed(input)
    ensures IsTerminationKeyword(input) <==> KeywordIn(ToLower(input))
  {
    ToLowerSpace(input);
    TrimFixed(ToLower(input));
  }

  /** An input that lower-cases to a keyword ends the conversation. */
  lemma KeywordTerminates(input: string, k: nat)
    requires k < |Keywords| && ToLower(input) == Keywords[k]
    ensures KeywordIn(ToLower(input)) && IsTerminationKeyword(input)
  {
    var w := Keywords[k];
    assert !IsSpace(w[0]) && !IsSpace(w[|w| - 1]);
    ToLowerSpace(input);
    TerminationTestOnTrimmed(input);
    ContainsPrefix(w, w);
    assert ContainsAt(w, Keywords, k);
  }

  /** A keyword anywhere in the input ends the conversation: "thank you so much" does, and
      so does "weekend", which holds "end". */
  lemma KeywordInsideWordTerminates()
    ensures KeywordIn(ToLower("weekend")) && IsTerminationKeyword("weekend")
  {
    var w := "weekend";
    assert ToLower(w) == w;
    assert OccursAt(w, "end", 4);
    ContainsIff(w, "end");
    assert ContainsAt(w, Keywords, 1);
    TerminationTestOnTrimmed(w);
  }

  /** The range test on step codes picks out exactly the three lead-capture steps. */
  lemma InLeadCaptureIff(st: Step)
    ensures InLeadCapture(st) <==> st == GetName || st == GetEmail || st == GetPhone
  {
  }

  // ---------------------------------------------------------------------------
  // Routing of typed input

  /** Input that is blank (white space only), or that arrives while a reply is pending,
      changes nothing; any other input is dispatched in its trimmed form. */
  lemma SendIgnoresBlank(s: Session, raw: string, reprompt: bool, now: int)
    requires s.lessonIndex < |Lessons|
    ensures Send(s, raw, reprompt, now)
            == if AllSpace(raw) || s.loading then s else Dispatch(s, Trim(raw), reprompt, now)
  {
    TrimEmptyIffAllSpace(raw);
  }

  /** Outside lead capture a termination keyword records the input and then either starts
      lead capture (no name yet) or says goodbye and closes; nothing else changes. */
  lemma TerminationRoute(s: Session, input: string, reprompt: bool, now: int)
    requires s.lessonIndex < |Lessons| && !InLeadCapture(s.step) && KeywordIn(ToLower(input))
    ensures var t := Dispatch(s, input, reprompt, now);
      && t.lead == s.lead && t.lessonIndex == s.lessonIndex && t.loading == s.loading
      && t.step == (if s.lead.name == "" then GetName else Closing)
      && t.messages == s.messages + [FromUser(input)]
           + [if s.lead.name == "" then FromBot(LeadPrompt, false) else FromBot(Farewell, false)]
  {
  }

  /** During lead capture a keyword is an answer like any other: "Done" is taken as the
      visitor's name. */
  lemma KeywordTakenAsName(s: Session, reprompt: bool, now: int)
    requires s.lessonIndex < |Lessons| && s.step == GetName
    ensures KeywordIn(ToLower("Done")) && IsTerminationKeyword("Done")
    ensures var t := Dispatch(s, "Done", reprompt, now);
      t.step == GetEmail && t.lead == s.lead.(name := "Done")
  {
    assert ToLower("Done") == "done";
    KeywordTerminates("Done", 4);
    NameStep(s, "Done", reprompt, now);
  }

  /** In QueryOrEnd typed text that is not a keyword only points at the buttons. */
  lemma TypingInQueryOrEnd(s: Session, input: string, reprompt: bool, now: int)
    requires s.lessonIndex < |Lessons| && s.step == QueryOrEnd && !KeywordIn(ToLower(input))
    ensures Dispatch(s, input, reprompt, now)
            == s.(messages := s.messages + [FromUser(input)] + [FromBot(UseButtons, false)])
  {
  }

  // ---------------------------------------------------------------------------
  // Guided lessons

  /** "yes" at the first lesson shows lesson 1, unless the second transcript entry holds
      lesson 1's first line, in which case the visitor is told to type NEXT; the cursor
      stays at 0. */
  lemma YesShowsLessonOne(s: Session, input: string, reprompt: bool, now: int)
    requires s.step == GuidedLearning && s.lessonIndex == 0
    requires !KeywordIn(ToLower(input)) && Contains(ToLower(input), "yes")
    ensures Dispatch(s, input, reprompt, now)
            == s.(messages := s.messages + [FromUser(input)]
                    + [if LessonOneShownAsWritten(s.messages) then FromBot(AlreadyOnLessonOne, false)
                       else FromBot(Lesson1, false)])
  {
  }

  /** "no" (without "yes") at the first lesson skips the lessons and asks for the name. */
  lemma NoSkipsLessons(s: Session, input: string, reprompt: bool, now: int)
    requires s.step == GuidedLearning && s.lessonIndex == 0
    requires !KeywordIn(ToLower(input)) && Contains(ToLower(input), "no") && !Contains(ToLower(input), "yes")
    ensures Dispatch(s, input, reprompt, now)
            == s.(step := GetName, messages := s.messages + [FromUser(input)] + [FromBot(LeadPrompt, false)])
  {
  }

  /** "next" in any letter case moves from lesson 1 to 2 and from 2 to 3, and shows it. */
  lemma NextAdvances(s: Session, input: string, reprompt: bool, now: int)
    requires s.step == GuidedLearning && s.lessonIndex < |Lessons| - 1
    requires ToLower(input) == "next"
    ensures var i := s.lessonIndex;
      Dispatch(s, input, reprompt, now)
        == s.(lessonIndex := i + 1,
              messages := s.messages + [FromUser(input)] + [FromBot(Lessons[i + 1].shown, false)])
  {
    NextIsPlainInput();
    assert ToLower(Lessons[s.lessonIndex].nextTrigger) == "next";
  }

  /** "next" holds no termination keyword, no "yes" and no "no". */
  lemma NextIsPlainInput()
    ensures !KeywordIn("next") && !Contains("next", "yes") && !Contains("next", "no")
  {
    forall k | 0 <= k < |Keywords| ensures !ContainsAt("next", Keywords, k) {
      MissingChar("next", Keywords[k], [0, 2, 1, 1, 0, 0, 2, 0][k]);
    }
    MissingChar("next", "yes", 0);
    MissingChar("next", "no", 1);
  }

  /** Any other input in the lessons leaves the step and the cursor alone and repeats the
      token that moves on. */
  lemma OtherInputNudges(s: Session, input: string, reprompt: bool, now: int)
    requires s.step == GuidedLearning && s.lessonIndex < |Lessons| && !KeywordIn(ToLower(input))
    requires ToLower(input) != ToLower(Lessons[s.lessonIndex].nextTrigger)
    requires !(s.lessonIndex == 0 && (Contains(ToLower(input), "yes") || Contains(ToLower(input), "no")))
    ensures Dispatch(s, input, reprompt, now)
            == s.(messages := s.messages + [FromUser(input)] + [FromBot(Nudge(Lessons[s.lessonIndex].nextTrigger), false)])
  {
  }

  /** An input that lower-cases to "done" is always caught by the termination test, so
      the DONE branch of the lesson handler is never reached from handleSend; after the last
      lesson "done" reaches lead capture all the same, because no name is captured during
      the lessons. */
  lemma DoneStartsLeadCapture(s: Session, input: string, reprompt: bool, now: int)
    requires Consistent(s) && s.step == GuidedLearning && ToLower(input) == "done"
    ensures Dispatch(s, input, reprompt, now)
            == s.(step := GetName, messages := s.messages + [FromUser(input)] + [FromBot(LeadPrompt, false)])
  {
    KeywordTerminates(input, 4);
  }

  // ---------------------------------------------------------------------------
  // Lead capture

  /** The name is accepted exactly when it has at least two characters; a rejected name
      leaves everything but the transcript alone and adds one error entry. */
  lemma NameStep(s: Session, input: string, reprompt: bool, now: int)
    requires s.lessonIndex < |Lessons| && s.step == GetName
    ensures var t := Dispatch(s, input, reprompt, now);
      && (t.step == GetEmail <==> |input| >= 2)
      && (|input| >= 2 ==> t == s.(step := GetEmail, lead := s.lead.(name := input),
                                   messages := s.messages + [FromUser(input)] + [FromBot(EmailPrompt(input), false)]))
      && (|input| < 2 ==> t == s.(messages := s.messages + [FromUser(input)] + [FromBot(NameError, false)]))
  {
  }

  /** The e-mail is accepted exactly when it has the shape local@domain.tld with a single
      `@` and no white space. */
  lemma EmailStep(s: Session, input: string, reprompt: bool, now: int)
    requires s.lessonIndex < |Lessons| && s.step == GetEmail
    ensures var t := Dispatch(s, input, reprompt, now);
      && (t.step == GetPhone <==> exists i, j :: ChatEmailAt(input, i, j))
      && (t.step == GetPhone ==> t == s.(step := GetPhone, lead := s.lead.(email := input),
                                         messages := s.messages + [FromUser(input)] + [FromBot(PhonePrompt, false)]))
      && (t.step != GetPhone ==> t == s.(messages := s.messages + [FromUser(input)] + [FromBot(EmailError, false)]))
  {
    ChatEmailIff(input);
  }

  /** The phone number is accepted exactly when it holds at least seven digits, whatever
      else it holds; it is stored as typed, not as its digits. */
  lemma PhoneStep(s: Session, input: string, reprompt: bool, now: int)
    requires s.lessonIndex < |Lessons| && s.step == GetPhone
    ensures var t := Dispatch(s, input, reprompt, now);
      && (t.step == QueryOrEnd <==> DigitCount(input) >= 7)
      && (t.step == QueryOrEnd ==> t == s.(step := QueryOrEnd, lead := s.lead.(phone := input),
                                           messages := s.messages + [FromUser(input)] + [FromBot(DetailsSaved, true)]))
      && (t.step != QueryOrEnd ==> t == s.(messages := s.messages + [FromUser(input)] + [FromBot(PhoneError, false)]))
  {
    ChatPhoneIff(input);
  }

  // ---------------------------------------------------------------------------
  // General questions

  lemma {:induction false} RemoveIdConcat(a: seq<Message>, b: seq<Message>, id: int)
    ensures RemoveId(a + b, id) == RemoveId(a, id) + RemoveId(b, id)
    decreases |a|
  {
    if a == [] {
      assert a + b == b;
    } else {
      assert (a + b)[1..] == a[1..] + b;
      RemoveIdConcat(a[1..], b, id);
    }
  }

  lemma {:induction false} RemoveIdNoPlaceholder(ms: seq<Message>, id: int)
    requires NoPlaceholder(ms)
    ensures RemoveId(ms, id) == ms
    decreases |ms|
  {
    if ms != [] {
      assert NoPlaceholder(ms[1..]) by {
        forall i | 0 <= i < |ms| - 1 ensures !ms[1..][i].Typing? {
          assert ms[1..][i] == ms[i + 1];
        }
      }
      RemoveIdNoPlaceholder(ms[1..], id);
    }
  }

  /** The typing placeholder is removed again, and nothing else is. */
  lemma PlaceholderRemoved(ms: seq<Message>, now: int)
    requires NoPlaceholder(ms)
    ensures RemoveId(ms + [Typing(now)], now) == ms
  {
    RemoveIdConcat(ms, [Typing(now)], now);
    RemoveIdNoPlaceholder(ms, now);
  }

  /** A general question records the input, then the answer, then (when `reprompt`) the
      offer of the buttons; the placeholder leaves no trace. */
  lemma GeneralQueryFlow(s: Session, input: string, reprompt: bool, now: int)
    requires (s.step == Start || s.step == Closing) && s.lessonIndex < |Lessons|
    requires NoPlaceholder(s.messages) && !KeywordIn(ToLower(input))
    ensures var t, a := Dispatch(s, input, reprompt, now), GeneralAnswer(input);
      && t.lead == s.lead && t.lessonIndex == s.lessonIndex && t.loading == s.loading
      && t.step == (if reprompt then QueryOrEnd else Start)
      && t.messages == s.messages + [FromUser(input)] + [FromBot(a, false)]
                       + (if reprompt then [FromBot(OtherQuestions, true)] else [])
  {
    var ms := s.messages + [FromUser(input)];
    assert NoPlaceholder(ms);
    PlaceholderRemoved(ms, now);
  }

  lemma {:induction false} FirstHitConcat(a: seq<Topic>, b: seq<Topic>, q: string)
    ensures FirstHit(a + b, q) ==
      match FirstHit(a, q)
      case Some(i) => Some(i)
      case None => (match FirstHit(b, q) case Some(j) => Some(|a| + j) case None => None)
    decreases |a|
  {
    if a == [] {
      assert a + b == b;
    } else {
      assert (a + b)[0] == a[0];
      assert (a + b)[1..] == a[1..] + b;
      FirstHitConcat(a[1..], b, q);
    }
  }

  /** A row with two aliases hits exactly when one of the two occurs. */
  lemma HitsPair(a: string, b: string, reply: Say, q: string)
    ensures Hits(Topic([a, b], reply), q) <==> Contains(q, a) || Contains(q, b)
  {
    if Contains(q, a) {
      assert ContainsAt(q, [a, b], 0);
    } else if Contains(q, b) {
      assert ContainsAt(q, [a, b], 1);
    }
  }

  /** The classifier's if-chain is the first-match rule over its table, with the echo of
      the prompt as the fallback. */
  lemma ClassifyIsFirstRule(prompt: string)
    ensures var h := FirstHit(ClassifierRules, ToLower(prompt));
      Classify(prompt) == if h.Some? then ClassifierRules[h.value].reply else Echo(prompt)
  {
    var q := ToLower(prompt);
    HitsPair("food", "eat", FoodAnswer, q);
    HitsPair("travel", "go", GoAnswer, q);
    HitsPair("please", "kindly", PleaseAnswer, q);
  }

  /** A general question is answered by the first row that matches in one table: the
      keyword table followed by the classifier's rules; if none matches, by the echo. */
  lemma GeneralAnswerIsFirstRow(input: string)
    ensures var table := Topics + ClassifierRules;
      var h := FirstHit(table, ToLower(input));
      GeneralAnswer(input) == if h.Some? then table[h.value].reply else Echo(input)
  {
    FirstHitConcat(Topics, ClassifierRules, ToLower(input));
    ClassifyIsFirstRule(input);
  }

  // ---------------------------------------------------------------------------
  // The invariant

  lemma InitialConsistent()
    ensures Consistent(Initial) && InputEnabled(Initial)
  {
  }

  /** The lesson handler keeps the session consistent whatever the duplicate check says. */
  lemma GuidedKeepsConsistent(s: Session, input: string, shown: bool)
    requires Consistent(s) && s.step == GuidedLearning
    ensures Consistent(GuidedWith(s, input, shown))
  {
  }

  lemma LeadCaptureKeepsConsistent(s: Session, input: string)
    requires Consistent(s) && InLeadCapture(s.step)
    ensures Consistent(LeadCapture(s, input))
  {
  }

  /** Every branch of handleSend keeps the session consistent: the cursor stays in the
      lesson table, no placeholder is left behind, and the lead matches the step. */
  lemma DispatchKeepsConsistent(s: Session, input: string, reprompt: bool, now: int)
    requires Consistent(s)
    ensures Consistent(Dispatch(s, input, reprompt, now))
  {
    var s1 := Append(s, FromUser(input));
    assert NoPlaceholder(s1.messages);
    if KeywordIn(ToLower(input)) && !InLeadCapture(s.step) {
      TerminationRoute(s, input, reprompt, now);
    } else if s.step == GuidedLearning {
      GuidedKeepsConsistent(s1, input, LessonOneShownAsWritten(s.messages));
    } else if InLeadCapture(s.step) {
      LeadCaptureKeepsConsistent(s1, input);
    } else if s.step != QueryOrEnd {
      GeneralQueryFlow(s, input, reprompt, now);
    }
  }

  lemma SendKeepsConsistent(s: Session, raw: string, reprompt: bool, now: int)
    requires Consistent(s)
    ensures Consistent(Send(s, raw, reprompt, now))
  {
    var input := Trim(raw);
    if input != [] && !s.loading {
      DispatchKeepsConsistent(s, input, reprompt, now);
    }
  }

  /** The buttons keep the session consistent. */
  lemma ClickKeepsConsistent(s: Session, option: Choice)
    requires Consistent(s) && s.step == QueryOrEnd
    ensures Consistent(Click(s, option))
  {
  }

  /** "No, please close" says goodbye and closes; "Yes, I have a query" invites the
      question and returns to free questions. Either way the choice is recorded first, no
      reply is left pending, and the lead and the cursor stay as they were. */
  lemma ClickOutcome(s: Session, option: Choice)
    ensures var t := Click(s, option);
      && t.step == (if option == No then Closing else Start)
      && t.messages == s.messages + [FromUser(ChoiceLabel(option))]
                       + [if option == No then FromBot(Farewell, false) else FromBot(GoAhead, false)]
      && t.lead == s.lead && t.lessonIndex == s.lessonIndex && !t.loading
  {
  }

  /** The lesson handler only appends to the transcript and leaves the lead alone. */
  lemma GuidedAppends(s: Session, input: string, shown: bool)
    requires s.lessonIndex < |Lessons|
    ensures var t := GuidedWith(s, input, shown);
      s.messages <= t.messages && t.lead == s.lead
  {
  }

  /** handleSend only ever appends to the transcript. */
  lemma DispatchExtendsTranscript(s: Session, input: string, reprompt: bool, now: int)
    requires Consistent(s)
    ensures s.messages <= Dispatch(s, input, reprompt, now).messages
  {
    var s1 := Append(s, FromUser(input));
    if KeywordIn(ToLower(input)) && !InLeadCapture(s.step) {
    } else if s.step == GuidedLearning {
      GuidedAppends(s1, input, LessonOneShownAsWritten(s.messages));
    } else if !InLeadCapture(s.step) && s.step != QueryOrEnd {
      GeneralQueryFlow(s, input, reprompt, now);
    }
  }

  /** Each lead field is written once, by its own step, in the order name, e-mail, phone,
      and each is written with a non-empty value. */
  lemma LeadWrittenInOrder(s: Session, input: string, reprompt: bool, now: int)
    requires Consistent(s)
    ensures var t := Dispatch(s, input, reprompt, now);
      && (t.lead.name != s.lead.name ==> s.step == GetName && t.step == GetEmail && s.lead.name == "" != t.lead.name)
      && (t.lead.email != s.lead.email ==> s.step == GetEmail && t.step == GetPhone && s.lead.name != "" && s.lead.email == "" != t.lead.email)
      && (t.lead.phone != s.lead.phone ==> s.step == GetPhone && t.step == QueryOrEnd && s.lead.email != "" && s.lead.phone == "" != t.lead.phone)
  {
    DispatchKeepsConsistent(s, input, reprompt, now);
    if s.step == GuidedLearning {
      GuidedAppends(Append(s, FromUser(input)), input, LessonOneShownAsWritten(s.messages));
    }
  }

  /** Once the phone number is captured the lead never changes again. */
  lemma LeadFrozenOnceComplete(s: Session, input: string, reprompt: bool, now: int, option: Choice)
    requires Consistent(s) && s.lead.phone != ""
    ensures Dispatch(s, input, reprompt, now).lead == s.lead
    ensures Click(s, option).lead == s.lead
  {
    LeadWrittenInOrder(s, input, reprompt, now);
  }

  /** The lesson cursor moves only forward, one lesson at a time, and only on "next". */
  lemma LessonCursorMoves(s: Session, input: string, reprompt: bool, now: int)
    requires Consistent(s)
    ensures var t := Dispatch(s, input, reprompt, now);
      || t.lessonIndex == s.lessonIndex
      || (t.lessonIndex == s.lessonIndex + 1 && s.step == GuidedLearning
          && t.step == GuidedLearning && ToLower(input) == "next")
  {
    if s.step == GuidedLearning {
      GuidedCursorMoves(Append(s, FromUser(input)), input, LessonOneShownAsWritten(s.messages));
    }
  }

  /** The lesson handler moves the cursor at most one lesson on, on "next". */
  lemma GuidedCursorMoves(s: Session, input: string, shown: bool)
    requires s.lessonIndex < |Lessons|
    ensures var t := GuidedWith(s, input, shown);
      || t.lessonIndex == s.lessonIndex
      || (t.lessonIndex == s.lessonIndex + 1 && t.step == GuidedLearning && ToLower(input) == "next")
  {
    if GuidedWith(s, input, shown).lessonIndex != s.lessonIndex {
      assert s.lessonIndex < 2 && Lessons[s.lessonIndex].nextTrigger == "NEXT";
    }
  }

  // ---------------------------------------------------------------------------
  // The lesson-1 duplicate check

  /** The text the source's check looks for: the first line of lesson 1. */
  lemma LessonOneFirstLine()
    ensures Before(ReplyText(Lesson1), '\n') == LessonOneHeader
  {
    assert '\n' !in LessonOneHeader;
    BeforeOfConcat(LessonOneHeader, '\n', LessonOneBody);
  }

  /** The session after the visitor's first "yes": lesson 1 is on screen. */
  const AfterYes: Session :=
    Initial.(messages := Initial.messages + [FromUser("yes")] + [FromBot(Lesson1, false)])

  /** "yes" holds no termination keyword. */
  lemma YesIsPlainInput()
    ensures ToLower("yes") == "yes" && !KeywordIn("yes") && Contains("yes", "yes")
  {
    assert ToLower("yes") == "yes";
    forall k | 0 <= k < |Keywords| ensures !ContainsAt("yes", Keywords, k) {
      MissingChar("yes", Keywords[k], [1, 1, 0, 0, 0, 0, 1, 0][k]);
    }
    ContainsPrefix("yes", "yes");
  }

  /** With the check corrected, the first "yes" shows lesson 1 and a second "yes" only
      says that lesson 1 is on screen. */
  lemma YesTwice()
    ensures Dispatch(Initial, "yes", false, 0) == AfterYes
    ensures LessonOneShown(AfterYes.messages)
    ensures Guided(Append(AfterYes, FromUser("yes")), "yes", AfterYes.messages).messages
            == AfterYes.messages + [FromUser("yes")] + [FromBot(AlreadyOnLessonOne, false)]
  {
    YesIsPlainInput();
    YesShowsLessonOne(Initial, "yes", false, 0);
    assert AfterYes.messages[2] == FromBot(Lesson1, false);
  }

  /** As written, the check looks at the second transcript entry, which is the visitor's
      first input; so after "yes" has shown lesson 1, a second "yes" shows it again. */
  lemma RepeatedYesAsWritten()
    ensures !LessonOneShownAsWritten(AfterYes.messages)
    ensures Dispatch(AfterYes, "yes", false, 0).messages
            == AfterYes.messages + [FromUser("yes")] + [FromBot(Lesson1, false)]
  {
    assert AfterYes.messages[1] == FromUser("yes");
    ContainsTooLong("yes", Before(ReplyText(Lesson1), '\n')) by {
      LessonOneFirstLine();
    }
    YesIsPlainInput();
    YesShowsLessonOne(AfterYes, "yes", false, 0);
  }
}
