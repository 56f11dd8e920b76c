# Hindi academy site: a verified model of its logic

This project models the parts of the academy's web site that hold real logic. Each is stated in Dafny and its behaviour is proved.

- **Chat widget.** The floating assistant is a small state machine over the steps START, GUIDED_LEARNING, GET_NAME, GET_EMAIL, GET_PHONE, QUERY_OR_END and CLOSING. It walks a visitor through three mini-lessons and captures a lead (name, e-mail, phone). It answers free questions from a keyword table and a canned classifier. The visitor can end the talk with a termination keyword or with the Yes/No buttons.
- **Course player.** A (module, video) cursor, the expanded modules of the sidebar, per-video completion flags and the overall percentage.
- **Course list and course details.** Search and level filtering, the progress figure of each course, the "enrolled courses" panel, and enrolment.
- **Admin panel.** Status updates and deletion by id, the two summary counts, and the status badge colour.
- **Forms.** The appointment, sign-up and login forms: the error record `validate` builds field by field, and the submit and change handlers.
- **Learn page.** The lesson cursor that steps around the ten lessons, and the level badge colours.

Each handler that updates component state in place is a method of a class whose fields are that state. Each such method is proved to leave the fields exactly as a pure function of the old state describes. The properties are then proved as lemmas about those functions. Browser storage is a set of in-memory fields, or parameters holding what storage returned.

| file | module | models |
|---|---|---|
| chat_spec.dfy | ChatSpec | steps, lessons, keyword and classifier tables, validators, one function per chat handler |
| chat_engine.dfy | ChatEngine | class `Conversation`, the chat handlers on fields |
| chat_properties.dfy | ChatProperties | routing, lessons, lead capture, general questions, the invariant, the lesson-1 check |
| text.dfy | Text | `trim`, `toLowerCase` (ASCII), `includes`, `split(c)[0]`, `replace(/\D/g, '')` |
| patterns.dfy | Patterns | the four e-mail regular expressions and the phone rules, and how they differ |
| wrappers.dfy | Wrappers | `Option`, and the `|| []` default for a missing storage key |
| lists.dfy | Lists | removal, no-duplicate lists, append-if-absent |
| catalog.dfy | Catalog | the course records, video counts, completion counts, `Math.round` percentages |
| player.dfy | Player | the course player, as functions and as class `CoursePlayer` |
| courses.dfy | Courses | filtering, progress figures, enrolled panel, enrolment (class `Store`) |
| admin.dfy | Admin | list updates and counts, class `AdminPanel` |
| validation.dfy | Validation | the blank, required, chosen and ten-digit-phone rules shared by two forms |
| appointment_form.dfy | AppointmentForm | the appointment form, class `Page` |
| signup_form.dfy | SignupForm | the sign-up form, class `Page` |
| login_form.dfy | LoginForm | the login form, class `Page` |
| learn.dfy | Learn | the Learn page's cursor and badge colours |

Where a description of the system and the code disagree, the model follows the code:

- Off-token input during a lesson only nudges the visitor to type the lesson's token. It does not answer the input as a question.
- No suggestion-buttons step follows the phone number. The flow goes straight to QUERY_OR_END with the Yes/No buttons.
- "done" is itself a termination keyword, and the termination test runs first. So typing DONE in a lesson reaches lead capture through the termination branch; the DONE branch of the lesson handler is never reached (`ChatProperties.DoneStartsLeadCapture`).
- A keyword anywhere inside a word also ends the talk ("weekend" holds "end").
- The termination test applies in QUERY_OR_END too. Only the three lead-capture steps are exempt.
- "yes" on the Yes/No buttons returns to free questions (START).
- The stored phone number is the raw input, not its digits.

## Model

| member | source | states |
|---|---|---|
| ChatEngine.Conversation.constructor | src/components/WhatsAppFloat.tsx:62-77 | the widget starts in GUIDED_LEARNING at lesson 0, with an empty lead, the greeting as the only entry, and no reply pending; this state is consistent |
| ChatEngine.Conversation.BotReply | src/components/WhatsAppFloat.tsx:191-198 | appends one assistant entry and changes the step only when a new step is given |
| ChatEngine.Conversation.StartLeadCapture | src/components/WhatsAppFloat.tsx:201-204 | appends the name prompt and moves to GET_NAME |
| ChatEngine.Conversation.HandleGuidedLearning | src/components/WhatsAppFloat.tsx:206-243 | the fields end as `ChatSpec.GuidedAsWritten` says, with the lesson-1 check as written: "yes"/"no" at lesson 0, the token that moves on, the nudge otherwise |
| ChatEngine.Conversation.HandleLeadCapture | src/components/WhatsAppFloat.tsx:247-306 | the fields end as `ChatSpec.LeadCapture` says: one field validated and stored, or one error entry |
| ChatEngine.Conversation.HandleGeneralQuery | src/components/WhatsAppFloat.tsx:396-419 | placeholder added then filtered out, answer appended, and the re-prompt only when the random draw says so |
| ChatEngine.Conversation.Dispatch | src/components/WhatsAppFloat.tsx:351-419 | the fields end as `ChatSpec.Dispatch` says: the input is recorded and routed in the source's order (termination test, lessons with the lesson-1 check as written, lead capture, QUERY_OR_END, general question) |
| ChatEngine.Conversation.Send | src/components/WhatsAppFloat.tsx:347-427 | handleSend leaves the fields as `ChatSpec.Send` says (lesson-1 check as written) and keeps the session consistent |
| ChatEngine.Conversation.Click | src/components/WhatsAppFloat.tsx:309-322 | the button handler leaves the fields as `ChatSpec.Click` says and keeps the session consistent |
| ChatSpec.FirstHit | src/components/WhatsAppFloat.tsx:174-183 | the first row in table order that has an alias occurring in the input, or none exactly when no row matches |
| ChatProperties.TerminationTestOnTrimmed | src/components/WhatsAppFloat.tsx:185-188 | on trimmed input, the test holds iff a keyword occurs as a substring of the lower-cased input |
| ChatProperties.KeywordTerminates | src/components/WhatsAppFloat.tsx:185-188 | each of the eight keywords, in any letter case, passes the test |
| ChatProperties.KeywordInsideWordTerminates | src/components/WhatsAppFloat.tsx:187 | "weekend" passes the test, since the match is by substring |
| ChatProperties.InLeadCaptureIff | src/components/WhatsAppFloat.tsx:5-13 | the numeric range test on steps picks exactly GET_NAME, GET_EMAIL and GET_PHONE |
| ChatProperties.SendIgnoresBlank | src/components/WhatsAppFloat.tsx:348-349 | white-space-only input, or input while a reply is pending, changes nothing; other input is dispatched trimmed |
| ChatProperties.TerminationRoute | src/components/WhatsAppFloat.tsx:352-368 | outside lead capture a keyword records the input, then asks for the name (no name yet) or says goodbye and closes |
| ChatProperties.KeywordTakenAsName | src/components/WhatsAppFloat.tsx:352 | in GET_NAME, "Done" is stored as the name although it is a keyword |
| ChatProperties.TypingInQueryOrEnd | src/components/WhatsAppFloat.tsx:390-394 | typed non-keyword text in QUERY_OR_END only points at the buttons; the step stays |
| ChatProperties.YesShowsLessonOne | src/components/WhatsAppFloat.tsx:211-219 | "yes" at lesson 0 shows lesson 1, unless the second transcript entry holds lesson 1's first line (then it says lesson 1 is on screen); the cursor stays at 0 |
| ChatProperties.NoSkipsLessons | src/components/WhatsAppFloat.tsx:220-223 | "no" without "yes" at lesson 0 goes to GET_NAME with the name prompt |
| ChatProperties.NextAdvances | src/components/WhatsAppFloat.tsx:228-238 | "next" in any case moves the cursor one lesson on and shows that lesson |
| ChatProperties.NextIsPlainInput | src/components/WhatsAppFloat.tsx:187 | "next" holds no keyword, no "yes" and no "no" |
| ChatProperties.OtherInputNudges | src/components/WhatsAppFloat.tsx:239-242 | any other lesson input leaves step and cursor alone and appends one nudge naming the lesson's token |
| ChatProperties.DoneStartsLeadCapture | src/components/WhatsAppFloat.tsx:229-231 | "done" in a lesson reaches GET_NAME through the termination branch (352-359), never through 229 |
| ChatProperties.NameStep | src/components/WhatsAppFloat.tsx:253-262 | the name is accepted iff it has at least two characters; a rejection adds one error entry and changes nothing else |
| ChatProperties.EmailStep | src/components/WhatsAppFloat.tsx:264-273 | the e-mail is accepted iff it splits as local@domain.tld with a single `@` and no white space |
| ChatProperties.PhoneStep | src/components/WhatsAppFloat.tsx:275-298 | the phone is accepted iff at least seven positions of the input hold a digit (`DigitCount`); it is stored as typed; QUERY_OR_END follows, with buttons |
| ChatProperties.RemoveIdConcat | src/components/WhatsAppFloat.tsx:403 | the filter by id works piece by piece |
| ChatProperties.RemoveIdNoPlaceholder | src/components/WhatsAppFloat.tsx:403 | the filter removes nothing from a transcript with no placeholder |
| ChatProperties.PlaceholderRemoved | src/components/WhatsAppFloat.tsx:397-403 | the "Typing..." placeholder is removed again, and nothing else is |
| ChatProperties.GeneralQueryFlow | src/components/WhatsAppFloat.tsx:396-419 | a free question records the input, the answer and (with the random draw) the buttons, leaving no placeholder |
| ChatProperties.FirstHitConcat | src/components/WhatsAppFloat.tsx:174-183 | the first match in two tables joined is the first in the first table, else the first in the second |
| ChatProperties.HitsPair | src/components/WhatsAppFloat.tsx:139-144 | a two-alias row matches iff one of the two occurs |
| ChatProperties.ClassifyIsFirstRule | src/components/WhatsAppFloat.tsx:132-152 | the classifier's if-chain is the first-match rule food/eat, travel/go, please/kindly, with the echo as fallback |
| ChatProperties.GeneralAnswerIsFirstRow | src/components/WhatsAppFloat.tsx:326-344 | an answer is the first matching row of the keyword table followed by the classifier rules, else the echo |
| ChatProperties.InitialConsistent | src/components/WhatsAppFloat.tsx:63-77 | the initial session is consistent and accepts typing |
| ChatProperties.GuidedKeepsConsistent | src/components/WhatsAppFloat.tsx:206-243 | the lesson handler keeps the cursor in the lesson table and the lead empty, whatever the lesson-1 check says |
| ChatProperties.LeadCaptureKeepsConsistent | src/components/WhatsAppFloat.tsx:247-306 | lead capture keeps the captured fields matching the step |
| ChatProperties.DispatchKeepsConsistent | src/components/WhatsAppFloat.tsx:351-419 | every branch of handleSend keeps the session consistent |
| ChatProperties.SendKeepsConsistent | src/components/WhatsAppFloat.tsx:347-427 | handleSend keeps the session consistent |
| ChatProperties.ClickKeepsConsistent | src/components/WhatsAppFloat.tsx:309-322 | the buttons keep the session consistent |
| ChatProperties.ClickOutcome | src/components/WhatsAppFloat.tsx:309-322 | "no" says goodbye and goes to CLOSING; "yes" invites the question and goes to START; the choice is recorded first |
| ChatProperties.DispatchExtendsTranscript | src/components/WhatsAppFloat.tsx:351-419 | handleSend only appends to the transcript |
| ChatProperties.LeadWrittenInOrder | src/components/WhatsAppFloat.tsx:252-298 | each lead field is written once, by its own step, in the order name, e-mail, phone, with a non-empty value |
| ChatProperties.LeadFrozenOnceComplete | src/components/WhatsAppFloat.tsx:252-322 | once the phone is captured neither typing nor the buttons change the lead |
| ChatProperties.LessonCursorMoves | src/components/WhatsAppFloat.tsx:228-238 | the cursor moves only forward, by one, and only on "next" in a lesson |
| ChatProperties.GuidedAppends | src/components/WhatsAppFloat.tsx:206-243 | the lesson handler only appends to the transcript and never touches the lead |
| ChatProperties.GuidedCursorMoves | src/components/WhatsAppFloat.tsx:228-238 | the lesson handler moves the cursor by at most one, on "next" |
| ChatProperties.LessonOneFirstLine | src/components/WhatsAppFloat.tsx:215 | the text the duplicate check looks for is the first line of lesson 1 |
| ChatProperties.YesIsPlainInput | src/components/WhatsAppFloat.tsx:187 | "yes" is lower case, holds no termination keyword, and holds "yes" |
| ChatProperties.YesTwice | src/components/WhatsAppFloat.tsx:211-219 | the first "yes" shows lesson 1; after it, the corrected check `ChatSpec.Guided` finds lesson 1 on screen and a second "yes" only says so |
| ChatProperties.RepeatedYesAsWritten | src/components/WhatsAppFloat.tsx:215 | as written (which `Dispatch` and the class run), the check reads the visitor's first input, so a second "yes" shows lesson 1 again |
| Text.ToLowerIsLower | src/components/WhatsAppFloat.tsx:207 | lower-casing keeps the length and leaves no upper-case letter |
| Text.ToLowerOfLower | src/components/WhatsAppFloat.tsx:207 | lower-casing a lower-case string changes nothing |
| Text.ToLowerSpace | src/components/WhatsAppFloat.tsx:186 | lower-casing keeps every white-space position |
| Text.LeadingSpaces | src/components/WhatsAppFloat.tsx:348 | the white space `trim` strips at the start is no longer than the string |
| Text.TrailingSpaces | src/components/WhatsAppFloat.tsx:348 | the white space `trim` strips at the end is no longer than the string |
| Text.LeadingSpacesFacts | src/components/WhatsAppFloat.tsx:348 | what trimming strips at the start is white space, and it stops at the first other character |
| Text.TrailingSpacesFacts | src/components/WhatsAppFloat.tsx:348 | what trimming strips at the end is white space, and it stops at the last other character |
| Text.LeadingSpacesAll | src/components/WhatsAppFloat.tsx:348 | the leading white space covers the string iff it is all white space |
| Text.TrailingSpacesAll | src/components/WhatsAppFloat.tsx:348 | the trailing white space covers the string iff it is all white space |
| Text.TrimTrimmed | src/components/WhatsAppFloat.tsx:348 | what `trim` returns neither starts nor ends with white space |
| Text.TrimEmptyIffAllSpace | src/components/WhatsAppFloat.tsx:348-349 | `!s.trim()` holds iff the string is white space only |
| Text.NonBlankExtended | src/pages/CourseList.tsx:40 | text appended to a non-blank string leaves it non-blank |
| Text.TrimFixed | src/components/WhatsAppFloat.tsx:186 | trimming an already trimmed string changes nothing |
| Text.TrimIdempotent | src/components/WhatsAppFloat.tsx:186 | trimming twice is trimming once |
| Text.ContainsIff | src/components/WhatsAppFloat.tsx:178 | `includes` holds iff the pattern occurs at some position |
| Text.ContainsPrefix | src/components/WhatsAppFloat.tsx:178 | a string includes each of its prefixes |
| Text.ContainsInConcat | src/components/WhatsAppFloat.tsx:178 | an occurrence survives text added on either side |
| Text.MissingChar | src/components/WhatsAppFloat.tsx:178 | a pattern with a character the string lacks never occurs |
| Text.ContainsTooLong | src/components/WhatsAppFloat.tsx:215 | a pattern longer than the string never occurs |
| Text.Before | src/components/WhatsAppFloat.tsx:215 | `split(c)[0]` is the longest `c`-free prefix, ended by a `c` or by the end |
| Text.BeforeOfConcat | src/components/WhatsAppFloat.tsx:215 | `split(c)[0]` of h + c + rest is h when h has no `c` |
| Text.Digits | src/components/WhatsAppFloat.tsx:276 | `replace(/\D/g, '')` leaves only digits and is no longer than the input |
| Text.DigitsKeepsDigits | src/components/WhatsAppFloat.tsx:276 | the filter keeps each digit of the input exactly as often as the input holds it, and no other character |
| Text.DigitsConcat | src/components/WhatsAppFloat.tsx:276 | the filter works piece by piece, so the digits keep their order |
| Text.DigitsLength | src/components/WhatsAppFloat.tsx:276 | the filtered string has one character per digit position of the input |
| Text.DigitsOfDigits | src/components/WhatsAppFloat.tsx:276 | stripping a string of digits changes nothing |
| Patterns.ChatEmailIff | src/components/WhatsAppFloat.tsx:84 | the chat pattern matches iff the string is local@domain.tld, each part non-empty, a single `@`, no white space |
| Patterns.AppointmentEmailIff | src/pages/BookAppointment.tsx:156 | `^\S+@\S+\.\S+$` matches iff the string has no white space and splits as x@y.z with x, y, z non-empty |
| Patterns.SignupEmailIff | src/pages/Signup.tsx:173 | `^\S+@\S+$` matches iff the string has no white space and splits as x@y with x, y non-empty |
| Patterns.DotScanIff | src/pages/Login.tsx:31 | the matcher's search for `\.\S` after a non-white-space run succeeds iff such a `.` exists |
| Patterns.AtScanIff | src/pages/Login.tsx:31 | the matcher's search for the `@` from a position succeeds iff a match has its `@` there or later |
| Patterns.LoginEmailIff | src/pages/Login.tsx:31 | the unanchored `\S+@\S+\.\S+` matches iff some stretch of the string reads x@y.z without white space |
| Patterns.ChatPhoneIff | src/components/WhatsAppFloat.tsx:85 | `/^\d{7,}$/` on the filtered input holds iff at least seven positions of the input hold a digit, whatever else it holds |
| Patterns.ChatEmailImpliesAppointmentEmail | src/pages/BookAppointment.tsx:156 | every address the chat accepts is accepted by the appointment form |
| Patterns.AppointmentEmailImpliesSignupEmail | src/pages/Signup.tsx:173 | every address the appointment form accepts is accepted by the sign-up form |
| Patterns.AppointmentEmailImpliesLoginEmail | src/pages/Login.tsx:31 | every appointment-form address, with any text around it, is accepted by the login form |
| Patterns.NoDotSeparatesSignupFromAppointment | src/pages/Signup.tsx:173 | "a@b" passes the sign-up rule and fails the appointment rule |
| Patterns.SecondAtSeparatesAppointmentFromChat | src/pages/BookAppointment.tsx:156 | "a@b@c.d" passes the appointment rule and fails the chat rule |
| Patterns.SpaceSeparatesLoginFromAppointment | src/pages/Login.tsx:31 | " a@b.c" passes the login rule and fails the appointment rule |
| Wrappers.OrEmpty | src/pages/AdminPanel.tsx:52-53 | a missing storage key reads as the empty list, a stored one as itself |
| Lists.Remove | src/pages/CoursePlayer.tsx:57 | `filter(x => x !== id)` drops exactly the occurrences of the id and keeps the rest |
| Lists.RemoveAbsent | src/pages/CoursePlayer.tsx:57 | removing an absent id changes nothing |
| Lists.RemoveNoDup | src/pages/CoursePlayer.tsx:57 | removing keeps a duplicate-free list duplicate-free |
| Lists.RemoveConcat | src/pages/CoursePlayer.tsx:57 | removing works piece by piece |
| Lists.AppendFreshNoDup | src/pages/CoursePlayer.tsx:59-60 | appending an absent id keeps the list duplicate-free |
| Lists.AddIfAbsent | src/pages/CoursePlayer.tsx:69 | append-if-absent contains the id and every earlier entry |
| Lists.AddIfAbsentProperties | src/pages/CourseList.tsx:73-76 | append-if-absent adds the id at the end only when absent, keeps the list duplicate-free, and is idempotent |
| Catalog.VideoCountIsAllVideos | src/pages/CoursePlayer.tsx:80 | the video count is the number of videos in playing order |
| Catalog.VideoCountConcat | src/pages/CoursePlayer.tsx:80 | counting works module list by module list |
| Catalog.VideoCountStep | src/pages/CoursePlayer.tsx:80 | counting up to module m + 1 adds the videos of module m |
| Catalog.CompletedCountAfterMark | src/pages/CoursePlayer.tsx:76-81 | marking a video adds one to the completed count, or nothing if it was already complete |
| Catalog.RoundPercent | src/pages/CoursePlayer.tsx:82 | `Math.round(c / d * 100)` taken in exact arithmetic: the nearest integer to the exact 100c/d, halves rounded up (the source's double arithmetic can differ on a true half, see "## Left out") |
| Catalog.PercentBounds | src/pages/CoursePlayer.tsx:82 | with c within d the percentage is in [0, 100], 100 for all and 0 for none |
| Catalog.PercentMonotone | src/pages/CoursePlayer.tsx:82 | more completed videos never show a smaller percentage |
| Catalog.OverallProgressBounds | src/pages/CoursePlayer.tsx:80-82 | overall progress, with at most as many completed entries as videos, is in [0, 100] and 100 when all are complete |
| Player.OutOfRangeModuleFallsBack | src/pages/CoursePlayer.tsx:52-53 | an out-of-range module index shows the video at the same position of module 0 |
| Player.VideoAtPosition | src/pages/CoursePlayer.tsx:52-53 | the video at (m, v) is the one at its position in playing order |
| Player.ToggleFlips | src/pages/CoursePlayer.tsx:55-62 | toggling flips the membership of that id only, and keeps the list duplicate-free |
| Player.ToggleTwice | src/pages/CoursePlayer.tsx:55-62 | toggling twice restores membership; a collapsed module's list comes back exactly, an expanded one moves to the end |
| Player.OpenedKeepsInvariant | src/pages/CoursePlayer.tsx:31-41 | the opening state keeps the invariant |
| Player.HandlersKeepInvariant | src/pages/CoursePlayer.tsx:55-122 | every handler keeps the cursor's module in range and the expanded list duplicate-free |
| Player.SelectShows | src/pages/CoursePlayer.tsx:64-69 | selecting puts the cursor on the video, shows it, and expands its module |
| Player.AdvancePlaysNextInOrder | src/pages/CoursePlayer.tsx:111-122 | Next plays the next video in playing order, within the module or at the start of the next one |
| Player.AdvanceToNextModule | src/pages/CoursePlayer.tsx:115-121 | from a module's last video Next goes to (m + 1, 0), even when module m + 1 has no videos, and expands m + 1 without listing it twice; nothing expanded is collapsed; flags and auto-next stay |
| Player.AdvanceAtEndStays | src/pages/CoursePlayer.tsx:111-122 | at the last video of the last module Next changes nothing |
| Player.MarkSetsOneEntry | src/pages/CoursePlayer.tsx:76-78 | marking sets that video's entry to true, leaves every other entry, and is idempotent |
| Player.VideoEndedWithoutAutoNext | src/pages/CoursePlayer.tsx:84-89 | with auto-next off a finished video changes only the flags |
| Player.VideoEndedWithAutoNext | src/pages/CoursePlayer.tsx:84-109 | with auto-next on the video is marked and the cursor moves as Next moves it |
| Player.VideoZeroNotMarked | src/pages/CoursePlayer.tsx:86-87 | a video whose id is 0 is never marked, since 0 is falsy |
| Player.AllCompleteIff | src/pages/CoursePlayer.tsx:127-129 | a module is complete iff every one of its videos is marked |
| Player.CoursePlayer.constructor | src/pages/CoursePlayer.tsx:31-41 | the first module is expanded, the cursor is at (0, 0), the stored flags are loaded and auto-next is on |
| Player.CoursePlayer.ToggleModule | src/pages/CoursePlayer.tsx:55-62 | the expanded list becomes the toggled list, and nothing else changes |
| Player.CoursePlayer.SelectVideo | src/pages/CoursePlayer.tsx:64-69 | the fields end as `Select` says and the invariant holds |
| Player.CoursePlayer.MarkVideoComplete | src/pages/CoursePlayer.tsx:76-78 | only the flag of that video changes, to true |
| Player.CoursePlayer.MarkCurrentComplete | src/pages/CoursePlayer.tsx:211-213 | the current video is marked when there is one with a truthy id |
| Player.CoursePlayer.MoveToNext | src/pages/CoursePlayer.tsx:111-122 | the cursor moves as `Advance` says and the invariant holds |
| Player.CoursePlayer.PlayNext | src/pages/CoursePlayer.tsx:111-124 | handlePlayNext leaves the fields as `Advance` says |
| Player.CoursePlayer.VideoEnded | src/pages/CoursePlayer.tsx:84-109 | handleVideoEnded leaves the fields as `AfterVideoEnded` says |
| Player.CoursePlayer.ToggleAutoNext | src/pages/CoursePlayer.tsx:186 | the check box flips auto-next and nothing else |
| Courses.SearchFilter | src/pages/CourseList.tsx:40-43 | every kept course matches the query in title or description, and every matching course is kept |
| Courses.LevelFilterOf | src/pages/CourseList.tsx:44 | every kept course has the level, and every course with the level is kept |
| Courses.FilteredIff | src/pages/CourseList.tsx:38-44 | a course is listed iff it is in the catalogue, matches a non-blank (lower-cased, untrimmed) query, and has the chosen level |
| Courses.SearchFilterSub | src/pages/CourseList.tsx:42 | the search never lists a course more often than the catalogue holds it |
| Courses.LevelFilterSub | src/pages/CourseList.tsx:44 | the level filter never lists a course more often than the catalogue holds it |
| Courses.FilteredSub | src/pages/CourseList.tsx:38-49 | the list shown is a sub-multiset of the catalogue |
| Courses.SearchFilterConcat | src/pages/CourseList.tsx:42 | the search works piece by piece |
| Courses.LevelFilterConcat | src/pages/CourseList.tsx:44 | the level filter works piece by piece |
| Courses.FilteredConcat | src/pages/CourseList.tsx:38-44 | filtering keeps catalogue order |
| Courses.AllLevelsKeepsAll | src/pages/CourseList.tsx:44 | "All levels" keeps every course |
| Courses.BlankSearchListsAll | src/pages/CourseList.tsx:40-44 | a blank search with "All levels" lists the whole catalogue |
| Courses.FilteredSingle | src/pages/CourseList.tsx:38-44 | a one-course catalogue lists its course iff it passes both filters |
| Courses.LongQueryMisses | src/pages/CourseList.tsx:42 | a query longer than title and description matches neither |
| Courses.SearchIsNotTrimmed | src/pages/CourseList.tsx:40-42 | a title found by a search is lost once a trailing space is typed, since the query is not trimmed |
| Courses.ProgressMap | src/pages/CourseList.tsx:62-68 | the loop fills the figure table as `ProgressOf` describes (figures in exact arithmetic, see "## Left out") |
| Courses.ProgressOfKeys | src/pages/CourseList.tsx:62-68 | the table has an entry for exactly the ids of the catalogue |
| Courses.ProgressOfLast | src/pages/CourseList.tsx:62-68 | each entry is the exact round(100 · completed / (video count, or 1)) for the last course with that id (see "## Left out") |
| Courses.Find | src/pages/CourseList.tsx:150 | `find` returns the first course with the id, or nothing exactly when none has it |
| Courses.EnrolledPanel | src/pages/CourseList.tsx:149-152 | the panel has at most one line per enrolled id, each for an enrolled course in the catalogue |
| Courses.EnrolledPanelComplete | src/pages/CourseList.tsx:149-152 | every enrolled id still in the catalogue gets a line with its figure, 0 when it has none |
| Courses.WithEmptyProgress | src/pages/CourseList.tsx:78-80 | the course gets an empty record only when it has none; every existing record is kept |
| Courses.EnrollProperties | src/pages/CourseDetails.tsx:32-41 | after enrolling the course is enrolled; a new id goes at the end; no duplicates appear; no progress record is lost or changed |
| Courses.EnrollIdempotent | src/pages/CourseDetails.tsx:32-41 | enrolling twice leaves the same stores as enrolling once |
| Courses.Store.constructor | src/pages/CourseList.tsx:27-32 | missing storage keys read as an empty list and an empty progress table |
| Courses.Store.HandleEnroll | src/pages/CourseList.tsx:72-85 | both pages' handleEnroll leave the stores as `Enroll` says, and the course is enrolled |
| Admin.WithStatus | src/pages/AdminPanel.tsx:58-64 | the list keeps its length, ids and details; a status changes iff the record's id matches |
| Admin.Without | src/pages/AdminPanel.tsx:74-78 | the records kept are the records with another id, and every one of them is kept |
| Admin.WithStatusIdempotent | src/pages/AdminPanel.tsx:66-72 | setting a status twice is setting it once |
| Admin.CountAfterStatusChange | src/pages/AdminPanel.tsx:58-72 | a status change moves the records with that id from their old status to the new one; other counts stay |
| Admin.WithoutConcat | src/pages/AdminPanel.tsx:74-84 | deletion keeps the remaining records in order |
| Admin.WithoutCount | src/pages/AdminPanel.tsx:74-84 | deletion removes exactly as many records as carry the id; an unknown id changes nothing |
| Admin.ApproveMovesOne | src/pages/AdminPanel.tsx:58-64 | approving the one pending user with an id moves one from the pending figure to the approved figure |
| Admin.CountIdStatusBounded | src/pages/AdminPanel.tsx:145-160 | the records with an id are counted under at most one status each |
| Admin.StatusColors | src/pages/AdminPanel.tsx:86-93 | pending is yellow, approved and confirmed green, rejected and cancelled red, anything else gray; the four colours differ |
| Admin.AdminPanel.constructor | src/pages/AdminPanel.tsx:50-56 | the two lists are loaded from storage, missing keys reading as empty |
| Admin.AdminPanel.UpdateUserStatus | src/pages/AdminPanel.tsx:58-64 | the users become `WithStatus` of the old users and are saved; the appointments stay |
| Admin.AdminPanel.UpdateAppointmentStatus | src/pages/AdminPanel.tsx:66-72 | the appointments become `WithStatus` of the old appointments and are saved; the users stay |
| Admin.AdminPanel.DeleteUser | src/pages/AdminPanel.tsx:74-78 | the users become `Without` the id and are saved; the appointments stay |
| Admin.AdminPanel.DeleteAppointment | src/pages/AdminPanel.tsx:80-84 | the appointments become `Without` the id and are saved; the users stay |
| Validation.IsBlank | src/pages/BookAppointment.tsx:153 | `!v.trim()` holds iff the value is white space only |
| Validation.CheckRequired | src/pages/BookAppointment.tsx:153 | a blank value gives the message, any other value no error |
| Validation.CheckPhone | src/pages/BookAppointment.tsx:159-163 | a blank phone is "required", any other must be exactly ten digits |
| Validation.PhoneErrorIff | src/pages/BookAppointment.tsx:159-163 | a phone passes iff it is ten digits as typed; a non-blank failure is the invalid-number message |
| AppointmentForm.Set | src/pages/BookAppointment.tsx:187 | the named field takes the value; every other field keeps its own |
| AppointmentForm.Clear | src/pages/BookAppointment.tsx:188-190 | the named field loses its error; every other keeps its own |
| AppointmentForm.EmailErrorIff | src/pages/BookAppointment.tsx:154-158 | the e-mail passes iff it matches `^\S+@\S+\.\S+$`; the blank test adds nothing |
| AppointmentForm.AcceptedIff | src/pages/BookAppointment.tsx:150-170 | the form is accepted iff the name is not blank, the e-mail and phone pass, and type, date and time are chosen; the message plays no part |
| AppointmentForm.CheckEmail | src/pages/BookAppointment.tsx:154-158 | blank is "Email is required", otherwise a mismatch is "Invalid email address" |
| AppointmentForm.BuildErrors | src/pages/BookAppointment.tsx:151-166 | the record built field by field is the record `Check` describes |
| AppointmentForm.Page.constructor | src/pages/BookAppointment.tsx:18-28 | the form starts empty, with no errors, on the form screen |
| AppointmentForm.Page.Validate | src/pages/BookAppointment.tsx:150-170 | the errors become `Check` of the form; the result is true iff no field has an error |
| AppointmentForm.Page.Submit | src/pages/BookAppointment.tsx:172-183 | success shows the confirmation and clears the form and the errors; failure keeps the form and shows the errors |
| AppointmentForm.Page.Change | src/pages/BookAppointment.tsx:185-191 | only the named field and its error change |
| AppointmentForm.Page.BookAnother | src/pages/BookAppointment.tsx:281 | back to the form, the fields as they were |
| SignupForm.Set | src/pages/Signup.tsx:208 | the named field takes the value; every other field keeps its own |
| SignupForm.Clear | src/pages/Signup.tsx:210-212 | the named field loses its error; every other keeps its own |
| SignupForm.EmailErrorIff | src/pages/Signup.tsx:171-175 | the e-mail passes iff it matches `^\S+@\S+$` |
| SignupForm.AcceptedIff | src/pages/Signup.tsx:167-188 | accepted iff name, address and occupation are not blank, e-mail and phone pass, and date of birth and course type are chosen; experience, goals and preferred time play no part |
| SignupForm.LaxerThanAppointment | src/pages/Signup.tsx:173 | every e-mail the appointment form takes passes here, and "a@b" passes here alone |
| SignupForm.CheckEmail | src/pages/Signup.tsx:171-175 | blank is "Email is required", otherwise a mismatch is "Invalid email address" |
| SignupForm.BuildErrors | src/pages/Signup.tsx:168-184 | the record built field by field is the record `Check` describes |
| SignupForm.Page.constructor | src/pages/Signup.tsx:21-34 | the form starts empty, with no errors, on the form screen |
| SignupForm.Page.Validate | src/pages/Signup.tsx:167-188 | the errors become `Check` of the form; the result is true iff no field has an error |
| SignupForm.Page.Submit | src/pages/Signup.tsx:191-203 | success shows the confirmation and resets all ten fields; failure keeps the form; the errors are those `validate` stored |
| SignupForm.Page.Change | src/pages/Signup.tsx:206-213 | only the named field and its error change |
| SignupForm.Page.RegisterAnother | src/pages/Signup.tsx:242 | back to the form, the fields as they were |
| LoginForm.AcceptedIff | src/pages/Login.tsx:27-40 | login is accepted iff some stretch of the e-mail reads x@y.z without white space and the password has at least six characters |
| LoginForm.SurroundingTextAccepted | src/pages/Login.tsx:31 | an appointment-form address with any text around it passes the login e-mail rule |
| LoginForm.Page.constructor | src/pages/Login.tsx:8-15 | empty fields, no errors, not logged in, password hidden |
| LoginForm.Page.Validate | src/pages/Login.tsx:27-40 | the errors become `Check` of the form; the result is true iff there is no error |
| LoginForm.Page.Submit | src/pages/Login.tsx:45-59 | success sets the logged-in screen and clears both fields; failure keeps them; the errors are those `validate` stored |
| LoginForm.Page.Change | src/pages/Login.tsx:20-22 | only the named field changes; errors stay until the next submit |
| LoginForm.Page.ToggleShowPassword | src/pages/Login.tsx:127 | the eye button flips password visibility and nothing else |
| Learn.Next | src/pages/Learn.tsx:308-310 | nextLesson stays in [0, 10) |
| Learn.Prev | src/pages/Learn.tsx:312-314 | prevLesson stays in [0, 10) |
| Learn.NextSteps | src/pages/Learn.tsx:308-310 | forward steps one on, wrapping from 9 to 0 |
| Learn.PrevSteps | src/pages/Learn.tsx:312-314 | back steps one back, wrapping from 0 to 9 |
| Learn.RoundTrips | src/pages/Learn.tsx:308-314 | prev(next(i)) = i and next(prev(i)) = i for every lesson |
| Learn.NextTimes | src/pages/Learn.tsx:308-310 | k presses of next, from a lesson, stay among the ten lessons |
| Learn.NextTimesIsAdd | src/pages/Learn.tsx:308-310 | k presses of next move the cursor to (i + k) mod 10 |
| Learn.FullCircle | src/pages/Learn.tsx:308-310 | k presses come back to the same lesson iff k is a multiple of ten |
| Learn.LessonBadges | src/pages/Learn.tsx:299-306 | every lesson's level has its own colour (none is gray), and two lessons share a colour iff they share a level |
| ChatSpec.IsTerminationKeyword | src/components/WhatsAppFloat.tsx:185-188 | definition: a keyword occurs in the lower-cased, trimmed input (its meaning: `TerminationTestOnTrimmed`) |
| ChatSpec.LocalLookup | src/components/WhatsAppFloat.tsx:174-183 | definition: getResponse, the reply of the first keyword-table row the lower-cased input hits (`FirstHit`) |
| ChatSpec.Classify | src/components/WhatsAppFloat.tsx:132-152 | definition: the simulated classifier's branches in source order (`ClassifyIsFirstRule`) |
| ChatSpec.GeneralAnswer | src/components/WhatsAppFloat.tsx:326-344 | definition: the table's reply, else the classifier's (`GeneralAnswerIsFirstRow`) |
| ChatSpec.LessonOneShownAsWritten | src/components/WhatsAppFloat.tsx:215 | definition: the source's check, the second transcript entry holding lesson 1's first line (`RepeatedYesAsWritten`) |
| ChatSpec.GuidedAsWritten | src/components/WhatsAppFloat.tsx:206-243 | definition: handleGuidedLearning with the check as written (`YesShowsLessonOne`, `NextAdvances`, `OtherInputNudges`) |
| ChatSpec.Guided | src/components/WhatsAppFloat.tsx:206-243 | definition: handleGuidedLearning with the corrected check (`YesTwice`) |
| ChatSpec.LeadCapture | src/components/WhatsAppFloat.tsx:247-306 | definition: handleLeadCapture (`NameStep`, `EmailStep`, `PhoneStep`) |
| ChatSpec.General | src/components/WhatsAppFloat.tsx:396-419 | definition: the general-question flow (`GeneralQueryFlow`, `PlaceholderRemoved`) |
| ChatSpec.Dispatch | src/components/WhatsAppFloat.tsx:351-419 | definition: handleSend after the blank and loading guard (`TerminationRoute`, `DispatchKeepsConsistent`, `DispatchExtendsTranscript`) |
| ChatSpec.Send | src/components/WhatsAppFloat.tsx:347-427 | definition: handleSend (`SendIgnoresBlank`, `SendKeepsConsistent`) |
| ChatSpec.Click | src/components/WhatsAppFloat.tsx:309-322 | definition: handleButtonOptionClick (`ClickOutcome`, `ClickKeepsConsistent`) |
| Player.CurrentModule | src/pages/CoursePlayer.tsx:52 | definition: the module at the cursor, or module 0 when out of range (`OutOfRangeModuleFallsBack`) |
| Player.CurrentVideo | src/pages/CoursePlayer.tsx:53 | definition: the video under the cursor, if the position exists (`VideoAtPosition`) |
| Player.Toggle | src/pages/CoursePlayer.tsx:55-62 | definition: toggleModule on the expanded list (`ToggleFlips`, `ToggleTwice`) |
| Player.Select | src/pages/CoursePlayer.tsx:64-69 | definition: selectVideo (`SelectShows`) |
| Player.Advance | src/pages/CoursePlayer.tsx:111-122 | definition: handlePlayNext (`AdvancePlaysNextInOrder`, `AdvanceToNextModule`, `AdvanceAtEndStays`) |
| Player.Mark | src/pages/CoursePlayer.tsx:76-78 | definition: markVideoComplete (`MarkSetsOneEntry`) |
| Player.AfterVideoEnded | src/pages/CoursePlayer.tsx:84-109 | definition: handleVideoEnded (`VideoEndedWithoutAutoNext`, `VideoEndedWithAutoNext`, `VideoZeroNotMarked`) |
| Player.Opened | src/pages/CoursePlayer.tsx:31-41 | definition: the state the page opens with (`OpenedKeepsInvariant`) |
| Courses.Filtered | src/pages/CourseList.tsx:38-44 | definition: the search, then the level filter (`FilteredIff`, `FilteredSub`) |
| Courses.PercentOf | src/pages/CourseList.tsx:62-68 | definition: a course's figure from its stored record (`ProgressOfLast`) |
| Courses.ProgressOf | src/pages/CourseList.tsx:62-68 | definition: the figure table the loop builds (`ProgressOfKeys`, `ProgressOfLast`) |
| Courses.Enroll | src/pages/CourseDetails.tsx:32-43 | definition: handleEnroll on the two stores (`EnrollProperties`, `EnrollIdempotent`) |
| Admin.CountStatus | src/pages/AdminPanel.tsx:146-147 | definition: the number of records with a status (`CountAfterStatusChange`) |
| Admin.PendingCount | src/pages/AdminPanel.tsx:146-147 | definition: pending users plus pending appointments (`ApproveMovesOne`) |
| Admin.ApprovedCount | src/pages/AdminPanel.tsx:159-160 | definition: approved users plus confirmed appointments (`ApproveMovesOne`) |
| Admin.StatusColor | src/pages/AdminPanel.tsx:86-93 | definition: the badge colour switch (`StatusColors`) |
| Learn.LevelColor | src/pages/Learn.tsx:299-306 | definition: the level badge colour switch (`LessonBadges`) |
| AppointmentForm.EmailError | src/pages/BookAppointment.tsx:154-158 | definition: the e-mail rule (`EmailErrorIff`) |
| AppointmentForm.Check | src/pages/BookAppointment.tsx:150-170 | definition: the error record validate builds (`AcceptedIff`, `BuildErrors`) |
| SignupForm.EmailError | src/pages/Signup.tsx:171-175 | definition: the e-mail rule (`EmailErrorIff`) |
| SignupForm.Check | src/pages/Signup.tsx:167-188 | definition: the error record validate builds (`AcceptedIff`, `BuildErrors`) |
| LoginForm.EmailError | src/pages/Login.tsx:30-32 | definition: "required" when empty, else the unanchored e-mail rule (`AcceptedIff`) |
| LoginForm.PasswordError | src/pages/Login.tsx:34-36 | definition: "required" when empty, else at least six characters (`AcceptedIff`) |
| LoginForm.Check | src/pages/Login.tsx:27-40 | definition: the error record validate builds (`AcceptedIff`) |
| Validation.Required | src/pages/BookAppointment.tsx:153 | definition: an error message exactly for a blank value (`CheckRequired`) |
| Validation.Chosen | src/pages/BookAppointment.tsx:164-166 | definition: an error message exactly for an empty choice |
| Validation.PhoneError | src/pages/BookAppointment.tsx:159-163 | definition: the phone rule (`PhoneErrorIff`, `CheckPhone`) |
| Text.Trim | src/components/WhatsAppFloat.tsx:348 | definition: strip JavaScript white space at both ends (`TrimTrimmed`, `TrimEmptyIffAllSpace`, `TrimIdempotent`) |
| Text.ToLower | src/components/WhatsAppFloat.tsx:207 | definition: ASCII lower-casing (`ToLowerIsLower`, `ToLowerOfLower`) |
| Text.Contains | src/components/WhatsAppFloat.tsx:187 | definition: `includes` (`ContainsIff`) |
| Patterns.ChatEmail | src/components/WhatsAppFloat.tsx:84 | definition: the chat e-mail regular expression as a matcher (`ChatEmailIff`) |
| Patterns.AppointmentEmail | src/pages/BookAppointment.tsx:156 | definition: the appointment e-mail regular expression as a matcher (`AppointmentEmailIff`) |
| Patterns.SignupEmail | src/pages/Signup.tsx:173 | definition: the sign-up e-mail regular expression as a matcher (`SignupEmailIff`) |
| Patterns.LoginEmail | src/pages/Login.tsx:31 | definition: the unanchored login e-mail regular expression as a matcher (`LoginEmailIff`) |
| Patterns.TenDigits | src/pages/BookAppointment.tsx:161 | definition: exactly ten ASCII digits (`PhoneErrorIff`) |
| Patterns.SevenOrMoreDigits | src/components/WhatsAppFloat.tsx:85 | definition: at least seven ASCII digits (`ChatPhoneIff`) |
| Text.DigitCount | src/components/WhatsAppFloat.tsx:276 | definition: the number of positions holding a digit, counted from the end (`DigitsLength`) |
| ChatSpec.Reply | src/components/WhatsAppFloat.tsx:191-198 | definition: botReply, one assistant entry and the optional step change |
| ChatSpec.StartLeadCapture | src/components/WhatsAppFloat.tsx:201-204 | definition: startLeadCapture, the name prompt and GET_NAME (`NoSkipsLessons`, `TerminationRoute`) |
| ChatSpec.NameOk | src/components/WhatsAppFloat.tsx:253-254 | definition: at least two characters (`NameStep`) |
| ChatSpec.EmailOk | src/components/WhatsAppFloat.tsx:84 | definition: the chat e-mail pattern (`EmailStep`, `ChatEmailIff`) |
| ChatSpec.PhoneOk | src/components/WhatsAppFloat.tsx:275-276 | definition: the chat phone pattern on the digits (`PhoneStep`, `ChatPhoneIff`) |
| ChatSpec.RemoveId | src/components/WhatsAppFloat.tsx:403 | definition: the filter by the placeholder's id (`RemoveIdConcat`, `RemoveIdNoPlaceholder`, `PlaceholderRemoved`) |
| ChatSpec.InputEnabled | src/components/WhatsAppFloat.tsx:444-459 | definition: the text box is enabled unless loading, in QUERY_OR_END or closing (`InitialConsistent`) |
| ChatSpec.ButtonsShown | src/components/WhatsAppFloat.tsx:551 | definition: the Yes/No buttons under an entry flagged for them, only in QUERY_OR_END |
| Catalog.VideoCount | src/pages/CoursePlayer.tsx:80 | definition: the reduce over module video counts (`VideoCountIsAllVideos`, `VideoCountConcat`) |
| Catalog.CompletedCount | src/pages/CoursePlayer.tsx:81 | definition: the number of entries set to true (`CompletedCountAfterMark`) |
| Catalog.OverallProgress | src/pages/CoursePlayer.tsx:82 | definition: the rounded percentage over max(1, video count) (`OverallProgressBounds`) |
| Catalog.IsVideoComplete | src/pages/CoursePlayer.tsx:126 | definition: the video's entry is present and true (`AllCompleteIff`) |
| Player.MarkCurrent | src/pages/CoursePlayer.tsx:211-213 | definition: mark the current video when there is one with a truthy id (`MarkSetsOneEntry`, `VideoZeroNotMarked`) |
| Player.AllComplete | src/pages/CoursePlayer.tsx:127-129 | definition: `every` video of the list is complete (`AllCompleteIff`) |
| Player.IsModuleComplete | src/pages/CoursePlayer.tsx:127-129 | definition: every video of the module is complete (`AllCompleteIff`) |
| Courses.MatchesQuery | src/pages/CourseList.tsx:42-43 | definition: the lower-cased title or description includes the query (`SearchFilter`, `FilteredIff`) |
| Courses.MatchesLevel | src/pages/CourseList.tsx:44 | definition: "All levels" or the course's own level (`LevelFilterOf`, `AllLevelsKeepsAll`) |
| Courses.Store.IsEnrolled | src/pages/CourseDetails.tsx:29 | definition: the `enrolled` flag, the id is in the enrolment list (`HandleEnroll`) |

## Left out

- Rendering, animation and styling: the three.js scenes, framer-motion, Markdown-style bold rendering, scrolling to the latest entry. None of it affects the modelled state.
- Speech synthesis: every spoken reply and the stop button. The spoken wording of each reply is kept as data (`ChatSpec.ReplySpeech`), but no call is modelled.
- Timers and promises: the 300 ms and 1.5 s delays, the 3 s auto-close, the play-after-select delay and the login redirect. The model runs each handler to completion synchronously; reaching CLOSING or the logged-in screen is the modelled fact.
- `isLoading` in the chat: it is a field, but with synchronous handlers it is always false between events. A second send while a reply is pending is not modelled.
- Randomness and the clock: the 40% re-prompt is the `reprompt` parameter and `Date.now()` is the `now` parameter. The random "students enrolled" figure of the course details page is left out because it is decoration.
- Browser storage and JSON: each storage key is a field of the page's class, or a parameter holding what storage returned (`None` for a missing key). Nothing in the modelled code writes `signupUsers` or `appointments`, which the admin panel reads.
- Course list sorting by date or title (CourseList.tsx:45-47): `Date` parsing and `localeCompare` are host functions. The model is the list before sorting, which a sort only permutes. The first progress loop (CourseList.tsx:56-60) computes nothing it keeps and is left out.
- Route parameters: course ids are integers. The `String(id)` / `Number(id)` comparisons and string keys of stored maps are identified with the integer.
- The course player with a course that has no modules: the source fails on `module.videos`. `PlayNext` and `VideoEnded` require a module. The notes box and its export are left out.
- Duration sums in the course details page (floating point) and the WhatsApp link (URL encoding).
- Catalog.RoundPercent: the percentage is computed exactly, while the source computes `c / d * 100` in IEEE doubles before `Math.round`. Where 100c/d is exactly a half the double can fall just below it: 23 of 40 gives 57.49999999999999, so the page shows 57 and the model 58 (likewise 29, 57 and 113 of 200). Bounds and monotonicity hold for both.
- ProgressMap: the figures it stores are the exact ones of `Catalog.RoundPercent`, so on a true half they can be one above the page's.
- ProgressOfLast: states the exact rounded figure, which can be one above the page's on a true half, as for `Catalog.RoundPercent`.
- Catalog.OverallProgress and Courses.PercentOf: use the exact figure, as for `Catalog.RoundPercent`; the bounds `Catalog.OverallProgressBounds` proves hold for the double computation too.
- The simulated lookup never fails, so the apology branch of handleGeneralQuery is left out.
- Text: lower-casing covers ASCII letters only. `\s`/`\S` and `trim` use the JavaScript white-space set. Lengths (the two-character name, the six-character password) count characters, not UTF-16 units.
- Unset error entries are `None`; an entry reset to `undefined` by handleChange is also `None`. The browser's own `type="email"` and `required` checks are left out.
- ChatSpec.RemoveId: the filter compares ids, and only the placeholder carries one. The model removes placeholders with that id, which is the same on every transcript the widget builds.

## Findings

| source | as written | input that shows it | evidently intended | confidence | as-written member | corrected member |
|---|---|---|---|---|---|---|
| src/components/WhatsAppFloat.tsx:215 | the duplicate check for lesson 1 looks for the lesson's first line in `messages[1]`, which is always the visitor's first input, never an assistant entry | "yes", then "yes" again at lesson 0 | a second "yes" says that lesson 1 is already on screen instead of showing it again | not executed | ChatProperties.RepeatedYesAsWritten | ChatProperties.YesTwice |

`ChatSpec.GuidedAsWritten` is the handler with the check as written (`ChatSpec.LessonOneShownAsWritten`); `ChatSpec.Dispatch`, `ChatSpec.Send` and the class `ChatEngine.Conversation` run it, so the model behaves as the widget does. `ChatSpec.Guided` is the corrected handler, which checks whether the transcript already holds lesson 1 (`ChatSpec.LessonOneShown`); `ChatProperties.YesTwice` shows what it does on the same input.
