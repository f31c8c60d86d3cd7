# IT-support voice agent: triage and dialogue engine

This project models the decision core of the support agent in
`backend/ai_agent.py`. A caller describes an IT problem, one utterance per turn.
The agent:

- classifies the problem into one of thirteen types by keyword groups;
- asks two diagnostic questions for that type;
- asks whether the issue is urgent;
- if it is, picks a technician from the roster and phones them.

The technician's two recorded answers (a visit time and a yes/no) are then
classified into confirmed, declined or ambiguous. The conversation state travels
in the arguments and the result of each step.

Modules, one per concern of the source:

- `Text`: Python's `lower`, `strip` and `w in t` written out, plus the
  regular-expression word boundary `\b` and whole-word search (`_has_word`).
- `Classifier`: `infer_problem_type`, the diagnostic question table,
  `_dispatch_intent` and `is_urgent`.
- `Phone`: `_normalize_phone`.
- `Clock`: `_extract_time`, with its three regular expressions written as
  deterministic scanners and `re.search` as a leftmost search. Each scanner is
  proved to answer exactly when its regular expression matches, with the group
  every way of matching yields, so backtracking cannot change the answer.
- `Roster`: technician rows and the four-tier preference order.
- `Escalation`: the decision skeleton of `call_technician`. The carrier's HTTP
  replies and the transcripts of the recordings are inputs of type `Telephony`.
- `Agent`: the `Agent` class with its `technicians` field, `select_technician`
  as three loops over that field, and `process_conversation` as a step method.

A negative diagnostic index is not clamped: `process_conversation` indexes the
question list with it, Python-style, and raises `IndexError` when it falls
before the start of the list. The model returns `OutOfRange` exactly then, and
proves that a consistent state (`Agent.Consistent`) never reaches that case
and stays consistent.

## Model

| member | source | states |
|---|---|---|
| Text.Lower | backend/ai_agent.py:57 | lowering keeps the length and lowers each character on its own |
| Text.Upper | backend/ai_agent.py:126 | upper-casing keeps the length and upper-cases each character on its own, as `m.group(1).upper()` does on the matched time |
| Text.LowerIdempotent | backend/ai_agent.py:57-58 | lowering an already lowered text changes nothing |
| Text.TrimStartShape | backend/ai_agent.py:107 | the left trim drops a prefix made only of whitespace and leaves no whitespace in front |
| Text.TrimEndShape | backend/ai_agent.py:107 | the right trim drops a suffix made only of whitespace and leaves no whitespace at the end |
| Text.Strip | backend/ai_agent.py:107 | `str.strip()` as the right trim of the left trim; what it removes is stated by `Text.StripSlice` |
| Text.StripSlice | backend/ai_agent.py:107 | `strip()` yields a slice of the input with only whitespace outside it and none at its ends |
| Text.Contains | backend/ai_agent.py:103 | `w in t` holds exactly when `w` occurs at some position of `t` |
| Text.ContainsAny | backend/ai_agent.py:103 | `any(w in t for w in ws)` holds exactly when some listed word occurs in `t` |
| Text.StripKeepsContains | backend/ai_agent.py:107-108 | for a word with no whitespace at its ends, stripping the text does not change whether the word occurs |
| Text.StripKeepsContainsAny | backend/ai_agent.py:107-111 | the same for a whole keyword list |
| Text.Boundary | backend/ai_agent.py:58 | `\b` at a position: exactly one of the characters on either side is an ASCII word character |
| Text.WordAt | backend/ai_agent.py:58 | `\bw\b` at a position: `w` occurs there with a word boundary before and after it |
| Text.ContainsWord | backend/ai_agent.py:58 | `re.search(r'\bw\b', t)` succeeds exactly when `w` occurs with a word boundary on both sides |
| Text.WordImpliesSubstring | backend/ai_agent.py:58 | a whole-word match is also a substring match |
| Text.HasWord | backend/ai_agent.py:56-58 | `_has_word` holds exactly when some word, lowered, occurs as a whole word in the lowered text |
| Text.RemoveSpaces | backend/ai_agent.py:116 | removing spaces leaves no space, never lengthens, and leaves a space-free string alone |
| Text.RemoveSpacesConcat | backend/ai_agent.py:116 | removing spaces distributes over concatenation |
| Text.Digits | backend/ai_agent.py:118 | keeps only digits, keeps an all-digit string whole, and is empty exactly when there are no digits |
| Text.DigitsConcat | backend/ai_agent.py:118 | the digit filter distributes over concatenation, so every digit of the input is kept, in order |
| Text.DigitRun | backend/ai_agent.py:125 | the maximal run of digits at a position, as `\d{1,2}` and `\d{1,3}` see it |
| Text.SpaceRun | backend/ai_agent.py:129 | the maximal run of whitespace at a position, as `\s+` sees it |
| Classifier.ProblemType.Label | backend/ai_agent.py:61-90 | the label `infer_problem_type` returns for each type (lines 61-74), which is also the key of that type's questions (lines 78-90) |
| Classifier.LabelIsStripped | backend/ai_agent.py:61-74 | a label is non-empty with no whitespace at its ends, so it is its own stripped form and can equal a stripped roster field |
| Classifier.FromLabel | backend/ai_agent.py:60-74 | a label maps back only to the problem type that carries it |
| Classifier.LabelRoundTrip | backend/ai_agent.py:60-74 | every problem type's label maps back to that type |
| Classifier.FirstMatch | backend/ai_agent.py:60-73 | the index of the first keyword group with a whole-word hit, or none when no group has one |
| Classifier.InferProblemType | backend/ai_agent.py:60-74 | the type of the first keyword group, in source order, with a whole-word hit; `Software Bug` when there is none |
| Classifier.InferredFromFirstMatch | backend/ai_agent.py:60-74 | when group `i` is the first that matches, the inferred type is group `i`'s |
| Classifier.VpnWinsTies | backend/ai_agent.py:61-62 | text mentioning `vpn` is a VPN problem even when it also mentions WiFi words |
| Classifier.EmptyTextIsSoftwareBug | backend/ai_agent.py:57-74 | empty text falls through every group to `Software Bug` |
| Classifier.NothingInEmptyText | backend/ai_agent.py:57-58 | no non-empty keyword occurs in empty text |
| Classifier.WifiComplaint | backend/ai_agent.py:62 | "my wifi keeps disconnecting" is classified `WiFi Down` |
| Classifier.Script | backend/ai_agent.py:77-91 | every problem type has exactly two diagnostic questions |
| Classifier.DiagnosticQuestions | backend/ai_agent.py:76-92 | two questions for any input: a known type's script, or the generic pair for an unknown type |
| Classifier.QuestionsForLabel | backend/ai_agent.py:76-92 | the questions for a type's label are that type's script |
| Classifier.InferredTypeHasScript | backend/ai_agent.py:60-92 | the label of any inferred type is a key of the question table, so its own two questions come back |
| Classifier.DispatchIntent | backend/ai_agent.py:94-103 | false on empty text; otherwise true exactly when the lowered text contains a dispatch phrase as a substring |
| Classifier.IsUrgent | backend/ai_agent.py:105-112 | false on empty text |
| Classifier.ContainsAnyConcat | backend/ai_agent.py:107-111 | checking four keyword lists one after another is checking their concatenation |
| Classifier.UrgentIsPlainSubstring | backend/ai_agent.py:105-112 | urgency holds exactly when the text is non-empty and its lowered form contains some keyword of the four lists as a substring; stripping makes no difference |
| Classifier.KnowIsUrgent | backend/ai_agent.py:107 | with no word boundaries, "I know" is urgent because it contains "now" |
| Classifier.DispatchedIsDispatchIntent | backend/ai_agent.py:99 | "Has it been Dispatched?" shows dispatch intent |
| Phone.NormalizePhone | backend/ai_agent.py:114-120 | the result is empty or starts with `+`, and contains no space |
| Phone.PlusIsKept | backend/ai_agent.py:116-117 | a number that starts with `+` once spaces are removed comes back with only the spaces removed |
| Phone.DigitsDecide | backend/ai_agent.py:118-120 | otherwise ten digits give `+91` and the digits, any other non-zero count gives `+` and the digits, and no digits give the empty string |
| Phone.DigitsAfterPlus | backend/ai_agent.py:118-120 | when the input did not start with `+`, only digits follow the leading `+` |
| Phone.NormalizeIdempotent | backend/ai_agent.py:114-120 | normalising a normalised number changes nothing |
| Phone.BareTenDigits | backend/ai_agent.py:119 | a bare ten-digit number is dialled behind `+91` |
| Clock.MinutesGroup | backend/ai_agent.py:125 | the optional `:\d{2}` group: without a colon at the position it is skipped and ends there; after a colon it ends three characters on exactly when two digits follow, and the pattern fails otherwise |
| Clock.MeridiemGroupEnd | backend/ai_agent.py:125 | where the group of `\b(\d{1,2}(:\d{2})?\s?(am\|pm))\b` ends: at least three characters on, starting with a digit and ending in `am` or `pm` |
| Clock.MeridiemAt | backend/ai_agent.py:125-126 | the answer is the matched text at the position, upper-cased: at least three characters, a digit first, `AM` or `PM` last |
| Clock.MeridiemMatchAnswers | backend/ai_agent.py:125 | every choice of one or two hour digits, minutes group taken or not, and whitespace taken or not that makes the pattern match ends the group where the scanner does |
| Clock.MeridiemGroupEndIsRegex | backend/ai_agent.py:125 | the scanner finds a group exactly when some choice of repetitions and optional parts matches, and every such choice ends the group at the same place |
| Clock.MeridiemAtIsRegex | backend/ai_agent.py:125-126 | the meridiem pattern answers exactly when it matches at the position, and any way of matching gives the same upper-cased group, so backtracking cannot change the answer |
| Clock.ClockGroupEnd | backend/ai_agent.py:127 | where the group of `\b(\d{1,2}:\d{2})\b` ends: four or five characters on, a colon third from the end and digits elsewhere |
| Clock.ClockAt | backend/ai_agent.py:127-128 | the answer is the matched text at the position: four or five characters, a colon third from the end and digits elsewhere |
| Clock.ClockGroupEndIsRegex | backend/ai_agent.py:127 | the scanner finds a group exactly when one or two hour digits make the pattern match, and any such choice ends the group where the scanner does |
| Clock.ClockAtIsRegex | backend/ai_agent.py:127-128 | the clock pattern answers exactly when it matches at the position, with the matched text, whichever way it matches |
| Clock.KeywordEnd | backend/ai_agent.py:129 | where `\b(in\|after)` ends, after the position and inside the text |
| Clock.KeywordEndAnswers | backend/ai_agent.py:129 | a keyword that matches at a word boundary ends where the scanner says, so `in` and `after` never compete |
| Clock.CountSpan | backend/ai_agent.py:129 | the digits of `\s+(\d{1,3})\s+(minute\|minutes\|min)\b` lie after the keyword and inside the text |
| Clock.CountSpanIsCount | backend/ai_agent.py:129 | the digits the tail scanner finds are one to three digits |
| Clock.CountSpanAnswers | backend/ai_agent.py:129 | every way of matching the tail puts the digits where the scanner finds them |
| Clock.RelativeSpan | backend/ai_agent.py:129 | where the count of minutes lies: after the position, one to three digits of the text |
| Clock.RelativeMatchAnswers | backend/ai_agent.py:129 | every way of matching the relative pattern, with `in` or `after` and any whitespace runs, finds the count where the scanner does |
| Clock.RelativeAt | backend/ai_agent.py:129-130 | the answer is `in N minutes` where `N` is one to three digits of the text after the position |
| Clock.RelativeAtIsRegex | backend/ai_agent.py:129-130 | the relative pattern answers exactly when it matches at the position, and every way of matching gives `in N minutes` for the same digits |
| Clock.MatchAt | backend/ai_agent.py:125-130 | a pattern answers at a position exactly when it matches there |
| Clock.SearchFrom | backend/ai_agent.py:125-130 | `re.search` from a position finds the first position at which the pattern matches, and none when it matches at no later position |
| Clock.Search | backend/ai_agent.py:125-130 | `re.search` finds the leftmost position at which the pattern matches, or reports that it matches nowhere |
| Clock.Find | backend/ai_agent.py:125-130 | a search answers with the group of the leftmost match, and with nothing when the pattern matches nowhere |
| Clock.ExtractTime | backend/ai_agent.py:122-131 | none for empty text; otherwise the answer at the leftmost match of the first pattern, in priority order, that matches anywhere in the lowered text; none when no pattern does |
| Roster.Specialises | backend/ai_agent.py:135-138 | the stripped `Problem Type` field equals the problem type |
| Roster.AlwaysOn | backend/ai_agent.py:135-141 | the stripped `Availability` field equals `24x7` |
| Roster.Rank | backend/ai_agent.py:133-143 | tiers 1-4: tiers 1 and 2 are exactly the specialists, tiers 1 and 3 exactly the round-the-clock technicians |
| Roster.BestAtUnique | backend/ai_agent.py:133-143 | at most one position is the first of the best tier |
| Roster.Ranks | backend/ai_agent.py:133-143 | the tier of each roster row, in roster order |
| Roster.FirstMin | backend/ai_agent.py:133-143 | the first position of the least tier |
| Roster.Preferred | backend/ai_agent.py:133-143 | none exactly for an empty roster; otherwise the row at the first position of the best tier |
| Roster.PreferenceOrder | backend/ai_agent.py:133-143 | the preferred row is a specialist when any row is, and a round-the-clock specialist when any row is |
| Roster.PreferredIsBest | backend/ai_agent.py:133-143 | the row at the first position of the best tier is the preferred one |
| Escalation.ClassifyAnswers | backend/ai_agent.py:223-235 | declined exactly when the confirmation contains a negative token, whatever else it contains; confirmed exactly when it contains an affirmative and no negative, at the extracted time or "as soon as possible"; otherwise ambiguous, at the extracted time or "soon" |
| Escalation.NothingInEmpty | backend/ai_agent.py:224-226 | no non-empty token occurs in an empty answer |
| Escalation.SilenceIsUnclear | backend/ai_agent.py:218-235 | a missing confirmation answer is ambiguous |
| Escalation.YesNowIsRefused | backend/ai_agent.py:226 | "yes, now" is declined, because "now" contains "no" |
| Escalation.YesSureAgrees | backend/ai_agent.py:225-229 | "yes sure" is confirmed |
| Escalation.KeyLess | backend/ai_agent.py:204 | Python's `<` on the sort keys: the first differing code point decides, and a proper prefix comes first; its order laws are the four lemmas below |
| Escalation.KeyLessIrreflexive | backend/ai_agent.py:203-204 | no sort key is below itself |
| Escalation.KeyLessTransitive | backend/ai_agent.py:203-204 | string order on sort keys is transitive |
| Escalation.KeyLessTotal | backend/ai_agent.py:203-204 | any two different sort keys are ordered |
| Escalation.KeyLessAsymmetric | backend/ai_agent.py:203-204 | two sort keys are never below each other |
| Escalation.Key | backend/ai_agent.py:203 | `created_key`: the creation date, or the identifier when the date is empty |
| Escalation.EarliestBefore | backend/ai_agent.py:203-204 | among a prefix, the first recording with the least key |
| Escalation.Earliest | backend/ai_agent.py:203-217 | the recording a stable sort by creation date, or by id, puts first: least key, and first among equals |
| Escalation.BelowAll | backend/ai_agent.py:203-204 | a key below the least key of a prefix is below every key in it |
| Escalation.NotBelowAny | backend/ai_agent.py:203-204 | a key not below the greatest key of a prefix is below no key in it |
| Escalation.LatestBefore | backend/ai_agent.py:203-204 | among a prefix, the last recording with the greatest key |
| Escalation.Latest | backend/ai_agent.py:203-218 | the recording a stable sort puts last: greatest key, and last among equals |
| Escalation.Dialable | backend/ai_agent.py:146-152 | a call is attempted only for a technician whose normalised contact number is non-empty |
| Escalation.Placed | backend/ai_agent.py:175 | the carrier accepted the call: it answered with status 200 or 201 |
| Escalation.Listed | backend/ai_agent.py:193-199 | a listing answered with status 200 gives its recordings, any other status none |
| Escalation.Polled | backend/ai_agent.py:191-199 | the second listing is used only when the first found nothing; none exactly when a listing that was requested failed |
| Escalation.Heard | backend/ai_agent.py:206-215 | `fetch_and_transcribe`: the transcript of a download answered with status 200, "" for any other status, nothing when the download failed |
| Escalation.Answers | backend/ai_agent.py:217-218 | the earliest recording answers the time question; the latest answers the confirmation question when there are two or more, and it is empty otherwise; none exactly when a needed download failed |
| Escalation.Outcome.Message | backend/ai_agent.py:147-242 | the final message of each way the escalation ends, word for word; it names the technician whenever one was selected, and the proposed or confirmed time whenever there is one |
| Escalation.Report | backend/ai_agent.py:228-235 | confirmed, declined and ambiguous verdicts give the matching final message |
| Escalation.Noted | backend/ai_agent.py:220-221 | a note for each non-empty answer, and only for those |
| Escalation.Settle | backend/ai_agent.py:237-242 | an answered request goes on with its body; a timeout ends the call as timed out and any other failure as a telephony error, and a failure never ends it any other way |
| Escalation.Fetch | backend/ai_agent.py:206-215 | a download yields the transcript for status 200 and nothing for another status; a failed download stops the call |
| Escalation.Failure | backend/ai_agent.py:191-218 | the first failed request after the call was placed; when there is none, the listing and the needed downloads all succeeded |
| Escalation.Poll | backend/ai_agent.py:191-199 | lists the recordings at most twice, as `Polled` says, and stops on the failing listing |
| Escalation.HearAnswers | backend/ai_agent.py:217-218 | downloads the time answer, then the confirmation answer when there are two or more recordings; the result is `Answers`, or the first failed download |
| Escalation.Conclude | backend/ai_agent.py:220-235 | notes the non-empty answers after the connection notice and reports the classified verdict |
| Escalation.CollectAnswers | backend/ai_agent.py:188-235 | after the call is placed: a failed request ends the call; two empty listings leave the call awaiting confirmation with a single note; otherwise the classified answers decide |
| Escalation.CallTechnician | backend/ai_agent.py:145-242 | no call without a technician or a usable number; permission error codes 21219, 21614, 21215 and 21217 are explained as such and any other refusal as unreachable; two empty listings mean awaiting confirmation; otherwise the earliest and latest recordings are classified; a timeout or failure ends the call with its own note |
| Escalation.EscalationDetermined | backend/ai_agent.py:145-242 | for a given technician and carrier, exactly one outcome and one list of notes satisfy the promise of `CallTechnician` |
| Agent.Restart | backend/ai_agent.py:246-248 | a fresh conversation: next step `describe_problem`, with empty question and answer lists and index 0 |
| Agent.CallingMessage | backend/ai_agent.py:258-261 | announces the chosen technician by name, or "on-call technician" when there is none |
| Agent.Escalates | backend/ai_agent.py:256 | a technician is called when the user asks for one outright or sounds urgent |
| Agent.PyIndex | backend/ai_agent.py:286-287 | Python indexing for an index in range: a negative index counts from the end |
| Agent.Agent.constructor | backend/ai_agent.py:14-16 | the agent holds the given roster |
| Agent.Agent.SelectTechnician | backend/ai_agent.py:133-143 | none exactly for an empty roster; otherwise the first row of the best tier, that is `Preferred` |
| Agent.Agent.ProcessConversation | backend/ai_agent.py:244-323 | every step's reply and next state. `greet` resets. `describe_problem` re-prompts on silence, calls at once on urgency or dispatch intent, and otherwise starts the type's questions. `diagnostic` appends the answer, then calls, asks the next question, asks about urgency, or raises `IndexError` before the list start. `urgency` calls on a yes-word, urgency or dispatch intent, else opens a ticket. `calling` reports the call and completes. Any other step completes and passes the state through. A consistent diagnostic state never faults and stays consistent |

## Left out

- Speech recognition (`transcribe_audio`) is not modelled. A recording's transcript is an input: the `FetchReply.transcript` field, empty when nothing was understood.
- Reading the roster file (`load_technicians`) is not modelled. The constructor takes the rows. A row always has every column, so the `.get` defaults for a missing column (`Unknown`, `General Support`, `on-call technician` for a row) do not arise.
- Carrier I/O is not modelled. This covers the Twilio POST and GETs, the waits between polls, the temporary audio file, the spoken summary and the TwiML/URL text. The replies are inputs (`Telephony`). Each is already decoded, or is a timeout, or a failure. A body that cannot be decoded as JSON after a successful status should be given as `RequestError`, which is what the source's catch-all handler makes of it.
- `CallTechnician` takes neither the user's problem text nor the diagnostic answers. They only feed the spoken summary and influence no decision.
- Notes are an `Event` datatype rather than the formatted strings. The text of a carrier error (`msg`) and its formatting are not modelled; the error code is kept. The final messages are reproduced exactly in `Outcome.Message`.
- Character classes are ASCII only. This covers `lower`/`upper`, `\w`, `\b`, `\d`, `\s`, `str.isdigit` and `str.strip`. Python's Unicode-aware versions also act on non-ASCII letters, digits and spaces. The non-Latin urgency keywords are compared as plain strings.
- `process_conversation` appends to the caller's `diag_answers` list in place. The model returns the extended list instead. So it does not capture that the caller's list has already grown when `IndexError` is raised, or aliasing between the argument and the result.
- A transcript is always a string. Python's `None` transcript (falsy, and appended as `None` in the diagnostic step) is not modelled.
- Python's dynamic typing of the echoed state (for example a non-integer `diagIdx`) is not modelled; `diagIdx` is an unbounded integer.
