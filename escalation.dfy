/**
 * The decisions of `call_technician`: whether a call is placed at all, how a
 * refused call is explained, the two-attempt poll for recorded answers, which
 * recording answers which question, and how the technician's answers are
 * classified. The carrier's replies are inputs; nothing here talks to a
 * network, sleeps or writes files.
 */
module Escalation {
  import opened Text
  import opened Wrappers
  import opened Clock
  import opened Roster
  import opened Phone

  // ---------------------------------------------------------------------------
  // What the carrier answers.

  /** One HTTP request: its decoded answer, a timeout, or any other failure
      (connection error, unreadable body). */
  datatype Reply<T> = Answered(body: T) | RequestTimeout | RequestError

  /** Placing the call: the HTTP status and, for a refusal, the carrier's error
      code if its body carried one. */
  datatype PlaceReply = PlaceReply(status: int, errorCode: Option<int>)

  /** A recording of the call, as listed by the carrier. */
  datatype Recording = Recording(sid: string, dateCreated: string)

  /** Listing the call's recordings: the HTTP status and the list. */
  datatype PollReply = PollReply(status: int, recordings: seq<Recording>)

  /** Downloading a recording: the HTTP status and what the speech recogniser
      made of the audio (empty when it understood nothing). */
  datatype FetchReply = FetchReply(status: int, transcript: string)

  /** Everything the carrier answers during one escalation. */
  datatype Telephony = Telephony(
    place: Reply<PlaceReply>,
    firstPoll: Reply<PollReply>,
    secondPoll: Reply<PollReply>,
    fetch: string -> Reply<FetchReply>)

  // ---------------------------------------------------------------------------
  // What the escalation reports.

  /** The progress notes collected during a call. */
  datatype Event =
    | NoTechnicianNotice
    | MissingNumberNotice(name: string)
    | Connected
    | CarrierError(code: Option<int>)
    | NoAnswerYet
    | TimeAnswer(text: string)
    | ConfirmationAnswer(text: string)
    | TimeoutNotice
    | UnexpectedErrorNotice

  /** How the escalation ended. */
  datatype Outcome =
    | NoTechnician
    | NoContactNumber(name: string)
    | CallNotPermitted
    | Unreachable
    | CallTimeout
    | TelephonyFault
    | Awaiting(name: string)
    | Confirmed(name: string, skillset: string, when: string)
    | Declined(name: string)
    | Ambiguous(name: string, proposed: string)
  {
    /** The final message shown to the caller. It names the technician
        whenever one was selected, and the time whenever one was proposed. */
    function Message(): (m: string)
      ensures (NoContactNumber? || Awaiting? || Confirmed? || Declined? || Ambiguous?) ==> Contains(m, name)
      ensures Confirmed? ==> Contains(m, when)
      ensures Ambiguous? ==> Contains(m, proposed)
    {
      match this
      case NoTechnician => NoTechnicianText
      case NoContactNumber(name) => Framed("Selected ", name, NoContactText)
      case CallNotPermitted => NotPermittedText
      case Unreachable => UnreachableText
      case CallTimeout => TimeoutText
      case TelephonyFault => FaultText
      case Awaiting(name) => Framed("Called ", name, AwaitingText)
      case Confirmed(name, skillset, when) =>
        FramedTwice("Appointment confirmed with ", name, " (" + skillset + ") at ", when, ConfirmedText)
      case Declined(name) => Framed("", name, DeclinedText)
      case Ambiguous(name, proposed) => FramedTwice("", name, " proposed ", proposed, AmbiguousText)
    }
  }

  const NoTechnicianText := "No technician available at the moment. Please contact support directly."
  const NoContactText := ", but no contact number available."
  const NotPermittedText :=
    "Unable to place the call due to Twilio permissions or an unverified destination number. "
    + "Verify the destination number and Voice Geo Permissions in Twilio, then try again."
  const UnreachableText := "Unable to reach a technician now. Your urgent ticket is escalated; expect a call within 30 minutes."
  const TimeoutText := "Technician call timed out. Dispatch will retry shortly."
  const FaultText := "Technical error while contacting technician. Your urgent ticket has been logged; support will call you within 30 minutes."
  const AwaitingText := ". Awaiting their confirmation; you will receive a callback shortly."
  const ConfirmedText := ". You will receive a call or visit shortly."
  const DeclinedText := " is unavailable. Escalating to the next technician; you will receive a callback soon."
  const AmbiguousText := " but did not clearly confirm. Dispatch will follow up to finalize."

  /** `w` between `a` and `b`. */
  function Framed(a: string, w: string, b: string): (r: string)
    ensures Contains(r, w)
  {
    ContainsBetween(a, w, b);
    a + w + b
  }

  /** `v` and `w` in the frame `a`, `b`, `c`. */
  function FramedTwice(a: string, v: string, b: string, w: string, c: string): (r: string)
    ensures Contains(r, v) && Contains(r, w)
  {
    ContainsBetween(a, v, b);
    ContainsExtends(a + v + b, v, w);
    ContainsExtends(a + v + b + w, v, c);
    ContainsBetween(a + v + b, w, c);
    a + v + b + w + c
  }

  // ---------------------------------------------------------------------------
  // Classifying the technician's answers.

  const Affirmatives: seq<string> := ["yes", "ok", "okay", "sure", "confirm"]
  const Negatives: seq<string> := ["no", "can't", "cannot", "busy", "decline"]

  /** What the technician's two answers amount to. */
  datatype Verdict = Agreed(when: string) | Refused | Unclear(proposed: string)

  /** The confirmation answer is declined when it contains a negative token
      anywhere, agreed when it contains an affirmative one and no negative one,
      and unclear otherwise; the time comes from the time answer, falling back
      to "as soon as possible" for an agreement and "soon" otherwise. */
  function ClassifyAnswers(timeAnswer: string, confirmAnswer: string): (v: Verdict)
    ensures v.Refused? <==> ContainsAny(Lower(confirmAnswer), Negatives)
    ensures v.Agreed? <==> ContainsAny(Lower(confirmAnswer), Affirmatives) && !ContainsAny(Lower(confirmAnswer), Negatives)
    ensures v.Agreed? ==> v.when == ExtractTime(timeAnswer).GetOr("as soon as possible")
    ensures v.Unclear? ==> v.proposed == ExtractTime(timeAnswer).GetOr("soon")
  {
    var appt := ExtractTime(timeAnswer);
    var low := Lower(confirmAnswer);
    var confirmed := ContainsAny(low, Affirmatives);
    var declined := ContainsAny(low, Negatives);
    if confirmed && !declined then Agreed(appt.GetOr("as soon as possible"))
    else if declined then Refused
    else Unclear(appt.GetOr("soon"))
  }

  /** An answer with no recognisable word at all, such as a missing second
      recording, is unclear. */
  lemma SilenceIsUnclear(timeAnswer: string)
    ensures ClassifyAnswers(timeAnswer, "") == Unclear(ExtractTime(timeAnswer).GetOr("soon"))
  {
    NothingInEmpty(Affirmatives);
    NothingInEmpty(Negatives);
  }

  lemma NothingInEmpty(ws: seq<string>)
    requires forall i :: 0 <= i < |ws| ==> ws[i] != []
    ensures !ContainsAny(Lower(""), ws)
  {
    forall i | 0 <= i < |ws|
      ensures !Contains(Lower(""), ws[i])
    {
      assert !ContainsFrom(Lower(""), ws[i], 0);
    }
  }

  /** Substring matching makes "now" a refusal: "yes, now" contains "no". */
  lemma YesNowIsRefused(timeAnswer: string)
    ensures ClassifyAnswers(timeAnswer, "yes, now").Refused?
  {
    var low := Lower("yes, now");
    assert low[5..7] == "no";
    assert SubstringAt(low, Negatives[0], 5);
  }

  /** A plain "yes sure" agrees. */
  lemma YesSureAgrees(timeAnswer: string)
    ensures ClassifyAnswers(timeAnswer, "yes sure").Agreed?
  {
    var low := Lower("yes sure");
    assert low[0..3] == "yes";
    assert SubstringAt(low, Affirmatives[0], 0);
    forall i | 0 <= i < |Negatives|
      ensures !Contains(low, Negatives[i])
    {
      FirstCharAbsent(low, Negatives[i]);
    }
  }

  // ---------------------------------------------------------------------------
  // Which recording answers which question.

  /** Python's `<` on strings: code point by code point, a proper prefix first. */
  predicate KeyLess(a: string, b: string) {
    if a == [] then b != []
    else if b == [] then false
    else if a[0] != b[0] then a[0] < b[0]
    else KeyLess(a[1..], b[1..])
  }

  lemma {:induction false} KeyLessIrreflexive(a: string)
    ensures !KeyLess(a, a)
  {
    if a != [] { KeyLessIrreflexive(a[1..]); }
  }

  lemma {:induction false} KeyLessTransitive(a: string, b: string, c: string)
    requires KeyLess(a, b) && KeyLess(b, c)
    ensures KeyLess(a, c)
  {
    if a != [] && b != [] && c != [] && a[0] == b[0] && b[0] == c[0] {
      KeyLessTransitive(a[1..], b[1..], c[1..]);
    }
  }

  lemma {:induction false} KeyLessTotal(a: string, b: string)
    ensures a == b || KeyLess(a, b) || KeyLess(b, a)
  {
    if a != [] && b != [] && a[0] == b[0] {
      KeyLessTotal(a[1..], b[1..]);
      if a[1..] == b[1..] {
        assert a == [a[0]] + a[1..] && b == [b[0]] + b[1..];
      }
    }
  }

  lemma {:induction false} KeyLessAsymmetric(a: string, b: string)
    requires KeyLess(a, b)
    ensures !KeyLess(b, a)
  {
    if a != [] && b != [] && a[0] == b[0] {
      KeyLessAsymmetric(a[1..], b[1..]);
    }
  }

  /** The sort key: the creation date, or the identifier when the date is empty. */
  function Key(r: Recording): string {
    if r.dateCreated != "" then r.dateCreated else r.sid
  }

  /** Position of the recording a stable sort by `Key` puts first among the
      first `n`: the first of those with the least key. */
  function EarliestBefore(items: seq<Recording>, n: nat): (e: nat)
    requires 0 < n <= |items|
    ensures e < n
    ensures forall j :: 0 <= j < n ==> !KeyLess(Key(items[j]), Key(items[e]))
    ensures forall j :: 0 <= j < e ==> KeyLess(Key(items[e]), Key(items[j]))
  {
    if n == 1 then
      KeyLessIrreflexive(Key(items[0]));
      0
    else
      var b := EarliestBefore(items, n - 1);
      if KeyLess(Key(items[n - 1]), Key(items[b])) then
        BelowAll(items, n - 1, b);
        KeyLessIrreflexive(Key(items[n - 1]));
        n - 1
      else b
  }

  /** Position of the recording a stable sort by `Key` puts first. */
  function Earliest(items: seq<Recording>): (e: nat)
    requires |items| > 0
    ensures e < |items|
    ensures forall j :: 0 <= j < |items| ==> !KeyLess(Key(items[j]), Key(items[e]))
    ensures forall j :: 0 <= j < e ==> KeyLess(Key(items[e]), Key(items[j]))
  {
    EarliestBefore(items, |items|)
  }

  /** A key below the least key of a prefix is below every key of it. */
  lemma BelowAll(items: seq<Recording>, last: nat, b: nat)
    requires b < last < |items|
    requires KeyLess(Key(items[last]), Key(items[b]))
    requires forall j :: 0 <= j < last ==> !KeyLess(Key(items[j]), Key(items[b]))
    ensures forall j :: 0 <= j < last ==> KeyLess(Key(items[last]), Key(items[j])) && !KeyLess(Key(items[j]), Key(items[last]))
  {
    forall j | 0 <= j < last
      ensures KeyLess(Key(items[last]), Key(items[j])) && !KeyLess(Key(items[j]), Key(items[last]))
    {
      KeyLessTotal(Key(items[j]), Key(items[b]));
      if Key(items[j]) != Key(items[b]) {
        KeyLessTransitive(Key(items[last]), Key(items[b]), Key(items[j]));
      }
      KeyLessAsymmetric(Key(items[last]), Key(items[j]));
    }
  }

  /** A key not below the greatest key of a prefix is not below any key of it. */
  lemma NotBelowAny(items: seq<Recording>, last: nat, b: nat)
    requires b < last < |items|
    requires !KeyLess(Key(items[last]), Key(items[b]))
    requires forall j :: 0 <= j < last ==> !KeyLess(Key(items[b]), Key(items[j]))
    ensures forall j :: 0 <= j < last ==> !KeyLess(Key(items[last]), Key(items[j]))
  {
    forall j | 0 <= j < last
      ensures !KeyLess(Key(items[last]), Key(items[j]))
    {
      KeyLessTotal(Key(items[last]), Key(items[b]));
      if KeyLess(Key(items[b]), Key(items[last])) && KeyLess(Key(items[last]), Key(items[j])) {
        KeyLessTransitive(Key(items[b]), Key(items[last]), Key(items[j]));
      }
    }
  }

  /** Position of the recording a stable sort by `Key` puts last among the
      first `n`: the last of those with the greatest key. */
  function LatestBefore(items: seq<Recording>, n: nat): (l: nat)
    requires 0 < n <= |items|
    ensures l < n
    ensures forall j :: 0 <= j < n ==> !KeyLess(Key(items[l]), Key(items[j]))
    ensures forall j :: l < j < n ==> KeyLess(Key(items[j]), Key(items[l]))
  {
    if n == 1 then
      KeyLessIrreflexive(Key(items[0]));
      0
    else
      var b := LatestBefore(items, n - 1);
      if KeyLess(Key(items[n - 1]), Key(items[b])) then
        KeyLessAsymmetric(Key(items[n - 1]), Key(items[b]));
        b
      else
        NotBelowAny(items, n - 1, b);
        KeyLessIrreflexive(Key(items[n - 1]));
        n - 1
  }

  /** Position of the recording a stable sort by `Key` puts last. */
  function Latest(items: seq<Recording>): (l: nat)
    requires |items| > 0
    ensures l < |items|
    ensures forall j :: 0 <= j < |items| ==> !KeyLess(Key(items[l]), Key(items[j]))
    ensures forall j :: l < j < |items| ==> KeyLess(Key(items[j]), Key(items[l]))
  {
    LatestBefore(items, |items|)
  }

  // ---------------------------------------------------------------------------
  // The escalation itself.

  /** The carrier error codes that mean a permissions or verification problem. */
  const PermissionCodes: set<int> := {21219, 21614, 21215, 21217}

  /** A call is attempted only for a technician with a usable number. */
  predicate Dialable(technician: Option<Technician>) {
    technician.Some? && NormalizePhone(technician.value.contact) != ""
  }

  /** The carrier accepted the call. */
  predicate Placed(net: Telephony) {
    net.place.Answered? && net.place.body.status in {200, 201}
  }

  /** What a successful listing contributes: its recordings for status 200,
      nothing for any other status. */
  function Listed(p: PollReply): seq<Recording> {
    if p.status == 200 then p.recordings else []
  }

  /** The recordings found by polling at most twice: the second listing is
      requested only when the first found nothing. `None` when a listing that
      was requested failed. */
  function Polled(net: Telephony): (r: Option<seq<Recording>>)
    ensures net.firstPoll.Answered? && Listed(net.firstPoll.body) != [] ==> r == Some(Listed(net.firstPoll.body))
    ensures r.Some? <==> net.firstPoll.Answered? && (Listed(net.firstPoll.body) != [] || net.secondPoll.Answered?)
  {
    match net.firstPoll
    case Answered(p1) =>
      if Listed(p1) != [] then Some(Listed(p1))
      else (match net.secondPoll
            case Answered(p2) => Some(Listed(p2))
            case _ => None)
    case _ => None
  }

  /** What was heard on a recording: the transcript of a download answered with
      status 200, nothing for any other status; `None` when the download failed. */
  function Heard(net: Telephony, sid: string): Option<string> {
    match net.fetch(sid)
    case Answered(f) => Some(if f.status == 200 then f.transcript else "")
    case _ => None
  }

  /** The answers heard on the recordings: the earliest one answers the time
      question and, when there are two or more, the latest one answers the
      confirmation question (otherwise it is empty). `None` when a download
      failed. */
  function Answers(net: Telephony, items: seq<Recording>): (r: Option<(string, string)>)
    requires items != []
    ensures r.Some? <==> Heard(net, items[Earliest(items)].sid).Some?
                         && (|items| > 1 ==> Heard(net, items[Latest(items)].sid).Some?)
    ensures |items| == 1 && r.Some? ==> r.value.1 == ""
  {
    var t := Heard(net, items[Earliest(items)].sid);
    if t.None? then None
    else if |items| == 1 then Some((t.value, ""))
    else
      var c := Heard(net, items[Latest(items)].sid);
      if c.None? then None else Some((t.value, c.value))
  }

  /** A verdict, reported for the technician who gave it. */
  function Report(t: Technician, v: Verdict): (o: Outcome)
    ensures o.Confirmed? <==> v.Agreed?
    ensures o.Declined? <==> v.Refused?
    ensures o.Ambiguous? <==> v.Unclear?
  {
    match v
    case Agreed(when) => Confirmed(t.name, t.skillset, when)
    case Refused => Declined(t.name)
    case Unclear(proposed) => Ambiguous(t.name, proposed)
  }

  /** The notes recording what the technician said: each non-empty answer, in order. */
  function Noted(timeAnswer: string, confirmAnswer: string): (es: seq<Event>)
    ensures |es| <= 2
    ensures TimeAnswer(timeAnswer) in es <==> timeAnswer != ""
    ensures ConfirmationAnswer(confirmAnswer) in es <==> confirmAnswer != ""
  {
    (if timeAnswer != "" then [TimeAnswer(timeAnswer)] else [])
    + (if confirmAnswer != "" then [ConfirmationAnswer(confirmAnswer)] else [])
  }

  /** The outcome of an answered technician call. */
  predicate Reported(outcome: Outcome) {
    outcome.Confirmed? || outcome.Declined? || outcome.Ambiguous?
  }

  /** Reads a reply that can fail: its body, or the outcome and closing note of
      the failure. */
  datatype Step<T> = Go(value: T) | Stop(outcome: Outcome, event: Event)

  function Settle<T>(r: Reply<T>): (s: Step<T>)
    ensures r.Answered? <==> s.Go?
    ensures s.Go? ==> s.value == r.body
    ensures r.RequestTimeout? ==> s == Stop(CallTimeout, TimeoutNotice)
    ensures r.RequestError? ==> s == Stop(TelephonyFault, UnexpectedErrorNotice)
    ensures s.Stop? ==> s.outcome == CallTimeout || s.outcome == TelephonyFault
  {
    match r
    case Answered(b) => Go(b)
    case RequestTimeout => Stop(CallTimeout, TimeoutNotice)
    case RequestError => Stop(TelephonyFault, UnexpectedErrorNotice)
  }

  /** Downloads and transcribes one recording. */
  method Fetch(net: Telephony, sid: string) returns (s: Step<string>)
    ensures s.Go? <==> Heard(net, sid).Some?
    ensures s.Go? ==> s.value == Heard(net, sid).value
    ensures s.Stop? ==> s.outcome == Settle(net.fetch(sid)).outcome && s.event == Settle(net.fetch(sid)).event
  {
    var r := Settle(net.fetch(sid));
    if r.Stop? {
      return Stop(r.outcome, r.event);
    }
    s := Go(if r.value.status == 200 then r.value.transcript else "");
  }

  /** After the call was placed: the first request that failed, in the order
      they are made (first listing, second listing when the first was empty,
      time recording, confirmation recording when there are two or more), if
      any. */
  function Failure(net: Telephony): (f: Option<(Outcome, Event)>)
    ensures f.None? ==> Polled(net).Some?
    ensures f.None? && Polled(net).value != [] ==> Answers(net, Polled(net).value).Some?
  {
    if !net.firstPoll.Answered? then Some((Settle(net.firstPoll).outcome, Settle(net.firstPoll).event))
    else if Listed(net.firstPoll.body) == [] && !net.secondPoll.Answered? then Some((Settle(net.secondPoll).outcome, Settle(net.secondPoll).event))
    else
      var items := Polled(net).value;
      if items == [] then None
      else
        var first := net.fetch(items[Earliest(items)].sid);
        var last := net.fetch(items[Latest(items)].sid);
        if !first.Answered? then Some((Settle(first).outcome, Settle(first).event))
        else if |items| > 1 && !last.Answered? then Some((Settle(last).outcome, Settle(last).event))
        else None
  }

  /** Lists the call's recordings, asking a second time only when the first
      listing found nothing. */
  method Poll(net: Telephony) returns (s: Step<seq<Recording>>)
    ensures s.Go? <==> Polled(net).Some?
    ensures s.Go? ==> s.value == Polled(net).value
    ensures !net.firstPoll.Answered? ==>
      s.Stop? && s.outcome == Settle(net.firstPoll).outcome && s.event == Settle(net.firstPoll).event
    ensures net.firstPoll.Answered? && Listed(net.firstPoll.body) == [] && !net.secondPoll.Answered? ==>
      s.Stop? && s.outcome == Settle(net.secondPoll).outcome && s.event == Settle(net.secondPoll).event
  {
    var first := Settle(net.firstPoll);
    if first.Stop? {
      return Stop(first.outcome, first.event);
    }
    var items := Listed(first.value);
    if items == [] {
      var second := Settle(net.secondPoll);
      if second.Stop? {
        return Stop(second.outcome, second.event);
      }
      items := Listed(second.value);
    }
    s := Go(items);
  }

  /** Downloads the answers on the recordings `items`: the time answer first,
      then the confirmation answer when there are two or more recordings. */
  method HearAnswers(net: Telephony, items: seq<Recording>) returns (s: Step<(string, string)>)
    requires items != []
    ensures s.Go? <==> Answers(net, items).Some?
    ensures s.Go? ==> s.value == Answers(net, items).value
    ensures s.Stop? ==>
      var first := Settle(net.fetch(items[Earliest(items)].sid));
      var last := Settle(net.fetch(items[Latest(items)].sid));
      var failed := if first.Stop? then first else last;
      failed.Stop? && s.outcome == failed.outcome && s.event == failed.event
  {
    var timeFetch := Fetch(net, items[Earliest(items)].sid);
    if timeFetch.Stop? {
      return Stop(timeFetch.outcome, timeFetch.event);
    }
    var confirmAnswer := "";
    if |items| > 1 {
      var confirmFetch := Fetch(net, items[Latest(items)].sid);
      if confirmFetch.Stop? {
        return Stop(confirmFetch.outcome, confirmFetch.event);
      }
      confirmAnswer := confirmFetch.value;
    }
    s := Go((timeFetch.value, confirmAnswer));
  }

  /** Notes the technician's answers and classifies them. */
  method Conclude(tech: Technician, timeAnswer: string, confirmAnswer: string)
    returns (outcome: Outcome, events: seq<Event>)
    ensures outcome == Report(tech, ClassifyAnswers(timeAnswer, confirmAnswer))
    ensures events == [Connected] + Noted(timeAnswer, confirmAnswer)
  {
    events := [Connected];
    if timeAnswer != "" {
      events := events + [TimeAnswer(timeAnswer)];
    }
    if confirmAnswer != "" {
      events := events + [ConfirmationAnswer(confirmAnswer)];
    }
    outcome := Report(tech, ClassifyAnswers(timeAnswer, confirmAnswer));
  }

  /** The part of `call_technician` after the carrier accepted the call: poll
      for the recorded answers, download them and classify them. */
  method CollectAnswers(tech: Technician, net: Telephony) returns (outcome: Outcome, events: seq<Event>)
    ensures outcome.Awaiting? || Reported(outcome) || outcome == CallTimeout || outcome == TelephonyFault
    // a failed request ends the call
    ensures Failure(net).Some? ==>
      outcome == Failure(net).value.0 && events == [Connected, Failure(net).value.1]
    // two empty listings: nothing to classify yet
    ensures outcome.Awaiting? <==> Polled(net) == Some([])
    ensures outcome.Awaiting? ==> outcome == Awaiting(tech.name) && events == [NoAnswerYet]
    // recordings found: the outcome follows the answers, when they could be downloaded
    ensures Reported(outcome) <==> Polled(net).Some? && Polled(net).value != [] && Answers(net, Polled(net).value).Some?
    ensures Reported(outcome) ==>
      var answers := Answers(net, Polled(net).value).value;
      outcome == Report(tech, ClassifyAnswers(answers.0, answers.1))
      && events == [Connected] + Noted(answers.0, answers.1)
  {
    var polled := Poll(net);
    if polled.Stop? {
      return polled.outcome, [Connected, polled.event];
    }
    var items := polled.value;
    if items == [] {
      return Awaiting(tech.name), [NoAnswerYet];
    }
    var heard := HearAnswers(net, items);
    if heard.Stop? {
      return heard.outcome, [Connected, heard.event];
    }
    outcome, events := Conclude(tech, heard.value.0, heard.value.1);
  }

  /** What `call_technician` promises about its outcome and notes, given the
      technician chosen and the carrier's answers `net`. */
  ghost predicate Escalated(technician: Option<Technician>, net: Telephony, outcome: Outcome, events: seq<Event>) {
    // no technician, or no number: no call
    (technician.None? ==> outcome == NoTechnician && events == [NoTechnicianNotice])
    && (technician.Some? && !Dialable(technician) ==>
          outcome == NoContactNumber(technician.value.name) && events == [MissingNumberNotice(technician.value.name)])
    // placing the call failed, or a later request failed
    && (Dialable(technician) && !net.place.Answered? ==>
          outcome == Settle(net.place).outcome && events == [Connected, Settle(net.place).event])
    && (Dialable(technician) && Placed(net) && Failure(net).Some? ==>
          outcome == Failure(net).value.0 && events == [Connected, Failure(net).value.1])
    // the carrier refused the call: explained by its error code
    && (outcome == CallNotPermitted <==>
          Dialable(technician) && net.place.Answered? && !Placed(net)
          && net.place.body.errorCode.Some? && net.place.body.errorCode.value in PermissionCodes)
    && (outcome == Unreachable <==>
          Dialable(technician) && net.place.Answered? && !Placed(net)
          && !(net.place.body.errorCode.Some? && net.place.body.errorCode.value in PermissionCodes))
    && (outcome == CallNotPermitted || outcome == Unreachable ==>
          events == [Connected, CarrierError(net.place.body.errorCode)])
    // the call went through: nothing heard yet, or an answer to classify
    && (outcome.Awaiting? <==> Dialable(technician) && Placed(net) && Polled(net) == Some([]))
    && (outcome.Awaiting? ==> outcome == Awaiting(technician.value.name) && events == [NoAnswerYet])
    && (Reported(outcome) <==>
          Dialable(technician) && Placed(net) && Polled(net).Some? && Polled(net).value != []
          && Answers(net, Polled(net).value).Some?)
    && (Reported(outcome) ==>
          var answers := Answers(net, Polled(net).value).value;
          outcome == Report(technician.value, ClassifyAnswers(answers.0, answers.1))
          && events == [Connected] + Noted(answers.0, answers.1))
  }

  /** The promise leaves nothing open: for a given technician and given
      carrier answers, exactly one outcome and one list of notes satisfy it. */
  lemma EscalationDetermined(technician: Option<Technician>, net: Telephony,
                             o1: Outcome, e1: seq<Event>, o2: Outcome, e2: seq<Event>)
    requires Escalated(technician, net, o1, e1) && Escalated(technician, net, o2, e2)
    ensures o1 == o2 && e1 == e2
  {
  }

  /** `call_technician`, with the carrier's answers given as `net`. The problem
      summary read out to the technician does not influence any decision and is
      not modelled. */
  method CallTechnician(technician: Option<Technician>, net: Telephony)
    returns (outcome: Outcome, events: seq<Event>)
    ensures Escalated(technician, net, outcome, events)
  {
    if technician.None? {
      return NoTechnician, [NoTechnicianNotice];
    }
    var tech := technician.value;
    var phone := NormalizePhone(tech.contact);
    if phone == "" {
      return NoContactNumber(tech.name), [MissingNumberNotice(tech.name)];
    }
    events := [Connected];

    var placed := Settle(net.place);
    if placed.Stop? {
      return placed.outcome, events + [placed.event];
    }
    var resp := placed.value;
    if resp.status !in {200, 201} {
      events := events + [CarrierError(resp.errorCode)];
      if resp.errorCode.Some? && resp.errorCode.value in PermissionCodes {
        return CallNotPermitted, events;
      }
      return Unreachable, events;
    }
    outcome, events := CollectAnswers(tech, net);
  }
}
