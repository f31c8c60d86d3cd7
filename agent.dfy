/**
 * The support agent: its technician roster, the choice of a technician for a
 * problem type, and the conversation step function that the web front end
 * drives one utterance at a time.
 */
module Agent {
  import opened Text
  import opened Wrappers
  import opened Classifier
  import opened Roster
  import opened Escalation

  // ---------------------------------------------------------------------------
  // Conversation state.

  /** The step names the conversation moves through. */
  const Greet := "greet"
  const DescribeProblem := "describe_problem"
  const Diagnostic := "diagnostic"
  const Urgency := "urgency"
  const Calling := "calling"
  const Complete := "complete"

  const Welcome := "Hello! Welcome to IT Support. Please describe your problem."
  const RetryPrompt := "I didn't catch that. Please describe your problem again."
  const UrgencyQuestion := "Thank you. Is this issue urgent and needs immediate attention?"
  const TicketNotice := "No problem. A support ticket has been created. Our team will reach out within 24 hours."
  const ClosingNotice := "This conversation is complete. Please refresh to start a new session."

  /** Words that, as whole words, accept the offer of a technician. */
  const YesTokens: seq<string> := ["yes", "y", "yeah", "yep", "ok", "okay", "sure", "please do", "go ahead", "confirm"]

  /** Everything one step returns: the state handed back to the front end for
      the next utterance, the agent's reply and the notes of a call. */
  datatype Turn = Turn(
    transcript: string,
    agentMessage: string,
    events: seq<Event>,
    diagQns: seq<string>,
    diagIdx: int,
    diagAnswers: seq<string>,
    userProblem: string,
    problemType: string,
    nextStep: string)

  /** A step either answers, or fails with Python's `IndexError` when the
      question index lies before the start of the question list. */
  datatype Response = Respond(turn: Turn) | OutOfRange

  /** The turn that starts a conversation afresh, asking `message`. */
  function Restart(message: string): (t: Turn)
    ensures t.nextStep == DescribeProblem && t.agentMessage == message
    ensures t.diagQns == [] && t.diagIdx == 0 && t.diagAnswers == []
  {
    Turn("", message, [], [], 0, [], "", "", DescribeProblem)
  }

  /** The message announcing a call to the chosen technician. */
  function CallingMessage(technician: Option<Technician>): (m: string)
    ensures technician.Some? ==> m == "Calling " + technician.value.name + "..."
    ensures technician.None? ==> m == "Calling on-call technician..."
  {
    "Calling " + (if technician.Some? then technician.value.name else "on-call technician") + "..."
  }

  /** The user asks for a technician outright, or sounds urgent. */
  predicate Escalates(transcript: string) {
    DispatchIntent(transcript) || IsUrgent(transcript)
  }

  /** Python's `xs[k]` for an index in range: a negative index counts from the end. */
  function PyIndex(xs: seq<string>, k: int): (x: string)
    requires -|xs| <= k < |xs|
    ensures 0 <= k ==> x == xs[k]
    ensures k < 0 ==> x == xs[|xs| + k]
  {
    if k >= 0 then xs[k] else xs[|xs| + k]
  }

  /** The diagnostic bookkeeping is in step: as many answers as questions asked
      so far, and while diagnosing a question still to ask. */
  predicate Consistent(step: string, diagQns: seq<string>, diagIdx: int, diagAnswers: seq<string>) {
    0 <= diagIdx <= |diagQns| && |diagAnswers| == diagIdx
    && (step == Diagnostic ==> diagIdx < |diagQns|)
  }

  // ---------------------------------------------------------------------------
  // The agent.

  class Agent {
    /** The roster, in file order. */
    var technicians: seq<Technician>

    /** An agent working from `roster`; reading the roster file is not modelled. */
    constructor(roster: seq<Technician>)
      ensures technicians == roster
    {
      technicians := roster;
    }

    /** `select_technician`: a round-the-clock specialist, else a specialist,
        else a round-the-clock technician, else the first on the roster; each
        time the first such in roster order. */
    method SelectTechnician(ptype: string) returns (r: Option<Technician>)
      ensures r.None? <==> technicians == []
      ensures r.Some? ==> exists i: nat :: BestAt(technicians, ptype, i) && r.value == technicians[i]
      ensures r == Preferred(technicians, ptype)
    {
      var roster := technicians;
      for i := 0 to |roster|
        invariant forall j :: 0 <= j < i ==> !(Specialises(roster[j], ptype) && AlwaysOn(roster[j]))
      {
        if Specialises(roster[i], ptype) && AlwaysOn(roster[i]) {
          r := Some(roster[i]);
          PreferredIsBest(roster, ptype, i);
          return;
        }
      }
      for i := 0 to |roster|
        invariant forall j :: 0 <= j < |roster| ==> !(Specialises(roster[j], ptype) && AlwaysOn(roster[j]))
        invariant forall j :: 0 <= j < i ==> !Specialises(roster[j], ptype)
      {
        if Specialises(roster[i], ptype) {
          r := Some(roster[i]);
          PreferredIsBest(roster, ptype, i);
          return;
        }
      }
      for i := 0 to |roster|
        invariant forall j :: 0 <= j < |roster| ==> !Specialises(roster[j], ptype)
        invariant forall j :: 0 <= j < i ==> !AlwaysOn(roster[j])
      {
        if AlwaysOn(roster[i]) {
          r := Some(roster[i]);
          PreferredIsBest(roster, ptype, i);
          return;
        }
      }
      if roster == [] {
        return None;
      }
      r := Some(roster[0]);
      PreferredIsBest(roster, ptype, 0);
    }

    /** `process_conversation`: one step of the conversation. `net` stands for
        the carrier's answers should this step place a call. */
    method ProcessConversation(step: string, transcript: string, diagQns: seq<string>, diagIdx: int,
                               diagAnswers: seq<string>, userProblem: string, problemType: string,
                               net: Telephony)
      returns (r: Response)
      // greeting: a fresh conversation
      ensures step == Greet ==> r == Respond(Restart(Welcome))
      // the problem description: call at once, or start the diagnostic questions
      ensures step == DescribeProblem && transcript == "" ==> r == Respond(Restart(RetryPrompt))
      ensures step == DescribeProblem && transcript != "" ==>
        var ptype := InferProblemType(transcript).Label();
        var questions := DiagnosticQuestions(ptype);
        r == Respond(
          if Escalates(transcript) then
            Turn(transcript, CallingMessage(Preferred(technicians, ptype)), [], [], 0, [],
                 transcript, ptype, Calling)
          else
            Turn(transcript, "I understand you're experiencing a " + ptype + ". " + questions[0], [],
                 questions, 0, [], transcript, ptype, Diagnostic))
      // a diagnostic answer: recorded, then call, ask the next question, or ask about urgency
      ensures step == Diagnostic ==>
        var answers := diagAnswers + [transcript];
        var next := diagIdx + 1;
        if Escalates(transcript) then
          r == Respond(Turn(transcript, CallingMessage(Preferred(technicians, problemType)), [],
                            diagQns, |answers|, answers, userProblem, problemType, Calling))
        else if next >= |diagQns| then
          r == Respond(Turn(transcript, UrgencyQuestion, [], diagQns, next, answers,
                            userProblem, problemType, Urgency))
        else if next < -|diagQns| then
          r == OutOfRange
        else
          r == Respond(Turn(transcript, PyIndex(diagQns, next), [], diagQns, next, answers,
                            userProblem, problemType, Diagnostic))
      // the urgency answer: call, or open a ticket
      ensures step == Urgency ==>
        var accepted := Escalates(transcript) || HasWord(transcript, YesTokens);
        r == Respond(Turn(transcript,
                          if accepted then CallingMessage(Preferred(technicians, problemType)) else TicketNotice,
                          [], diagQns, diagIdx, diagAnswers, userProblem, problemType,
                          if accepted then Calling else Complete))
      // calling: the call's final message and notes, and the conversation is over
      ensures step == Calling ==>
        r.Respond?
        && exists outcome: Outcome, events: seq<Event> ::
             Escalated(Preferred(technicians, problemType), net, outcome, events)
             && r.turn == Turn(transcript, outcome.Message(), events, diagQns, diagIdx, diagAnswers,
                               userProblem, problemType, Complete)
      // any other step: the conversation is over and stays over
      ensures step !in {Greet, DescribeProblem, Diagnostic, Urgency, Calling} ==>
        r == Respond(Turn(transcript, ClosingNotice, [], diagQns, diagIdx, diagAnswers,
                          userProblem, problemType, Complete))
      // the diagnostic bookkeeping stays in step, and then no step fails
      ensures Consistent(step, diagQns, diagIdx, diagAnswers) ==>
        r.Respond? && Consistent(r.turn.nextStep, r.turn.diagQns, r.turn.diagIdx, r.turn.diagAnswers)
    {
      if step == Greet {
        return Respond(Restart(Welcome));
      } else if step == DescribeProblem {
        if transcript == "" {
          return Respond(Restart(RetryPrompt));
        }
        var ptype := InferProblemType(transcript).Label();
        if DispatchIntent(transcript) || IsUrgent(transcript) {
          var tech := SelectTechnician(ptype);
          return Respond(Turn(transcript, CallingMessage(tech), [], [], 0, [], transcript, ptype, Calling));
        }
        var questions := DiagnosticQuestions(ptype);
        return Respond(Turn(transcript, "I understand you're experiencing a " + ptype + ". " + questions[0], [],
                            questions, 0, [], transcript, ptype, Diagnostic));
      } else if step == Diagnostic {
        var answers := diagAnswers + [transcript];
        if DispatchIntent(transcript) || IsUrgent(transcript) {
          var tech := SelectTechnician(problemType);
          return Respond(Turn(transcript, CallingMessage(tech), [], diagQns, |answers|, answers,
                              userProblem, problemType, Calling));
        }
        var next := diagIdx + 1;
        if next < |diagQns| {
          if next < -|diagQns| {
            return OutOfRange;
          }
          return Respond(Turn(transcript, PyIndex(diagQns, next), [], diagQns, next, answers,
                              userProblem, problemType, Diagnostic));
        }
        return Respond(Turn(transcript, UrgencyQuestion, [], diagQns, next, answers,
                            userProblem, problemType, Urgency));
      } else if step == Urgency {
        if DispatchIntent(transcript) || IsUrgent(transcript) || HasWord(transcript, YesTokens) {
          var tech := SelectTechnician(problemType);
          return Respond(Turn(transcript, CallingMessage(tech), [], diagQns, diagIdx, diagAnswers,
                              userProblem, problemType, Calling));
        }
        return Respond(Turn(transcript, TicketNotice, [], diagQns, diagIdx, diagAnswers,
                            userProblem, problemType, Complete));
      } else if step == Calling {
        var tech := SelectTechnician(problemType);
        var outcome, events := CallTechnician(tech, net);
        return Respond(Turn(transcript, outcome.Message(), events, diagQns, diagIdx, diagAnswers,
                            userProblem, problemType, Complete));
      }
      return Respond(Turn(transcript, ClosingNotice, [], diagQns, diagIdx, diagAnswers,
                          userProblem, problemType, Complete));
    }
  }
}
