/**
 * The phrase classifiers of the triage agent: problem type by ordered keyword
 * groups matched as whole words, the diagnostic question table, and the
 * dispatch-intent and urgency tests matched as plain substrings.
 */
module Classifier {
  import opened Text
  import opened Wrappers

  /** The closed set of problem categories. */
  datatype ProblemType =
    | VpnProblem | WifiDown | PrinterError | AccountLocked | CloudFailure
    | SoftwareBug | BillingIssue | DatabaseCrash | SecurityBreach
    | ServerOverload | EmailFailure | DataBackupFailure | FirewallError
  {
    /** The label the agent reports and keys its question table with. */
    function Label(): string {
      match this
      case VpnProblem => "VPN Problem"
      case WifiDown => "WiFi Down"
      case PrinterError => "Printer Error"
      case AccountLocked => "Account Locked"
      case CloudFailure => "Cloud Failure"
      case SoftwareBug => "Software Bug"
      case BillingIssue => "Billing Issue"
      case DatabaseCrash => "Database Crash"
      case SecurityBreach => "Security Breach"
      case ServerOverload => "Server Overload"
      case EmailFailure => "Email Failure"
      case DataBackupFailure => "Data Backup Failure"
      case FirewallError => "Firewall Error"
    }
  }

  /** A label has no whitespace at its ends: it is its own stripped form, so a
      roster field holding it, padded or not, strips to it. */
  lemma LabelIsStripped(p: ProblemType)
    ensures p.Label() != [] && Strip(p.Label()) == p.Label()
  {
  }

  /** Reads a label back; any other string is not a problem type. */
  function FromLabel(s: string): (r: Option<ProblemType>)
    ensures r.Some? ==> r.value.Label() == s
  {
    if s == "VPN Problem" then Some(VpnProblem)
    else if s == "WiFi Down" then Some(WifiDown)
    else if s == "Printer Error" then Some(PrinterError)
    else if s == "Account Locked" then Some(AccountLocked)
    else if s == "Cloud Failure" then Some(CloudFailure)
    else if s == "Software Bug" then Some(SoftwareBug)
    else if s == "Billing Issue" then Some(BillingIssue)
    else if s == "Database Crash" then Some(DatabaseCrash)
    else if s == "Security Breach" then Some(SecurityBreach)
    else if s == "Server Overload" then Some(ServerOverload)
    else if s == "Email Failure" then Some(EmailFailure)
    else if s == "Data Backup Failure" then Some(DataBackupFailure)
    else if s == "Firewall Error" then Some(FirewallError)
    else None
  }

  /** Every label reads back as its own problem type, so labels are distinct. */
  lemma LabelRoundTrip(p: ProblemType)
    ensures FromLabel(p.Label()) == Some(p)
  {
  }

  /** The table is keyed by labels: each category's label finds its own script. */
  lemma QuestionsForLabel(p: ProblemType)
    ensures DiagnosticQuestions(p.Label()) == Script(p)
  {
    LabelRoundTrip(p);
  }

  // ---------------------------------------------------------------------------
  // infer_problem_type

  /** The keyword groups, in the order they are tried. */
  const KeywordGroups: seq<(ProblemType, seq<string>)> := [
    (VpnProblem, ["vpn", "remote", "access"]),
    (WifiDown, ["wifi", "wi-fi", "internet", "network", "connection", "connect"]),
    (PrinterError, ["printer", "print", "printing"]),
    (AccountLocked, ["account", "login", "password", "locked", "access denied"]),
    (CloudFailure, ["cloud", "aws", "azure", "storage"]),
    (SoftwareBug, ["software", "application", "bug", "crash", "error"]),
    (BillingIssue, ["billing", "payment", "invoice", "charge"]),
    (DatabaseCrash, ["database", "db", "sql", "data"]),
    (SecurityBreach, ["security", "breach", "hack", "malware", "virus"]),
    (ServerOverload, ["server", "overload", "slow", "performance"]),
    (EmailFailure, ["email", "smtp", "outlook"]),
    (DataBackupFailure, ["backup", "restore", "recovery"]),
    (FirewallError, ["firewall", "port", "blocked"])
  ]

  /** Group `i` is the first of `groups` with a keyword in `text`. */
  ghost predicate FirstMatchingGroup(text: string, groups: seq<(ProblemType, seq<string>)>, i: nat) {
    i < |groups| && HasWord(text, groups[i].1)
    && forall j :: 0 <= j < i ==> !HasWord(text, groups[j].1)
  }

  /** Index of the first group that has a keyword in `text`, if any. */
  function FirstMatch(text: string, groups: seq<(ProblemType, seq<string>)>): (r: Option<nat>)
    ensures r.Some? ==> FirstMatchingGroup(text, groups, r.value)
    ensures r.None? <==> forall j :: 0 <= j < |groups| ==> !HasWord(text, groups[j].1)
  {
    if groups == [] then None
    else if HasWord(text, groups[0].1) then Some(0)
    else match FirstMatch(text, groups[1..])
      case None => None
      case Some(i) => Some(i + 1)
  }

  /** `infer_problem_type`: the category of the first keyword group that has a
      whole-word, case-insensitive match, or Software Bug when none has. */
  function InferProblemType(text: string): (r: ProblemType)
    ensures (exists i: nat :: FirstMatchingGroup(text, KeywordGroups, i) && r == KeywordGroups[i].0)
         || ((forall j :: 0 <= j < |KeywordGroups| ==> !HasWord(text, KeywordGroups[j].1)) && r == SoftwareBug)
  {
    match FirstMatch(text, KeywordGroups)
    case Some(i) => KeywordGroups[i].0
    case None => SoftwareBug
  }

  /** The tie-break the ordering exists for: any text mentioning "vpn" as a word
      is a VPN Problem, whatever else it mentions (WiFi included). */
  lemma VpnWinsTies(text: string)
    requires ContainsWord(Lower(text), "vpn")
    ensures InferProblemType(text) == VpnProblem
  {
    assert Lower("vpn") == "vpn";
    assert HasWord(text, KeywordGroups[0].1);
  }

  /** Text without a keyword (the empty text in particular) is a Software Bug. */
  lemma EmptyTextIsSoftwareBug()
    ensures InferProblemType("") == SoftwareBug
  {
    forall j | 0 <= j < |KeywordGroups|
      ensures !HasWord("", KeywordGroups[j].1)
    {
      NothingInEmptyText(KeywordGroups[j].1);
    }
  }

  lemma NothingInEmptyText(words: seq<string>)
    requires forall i :: 0 <= i < |words| ==> words[i] != []
    ensures !HasWord("", words)
  {
    forall i | 0 <= i < |words|
      ensures !ContainsWord(Lower(""), Lower(words[i]))
    {
      assert |Lower(words[i])| > 0;
      assert !ContainsWordFrom(Lower(""), Lower(words[i]), 0);
    }
  }

  /** The first matching group decides the category. */
  lemma InferredFromFirstMatch(text: string, i: nat)
    requires FirstMatchingGroup(text, KeywordGroups, i)
    ensures InferProblemType(text) == KeywordGroups[i].0
  {
    var r := FirstMatch(text, KeywordGroups);
    assert r.Some?;
  }

  /** A caller reporting a WiFi drop-out is classified as WiFi Down: "wifi" is a
      whole word, and nothing of the VPN group occurs. */
  lemma WifiComplaint()
    ensures InferProblemType("my wifi keeps disconnecting") == WifiDown
  {
    var t := "my wifi keeps disconnecting";
    MentionsWifi(t);
    LacksVpnWords(t);
    assert FirstMatchingGroup(t, KeywordGroups, 1);
    InferredFromFirstMatch(t, 1);
  }

  lemma MentionsWifi(t: string)
    requires t == "my wifi keeps disconnecting"
    ensures HasWord(t, KeywordGroups[1].1)
  {
    var words := KeywordGroups[1].1;
    LowerOfLowercase(t);
    LowerOfLowercase(words[0]);
    WifiAt(t);
    assert ContainsWord(Lower(t), Lower(words[0]));
  }

  lemma WifiAt(t: string)
    requires t == "my wifi keeps disconnecting"
    ensures ContainsWord(t, "wifi")
  {
    SubstringByChars(t, "wifi", 3);
    assert Boundary(t, 3) by { assert t[2] == ' ' && t[3] == 'w'; }
    assert Boundary(t, 7) by { assert t[6] == 'i' && t[7] == ' '; }
    assert WordAt(t, "wifi", 3);
  }

  lemma LacksVpnWords(t: string)
    requires t == "my wifi keeps disconnecting"
    ensures !HasWord(t, KeywordGroups[0].1)
  {
    LowerOfLowercase(t);
    var vpnGroup := KeywordGroups[0].1;
    forall i | 0 <= i < |vpnGroup|
      ensures !ContainsWord(Lower(t), Lower(vpnGroup[i]))
    {
      LowerOfLowercase(vpnGroup[i]);
      assert vpnGroup[i][0] in "vra";
      FirstCharAbsent(t, vpnGroup[i]);
      NotSubstringNotWord(t, vpnGroup[i]);
    }
  }

  /** Lowering text without upper-case letters changes nothing. */
  lemma LowerOfLowercase(s: string)
    requires forall k :: 0 <= k < |s| ==> !('A' <= s[k] <= 'Z')
    ensures Lower(s) == s
  {
  }

  /** An occurrence, character by character. */
  lemma SubstringByChars(t: string, w: string, p: nat)
    requires p + |w| <= |t| && forall k :: 0 <= k < |w| ==> t[p + k] == w[k]
    ensures SubstringAt(t, w, p)
  {
    assert t[p..p + |w|] == w;
  }

  /** Whole-word absence from substring absence. */
  lemma NotSubstringNotWord(t: string, w: string)
    requires !Contains(t, w)
    ensures !ContainsWord(t, w)
  {
    if ContainsWord(t, w) { WordImpliesSubstring(t, w); }
  }

  // ---------------------------------------------------------------------------
  // get_diagnostic_questions

  /** The two follow-up questions for each category. */
  function Script(p: ProblemType): (qs: seq<string>)
    ensures |qs| == 2
  {
    match p
    case VpnProblem => ["Can you access the VPN login page?", "What error message appears when you try to connect?"]
    case WifiDown => ["Are other devices unable to connect too?", "Have you tried restarting the router?"]
    case PrinterError => ["Is the printer powered on and connected?", "Do you see any error lights or messages on the printer?"]
    case AccountLocked => ["When did you last successfully log in?", "Have you tried resetting your password?"]
    case CloudFailure => ["Which cloud service is affected?", "When did you first notice the issue?"]
    case SoftwareBug => ["Which application is experiencing the bug?", "Can you reproduce the issue consistently?"]
    case BillingIssue => ["What is your account number or invoice ID?", "Can you describe the billing discrepancy?"]
    case DatabaseCrash => ["Which database system is affected?", "When did the crash occur?"]
    case SecurityBreach => ["What type of security issue have you noticed?", "When did you first detect the breach?"]
    case ServerOverload => ["Which server or service is affected?", "What is the current CPU or memory usage?"]
    case EmailFailure => ["Are you unable to send or receive emails?", "What error message do you see?"]
    case DataBackupFailure => ["When was the last successful backup?", "What error message appears during backup?"]
    case FirewallError => ["Which port or service is being blocked?", "When did this firewall issue start?"]
  }

  /** The questions asked for a label that is not in the table. */
  const GenericQuestions: seq<string> :=
    ["Can you describe the issue in more detail?", "When did this problem first occur?"]

  /** `get_diagnostic_questions`: the table entry for a known label, the generic
      pair for any other string; always exactly two questions. */
  function DiagnosticQuestions(ptype: string): (qs: seq<string>)
    ensures |qs| == 2
    ensures FromLabel(ptype).Some? ==> qs == Script(FromLabel(ptype).value)
    ensures FromLabel(ptype).None? ==> qs == GenericQuestions
  {
    match FromLabel(ptype)
    case Some(p) => Script(p)
    case None => GenericQuestions
  }

  /** Whatever the text, its inferred category has its own two questions. */
  lemma InferredTypeHasScript(text: string)
    ensures DiagnosticQuestions(InferProblemType(text).Label()) == Script(InferProblemType(text))
    ensures |DiagnosticQuestions(InferProblemType(text).Label())| == 2
  {
    QuestionsForLabel(InferProblemType(text));
  }

  // ---------------------------------------------------------------------------
  // _dispatch_intent and is_urgent

  const DispatchPhrases: seq<string> := [
    "call the technician", "call technician", "call tech", "please call technician",
    "send technician", "send someone", "dispatch", "escalate",
    "book appointment", "schedule visit", "need onsite", "need on-site",
    "come now", "visit asap", "repair now", "send engineer"
  ]

  const UrgentEnglish: seq<string> :=
    ["urgent", "critical", "immediately", "asap", "now", "emergency", "high priority"]
  const UrgentHindi: seq<string> := ["जरूरी", "तुरंत", "इमरजेंसी", "अभी"]
  const UrgentKannadaTamilTelugu: seq<string> :=
    ["ತುರ್ತು", "ತಕ್ಷಣ", "அவசரம்", "உடனே", "అత్యవసరం", "ఇప్పుడే"]
  const UrgentArabicUrdu: seq<string> := ["عاجل", "فوراً", "فورا", "ضروری", "فوری"]

  /** `_dispatch_intent`: a non-empty text whose lowered form contains one of the
      phrases anywhere, word boundaries ignored. */
  function DispatchIntent(text: string): (r: bool)
    ensures r <==> text != "" && exists i :: 0 <= i < |DispatchPhrases| && Contains(Lower(text), DispatchPhrases[i])
  {
    if text == "" then false else ContainsAny(Lower(text), DispatchPhrases)
  }

  /** `is_urgent`: the lowered and stripped text contains a keyword of one of the
      four language lists. */
  function IsUrgent(text: string): (r: bool)
    ensures text == "" ==> !r
  {
    if text == "" then false
    else
      var t := Strip(Lower(text));
      ContainsAny(t, UrgentEnglish) || ContainsAny(t, UrgentHindi)
      || ContainsAny(t, UrgentKannadaTamilTelugu) || ContainsAny(t, UrgentArabicUrdu)
  }

  /** All urgency keywords in one list. */
  const UrgentWords: seq<string> := UrgentEnglish + UrgentHindi + UrgentKannadaTamilTelugu + UrgentArabicUrdu

  lemma ContainsAnyConcat(t: string, a: seq<string>, b: seq<string>)
    ensures ContainsAny(t, a + b) <==> ContainsAny(t, a) || ContainsAny(t, b)
  {
    if ContainsAny(t, a + b) {
      var i :| 0 <= i < |a + b| && Contains(t, (a + b)[i]);
      if i < |a| { assert a[i] == (a + b)[i]; } else { assert b[i - |a|] == (a + b)[i]; }
    }
    if ContainsAny(t, a) {
      var i :| 0 <= i < |a| && Contains(t, a[i]);
      assert (a + b)[i] == a[i];
    }
    if ContainsAny(t, b) {
      var i :| 0 <= i < |b| && Contains(t, b[i]);
      assert (a + b)[|a| + i] == b[i];
    }
  }

  /** The stripping in `is_urgent` makes no difference: urgency is exactly "the
      text is non-empty and its lowered form contains one of the keywords as a
      substring", with no word boundaries. */
  lemma UrgentIsPlainSubstring(text: string)
    ensures IsUrgent(text) <==> text != "" && exists i :: 0 <= i < |UrgentWords| && Contains(Lower(text), UrgentWords[i])
  {
    var low := Lower(text);
    assert NoSpaceAtEnds(UrgentEnglish);
    assert NoSpaceAtEnds(UrgentHindi);
    assert NoSpaceAtEnds(UrgentKannadaTamilTelugu);
    assert NoSpaceAtEnds(UrgentArabicUrdu);
    StripKeepsContainsAny(low, UrgentEnglish);
    StripKeepsContainsAny(low, UrgentHindi);
    StripKeepsContainsAny(low, UrgentKannadaTamilTelugu);
    StripKeepsContainsAny(low, UrgentArabicUrdu);
    ContainsAnyConcat(low, UrgentEnglish, UrgentHindi);
    ContainsAnyConcat(low, UrgentEnglish + UrgentHindi, UrgentKannadaTamilTelugu);
    ContainsAnyConcat(low, UrgentEnglish + UrgentHindi + UrgentKannadaTamilTelugu, UrgentArabicUrdu);
  }

  /** No word boundaries: "know" contains "now", so it reads as urgent. */
  lemma KnowIsUrgent()
    ensures IsUrgent("I know")
  {
    var low := Lower("I know");
    SubstringByChars(low, "now", 3);
    StripKeepsContains(low, "now");
    assert Contains(Strip(low), UrgentEnglish[4]);
  }

  /** No word boundaries: "dispatched" contains "dispatch". */
  lemma DispatchedIsDispatchIntent()
    ensures DispatchIntent("Has it been Dispatched?")
  {
    var low := Lower("Has it been Dispatched?");
    SubstringByChars(low, "dispatch", 12);
    assert Contains(low, DispatchPhrases[6]);
  }
}
