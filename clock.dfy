/**
 * `_extract_time`: the appointment time a technician states, found by three
 * regular expressions tried in priority order, each searched leftmost-first
 * over the lowered text:
 *
 *   Meridiem  `\b(\d{1,2}(:\d{2})?\s?(am|pm))\b`, answered upper-cased;
 *   Clock     `\b(\d{1,2}:\d{2})\b`, answered as found;
 *   Relative  `\b(in|after)\s+(\d{1,3})\s+(minute|minutes|min)\b`, answered as
 *             "in N minutes".
 *
 * Backtracking never finds a second way to match at a given position: a shorter
 * digit run leaves a digit where a colon, space or letter is needed, and an
 * optional colon group or space that is present but skipped leaves a colon or
 * a space where a digit or a letter is needed. So each pattern is written as a
 * deterministic scanner over maximal runs.
 */
module Clock {
  import opened Text
  import opened Wrappers

  datatype Pattern = Meridiem | Clock | Relative

  /** End of an optional `:\d{2}` group at `d`; `None` when a colon is there
      but two digits do not follow it. */
  function MinutesGroup(t: string, d: nat): (r: Option<nat>)
    requires d <= |t|
    ensures r.Some? ==> d <= r.value <= |t|
    ensures (d == |t| || t[d] != ':') ==> r == Some(d)
    ensures d < |t| && t[d] == ':' ==>
      (r.Some? <==> d + 3 <= |t| && IsDigit(t[d + 1]) && IsDigit(t[d + 2]))
      && (r.Some? ==> r.value == d + 3)
  {
    if d < |t| && t[d] == ':' then
      (if DigitRun(t, d + 1) >= 2 then Some(d + 3) else None)
    else Some(d)
  }

  /** `am` or `pm` occurs at `s`. */
  predicate MeridiemWordAt(t: string, s: nat) {
    s + 2 <= |t| && (t[s] == 'a' || t[s] == 'p') && t[s + 1] == 'm'
  }

  /** The rest of a meridiem match after its optional minutes end at `q`: an
      optional whitespace character, then `am` or `pm` ending at a word
      boundary. Where the group ends. */
  function MeridiemTailEnd(t: string, q: nat): (e: Option<nat>)
    requires q <= |t|
    ensures e.Some? ==> q + 2 <= e.value <= q + 3 && MeridiemWordAt(t, e.value - 2)
  {
    var s := if q < |t| && IsSpace(t[q]) then q + 1 else q;
    if MeridiemWordAt(t, s) && Boundary(t, s + 2) then Some(s + 2) else None
  }

  /** Where the group of `\b(\d{1,2}(:\d{2})?\s?(am|pm))\b` ends when the
      pattern matches at `p`. */
  function MeridiemGroupEnd(t: string, p: nat): (e: Option<nat>)
    requires p <= |t|
    ensures e.Some? ==> p + 3 <= e.value <= |t| && IsDigit(t[p]) && MeridiemWordAt(t, e.value - 2)
  {
    var n := DigitRun(t, p);
    if !Boundary(t, p) || n < 1 || n > 2 then None
    else match MinutesGroup(t, p + n)
      case None => None
      case Some(q) => MeridiemTailEnd(t, q)
  }

  /** `\b(\d{1,2}(:\d{2})?\s?(am|pm))\b` at `p`: the matched group, upper-cased. */
  function MeridiemAt(t: string, p: nat): (r: Option<string>)
    requires p <= |t|
    ensures r.Some? ==> |r.value| >= 3 && IsDigit(r.value[0])
    ensures r.Some? ==> r.value[|r.value| - 1] == 'M' && (r.value[|r.value| - 2] == 'A' || r.value[|r.value| - 2] == 'P')
    ensures r.Some? ==> p + |r.value| <= |t| && r.value == Upper(t[p..p + |r.value|])
  {
    match MeridiemGroupEnd(t, p)
    case None => None
    case Some(e) =>
      var g := t[p..e];
      assert g[0] == t[p] && g[|g| - 1] == t[e - 1] && g[|g| - 2] == t[e - 2];
      Some(Upper(g))
  }

  /** Where the group of `\b(\d{1,2}:\d{2})\b` ends when the pattern matches at `p`. */
  function ClockGroupEnd(t: string, p: nat): (e: Option<nat>)
    requires p <= |t|
    ensures e.Some? ==> p + 4 <= e.value <= p + 5 && e.value <= |t| && t[e.value - 3] == ':'
    ensures e.Some? ==> forall i :: p <= i < e.value && i != e.value - 3 ==> IsDigit(t[i])
  {
    var n := DigitRun(t, p);
    if !Boundary(t, p) || n < 1 || n > 2 then None
    else
      var d := p + n;
      if d < |t| && t[d] == ':' && DigitRun(t, d + 1) >= 2 && Boundary(t, d + 3) then Some(d + 3)
      else None
  }

  /** `\b(\d{1,2}:\d{2})\b` at `p`: the matched group. */
  function ClockAt(t: string, p: nat): (r: Option<string>)
    requires p <= |t|
    ensures r.Some? ==> 4 <= |r.value| <= 5 && r.value[|r.value| - 3] == ':'
    ensures r.Some? ==> forall i :: 0 <= i < |r.value| && i != |r.value| - 3 ==> IsDigit(r.value[i])
    ensures r.Some? ==> p + |r.value| <= |t| && r.value == t[p..p + |r.value|]
  {
    match ClockGroupEnd(t, p)
    case None => None
    case Some(e) => Some(t[p..e])
  }

  /** `(minute|minutes|min)\b` at `u`: `min`, `minute` or `minutes` followed by
      a word boundary. */
  predicate UnitAt(t: string, u: nat) {
    u + 3 <= |t| && t[u] == 'm' && t[u + 1] == 'i' && t[u + 2] == 'n'
    && (Boundary(t, u + 3)
        || (u + 6 <= |t| && t[u + 3] == 'u' && t[u + 4] == 't' && t[u + 5] == 'e'
            && (Boundary(t, u + 6) || (u + 7 <= |t| && t[u + 6] == 's' && Boundary(t, u + 7)))))
  }

  /** `in` at `p`. */
  predicate InAt(t: string, p: nat) {
    p + 2 <= |t| && t[p] == 'i' && t[p + 1] == 'n'
  }

  /** `after` at `p`. */
  predicate AfterAt(t: string, p: nat) {
    p + 5 <= |t| && t[p] == 'a' && t[p + 1] == 'f' && t[p + 2] == 't' && t[p + 3] == 'e' && t[p + 4] == 'r'
  }

  /** One to three digits. */
  predicate MinuteCount(n: string) {
    1 <= |n| <= 3 && forall i :: 0 <= i < |n| ==> IsDigit(n[i])
  }

  /** The answer of a relative match with count `n`. */
  function InMinutes(n: string): string {
    "in " + n + " minutes"
  }

  /** Where `\b(in|after)` ends when it matches at `p`. */
  function KeywordEnd(t: string, p: nat): (a: Option<nat>)
    requires p <= |t|
    ensures a.Some? ==> p < a.value <= |t|
  {
    if !Boundary(t, p) then None
    else if InAt(t, p) then Some(p + 2)
    else if AfterAt(t, p) then Some(p + 5)
    else None
  }

  /** The rest of a relative match whose keyword ends at `a`: whitespace, one to
      three digits, whitespace and a unit ending at a word boundary. The answer
      is where the digits start and end. */
  function CountSpan(t: string, a: nat): (r: Option<(nat, nat)>)
    requires a <= |t|
    ensures r.Some? ==> a < r.value.0 <= r.value.1 <= |t|
  {
    var w1 := SpaceRun(t, a);
    var b := a + w1;
    var n := DigitRun(t, b);
    var c := b + n;
    var w2 := SpaceRun(t, c);
    if w1 >= 1 && 1 <= n <= 3 && w2 >= 1 && UnitAt(t, c + w2) then Some((b, c)) else None
  }

  /** Where the number of minutes lies in a relative match at `p`. */
  function RelativeSpan(t: string, p: nat): (r: Option<(nat, nat)>)
    requires p <= |t|
    ensures r.Some? ==> p < r.value.0 <= r.value.1 <= |t| && MinuteCount(t[r.value.0..r.value.1])
  {
    match KeywordEnd(t, p)
    case None => None
    case Some(a) => CountSpanIsCount(t, a); CountSpan(t, a)
  }

  /** The tail scanner finds one to three digits. */
  lemma CountSpanIsCount(t: string, a: nat)
    requires a <= |t|
    ensures CountSpan(t, a).Some? ==> MinuteCount(t[CountSpan(t, a).value.0..CountSpan(t, a).value.1])
  {
  }

  /** `\b(in|after)\s+(\d{1,3})\s+(minute|minutes|min)\b` at `p`: "in N minutes". */
  function RelativeAt(t: string, p: nat): (r: Option<string>)
    requires p <= |t|
    ensures r.Some? ==> exists b: nat, c: nat :: p < b <= c <= |t| && MinuteCount(t[b..c])
                                                 && r.value == InMinutes(t[b..c])
  {
    match RelativeSpan(t, p)
    case None => None
    case Some(span) => Some(InMinutes(t[span.0..span.1]))
  }

  /** The pattern matches at `p`. */
  predicate Matches(pat: Pattern, t: string, p: nat)
    requires p <= |t|
  {
    match pat
    case Meridiem => MeridiemGroupEnd(t, p).Some?
    case Clock => ClockGroupEnd(t, p).Some?
    case Relative => RelativeSpan(t, p).Some?
  }

  /** The answer a pattern gives at `p`: something exactly when it matches there. */
  function MatchAt(pat: Pattern, t: string, p: nat): (r: Option<string>)
    requires p <= |t|
    ensures r.Some? <==> Matches(pat, t, p)
  {
    match pat
    case Meridiem => MeridiemAt(t, p)
    case Clock => ClockAt(t, p)
    case Relative => RelativeAt(t, p)
  }

  // ---------------------------------------------------------------------------
  // The patterns as regular expressions: a match at `p` is any way of choosing
  // the repetition counts and the optional parts that the pattern allows. The
  // scanners answer exactly when such a choice exists, and every such choice
  // yields the scanner's answer, so backtracking cannot change the group.

  /** `\b(\d{1,2}:\d{2})\b` matches at `p`, with `n` hour digits. */
  predicate ClockMatch(t: string, p: nat, n: nat) {
    1 <= n <= 2 && p + n + 3 <= |t| && Boundary(t, p) && DigitsBetween(t, p, p + n)
    && t[p + n] == ':' && IsDigit(t[p + n + 1]) && IsDigit(t[p + n + 2])
    && Boundary(t, p + n + 3)
  }

  /** The clock scanner finds a group exactly when the pattern matches, and
      every way of matching ends the group where it does. */
  lemma ClockGroupEndIsRegex(t: string, p: nat)
    requires p <= |t|
    ensures ClockGroupEnd(t, p).Some? <==> exists n: nat :: ClockMatch(t, p, n)
    ensures forall n: nat :: ClockMatch(t, p, n) ==> ClockGroupEnd(t, p) == Some(p + n + 3)
  {
    forall n: nat | ClockMatch(t, p, n)
      ensures ClockGroupEnd(t, p) == Some(p + n + 3)
    {
      DigitRunIsMaximal(t, p, n);
    }
    if ClockGroupEnd(t, p).Some? {
      assert ClockMatch(t, p, DigitRun(t, p));
    }
  }

  /** The clock pattern answers exactly when it matches, with the matched group. */
  lemma ClockAtIsRegex(t: string, p: nat)
    requires p <= |t|
    ensures ClockAt(t, p).Some? <==> exists n: nat :: ClockMatch(t, p, n)
    ensures forall n: nat :: ClockMatch(t, p, n) ==> ClockAt(t, p) == Some(t[p..p + n + 3])
  {
    ClockGroupEndIsRegex(t, p);
  }

  /** Where a meridiem match chosen by `n`, `minutes` and `space` ends. */
  function MeridiemMatchEnd(p: nat, n: nat, minutes: bool, space: bool): (e: nat)
    ensures e >= p + n + 2
  {
    p + n + (if minutes then 3 else 0) + (if space then 1 else 0) + 2
  }

  /** `\b(\d{1,2}(:\d{2})?\s?(am|pm))\b` matches at `p`, with `n` hour digits,
      the minutes group taken when `minutes` and the whitespace taken when
      `space`. */
  predicate MeridiemMatch(t: string, p: nat, n: nat, minutes: bool, space: bool) {
    var q := p + n + (if minutes then 3 else 0);
    var s := q + (if space then 1 else 0);
    1 <= n <= 2 && s + 2 <= |t| && Boundary(t, p) && DigitsBetween(t, p, p + n)
    && (minutes ==> t[p + n] == ':' && IsDigit(t[p + n + 1]) && IsDigit(t[p + n + 2]))
    && (space ==> IsSpace(t[q]))
    && MeridiemWordAt(t, s) && Boundary(t, s + 2)
  }

  /** Every way of matching ends the group where the scanner does. */
  lemma MeridiemMatchAnswers(t: string, p: nat, n: nat, minutes: bool, space: bool)
    requires MeridiemMatch(t, p, n, minutes, space)
    ensures MeridiemGroupEnd(t, p) == Some(MeridiemMatchEnd(p, n, minutes, space))
  {
    var q := p + n + (if minutes then 3 else 0);
    var s := q + (if space then 1 else 0);
    assert !IsDigit(t[p + n]) by {
      if minutes { assert t[p + n] == ':'; }
      else if space { assert IsSpace(t[p + n]); }
      else { assert t[p + n] == t[s]; }
    }
    DigitRunIsMaximal(t, p, n);
    assert MinutesGroup(t, p + n) == Some(q);
    assert (q < |t| && IsSpace(t[q])) == space;
    assert MeridiemTailEnd(t, q) == Some(s + 2);
  }

  /** A meridiem group the scanner finds is a match of the pattern. */
  lemma MeridiemGroupEndMatches(t: string, p: nat)
    requires p <= |t| && MeridiemGroupEnd(t, p).Some?
    ensures exists n: nat, minutes: bool, space: bool :: MeridiemMatch(t, p, n, minutes, space)
  {
    var n := DigitRun(t, p);
    var q := MinutesGroup(t, p + n).value;
    var space := q < |t| && IsSpace(t[q]);
    assert MeridiemMatch(t, p, n, q != p + n, space);
  }

  /** The meridiem scanner finds a group exactly when the pattern matches, and
      every way of matching ends the group where it does. */
  lemma MeridiemGroupEndIsRegex(t: string, p: nat)
    requires p <= |t|
    ensures MeridiemGroupEnd(t, p).Some? <==>
      exists n: nat, minutes: bool, space: bool :: MeridiemMatch(t, p, n, minutes, space)
    ensures forall n: nat, minutes: bool, space: bool :: MeridiemMatch(t, p, n, minutes, space) ==>
      MeridiemGroupEnd(t, p) == Some(MeridiemMatchEnd(p, n, minutes, space))
  {
    forall n: nat, minutes: bool, space: bool | MeridiemMatch(t, p, n, minutes, space)
      ensures MeridiemGroupEnd(t, p) == Some(MeridiemMatchEnd(p, n, minutes, space))
    {
      MeridiemMatchAnswers(t, p, n, minutes, space);
    }
    if MeridiemGroupEnd(t, p).Some? {
      MeridiemGroupEndMatches(t, p);
    }
  }

  /** The meridiem pattern answers exactly when it matches, with the matched
      group upper-cased. */
  lemma MeridiemAtIsRegex(t: string, p: nat)
    requires p <= |t|
    ensures MeridiemAt(t, p).Some? <==> exists n: nat, minutes: bool, space: bool :: MeridiemMatch(t, p, n, minutes, space)
    ensures forall n: nat, minutes: bool, space: bool :: MeridiemMatch(t, p, n, minutes, space) ==>
      MeridiemAt(t, p) == Some(Upper(t[p..MeridiemMatchEnd(p, n, minutes, space)]))
  {
    MeridiemGroupEndIsRegex(t, p);
  }

  /** After a keyword ending at `a`: `w1` whitespace characters, `n` digits,
      `w2` whitespace characters and a unit ending at a word boundary. */
  predicate RelativeTailMatch(t: string, a: nat, w1: nat, n: nat, w2: nat) {
    1 <= w1 && SpacesBetween(t, a, a + w1)
    && 1 <= n <= 3 && DigitsBetween(t, a + w1, a + w1 + n)
    && 1 <= w2 && SpacesBetween(t, a + w1 + n, a + w1 + n + w2)
    && UnitAt(t, a + w1 + n + w2)
  }

  /** `in` or `after` starts at a word boundary at `p` and has `k` letters. */
  predicate KeywordAt(t: string, p: nat, k: nat) {
    p <= |t| && Boundary(t, p)
    && ((k == 2 && InAt(t, p)) || (k == 5 && AfterAt(t, p)))
  }

  /** A keyword that matches ends where the scanner says. */
  lemma KeywordEndAnswers(t: string, p: nat, k: nat)
    requires KeywordAt(t, p, k)
    ensures KeywordEnd(t, p) == Some(p + k)
  {
    assert InAt(t, p) <==> k == 2;
  }

  /** `\b(in|after)\s+(\d{1,3})\s+(minute|minutes|min)\b` matches at `p`, with a
      keyword of `k` letters, `w1` whitespace characters, `n` digits and `w2`
      whitespace characters before the unit. */
  predicate RelativeMatch(t: string, p: nat, k: nat, w1: nat, n: nat, w2: nat) {
    KeywordAt(t, p, k) && RelativeTailMatch(t, p + k, w1, n, w2)
  }

  /** Every way of matching finds the number of minutes where the scanner does. */
  lemma RelativeMatchAnswers(t: string, p: nat, k: nat, w1: nat, n: nat, w2: nat)
    requires RelativeMatch(t, p, k, w1, n, w2)
    ensures RelativeSpan(t, p) == Some((p + k + w1, p + k + w1 + n))
  {
    KeywordEndAnswers(t, p, k);
    CountSpanAnswers(t, p + k, w1, n, w2);
  }

  /** A relative match the scanner finds is a match of the pattern. */
  lemma RelativeSpanMatches(t: string, p: nat)
    requires p <= |t| && RelativeSpan(t, p).Some?
    ensures exists k: nat, w1: nat, n: nat, w2: nat :: RelativeMatch(t, p, k, w1, n, w2)
  {
    var k := KeywordEnd(t, p).value - p;
    assert KeywordAt(t, p, k);
    CountSpanMatches(t, p + k);
    var w1: nat, n: nat, w2: nat :| RelativeTailMatch(t, p + k, w1, n, w2);
    assert RelativeMatch(t, p, k, w1, n, w2);
  }

  /** The relative pattern answers exactly when it matches, and every way of
      matching it gives the scanner's answer. */
  lemma RelativeAtIsRegex(t: string, p: nat)
    requires p <= |t|
    ensures RelativeAt(t, p).Some? <==> exists k: nat, w1: nat, n: nat, w2: nat :: RelativeMatch(t, p, k, w1, n, w2)
    ensures forall k: nat, w1: nat, n: nat, w2: nat :: RelativeMatch(t, p, k, w1, n, w2) ==>
      RelativeAt(t, p) == Some(InMinutes(t[p + k + w1..p + k + w1 + n]))
  {
    forall k: nat, w1: nat, n: nat, w2: nat | RelativeMatch(t, p, k, w1, n, w2)
      ensures RelativeAt(t, p) == Some(InMinutes(t[p + k + w1..p + k + w1 + n]))
    {
      RelativeMatchAnswers(t, p, k, w1, n, w2);
    }
    if RelativeAt(t, p).Some? {
      RelativeSpanMatches(t, p);
    }
  }

  /** A tail that matches in some way has its digits where the scanner finds them. */
  lemma CountSpanAnswers(t: string, a: nat, w1: nat, n: nat, w2: nat)
    requires RelativeTailMatch(t, a, w1, n, w2)
    ensures CountSpan(t, a) == Some((a + w1, a + w1 + n))
  {
    SpacesBeforeDigit(t, a, w1);
    DigitsBeforeSpace(t, a + w1, n);
    SpacesBeforeUnit(t, a + w1 + n, w2);
    CountSpanOfRuns(t, a, w1, n, w2);
  }

  /** Whitespace followed by a digit is the whole whitespace run. */
  lemma SpacesBeforeDigit(t: string, a: nat, w: nat)
    requires SpacesBetween(t, a, a + w) && a + w < |t| && IsDigit(t[a + w])
    ensures SpaceRun(t, a) == w
  {
    SpaceRunIsMaximal(t, a, w);
  }

  /** Digits followed by whitespace are the whole digit run. */
  lemma DigitsBeforeSpace(t: string, b: nat, n: nat)
    requires DigitsBetween(t, b, b + n) && b + n < |t| && IsSpace(t[b + n])
    ensures DigitRun(t, b) == n
  {
    DigitRunIsMaximal(t, b, n);
  }

  /** Whitespace followed by a unit is the whole whitespace run. */
  lemma SpacesBeforeUnit(t: string, c: nat, w: nat)
    requires SpacesBetween(t, c, c + w) && c + w <= |t| && UnitAt(t, c + w)
    ensures SpaceRun(t, c) == w
  {
    SpaceRunIsMaximal(t, c, w);
  }

  /** The tail scanner, given the lengths of the runs it finds. */
  lemma CountSpanOfRuns(t: string, a: nat, w1: nat, n: nat, w2: nat)
    requires a <= |t| && SpaceRun(t, a) == w1 && DigitRun(t, a + w1) == n && SpaceRun(t, a + w1 + n) == w2
    requires 1 <= w1 && 1 <= n <= 3 && 1 <= w2 && UnitAt(t, a + w1 + n + w2)
    ensures CountSpan(t, a) == Some((a + w1, a + w1 + n))
  {
  }

  /** A tail the scanner accepts matches the tail of the pattern, with the runs
      it finds. */
  lemma CountSpanMatches(t: string, a: nat)
    requires a <= |t| && CountSpan(t, a).Some?
    ensures exists w1: nat, n: nat, w2: nat :: RelativeTailMatch(t, a, w1, n, w2)
  {
    var w1 := SpaceRun(t, a);
    var n := DigitRun(t, a + w1);
    assert RelativeTailMatch(t, a, w1, n, SpaceRun(t, a + w1 + n));
  }

  /** `p` is where `re.search` finds the pattern: it matches there and nowhere
      to the left. */
  predicate Leftmost(pat: Pattern, t: string, p: nat) {
    p <= |t| && Matches(pat, t, p)
    && forall q :: 0 <= q < p ==> !Matches(pat, t, q)
  }

  /** The pattern matches nowhere in `t`. */
  predicate NoMatch(pat: Pattern, t: string) {
    forall q :: 0 <= q <= |t| ==> !Matches(pat, t, q)
  }

  /** `re.search` from position `from`: the first position that matches. */
  function SearchFrom(pat: Pattern, t: string, from: nat): (r: Option<nat>)
    requires from <= |t| + 1
    ensures r.Some? ==> (from <= r.value <= |t| && Matches(pat, t, r.value)
                         && forall q :: from <= q < r.value ==> !Matches(pat, t, q))
    ensures r.None? ==> forall q :: from <= q <= |t| ==> !Matches(pat, t, q)
    decreases |t| + 1 - from
  {
    if from > |t| then None
    else if Matches(pat, t, from) then Some(from)
    else SearchFrom(pat, t, from + 1)
  }

  /** `re.search` over the whole text. */
  function Search(pat: Pattern, t: string): (r: Option<nat>)
    ensures r.Some? ==> Leftmost(pat, t, r.value)
    ensures r.None? ==> NoMatch(pat, t)
  {
    SearchFrom(pat, t, 0)
  }

  /** The answer of the leftmost match of a pattern, if it matches. */
  function Find(pat: Pattern, t: string): (r: Option<string>)
    ensures r.Some? ==> exists p: nat :: Leftmost(pat, t, p) && r == MatchAt(pat, t, p)
    ensures r.None? ==> NoMatch(pat, t)
  {
    match Search(pat, t)
    case Some(p) => MatchAt(pat, t, p)
    case None => None
  }

  /** `_extract_time`: nothing for empty text; otherwise the answer of the first
      pattern, in priority order, that matches anywhere in the lowered text,
      taken at its leftmost match. */
  function ExtractTime(txt: string): (r: Option<string>)
    ensures txt == "" ==> r == None
    ensures txt != "" ==>
      var t := Lower(txt);
      || (exists p: nat :: Leftmost(Meridiem, t, p) && r == MatchAt(Meridiem, t, p))
      || (NoMatch(Meridiem, t) && exists p: nat :: Leftmost(Clock, t, p) && r == MatchAt(Clock, t, p))
      || (NoMatch(Meridiem, t) && NoMatch(Clock, t)
          && exists p: nat :: Leftmost(Relative, t, p) && r == MatchAt(Relative, t, p))
      || (NoMatch(Meridiem, t) && NoMatch(Clock, t) && NoMatch(Relative, t) && r == None)
  {
    if txt == "" then None
    else
      var t := Lower(txt);
      match Find(Meridiem, t)
      case Some(a) => Some(a)
      case None =>
        match Find(Clock, t)
        case Some(a) => Some(a)
        case None => Find(Relative, t)
  }
}
