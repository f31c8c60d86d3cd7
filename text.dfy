/**
 * Character classes and string scanning shared by the triage engine.
 *
 * Python's `str.lower()`, `str.strip()`, `str.isdigit()` and the regular
 * expression classes `\w`, `\d`, `\s` and `\b` are written out here as
 * explicit predicates over characters; the classes are the ASCII ones.
 */
module Text {

  /** `\w`: ASCII letters, digits and underscore. */
  predicate IsWordChar(c: char) {
    ('a' <= c <= 'z') || ('A' <= c <= 'Z') || ('0' <= c <= '9') || c == '_'
  }

  /** `\d` and `str.isdigit()`. */
  predicate IsDigit(c: char) {
    '0' <= c <= '9'
  }

  /** `\s` and the characters `str.strip()` removes: tab, line feed, vertical tab,
      form feed, carriage return, the four ASCII separators 0x1C-0x1F, and space. */
  predicate IsSpace(c: char) {
    (9 <= c as int <= 13) || (28 <= c as int <= 32)
  }

  function LowerChar(c: char): (r: char)
    ensures IsWordChar(r) <==> IsWordChar(c)
    ensures IsDigit(r) <==> IsDigit(c)
    ensures IsSpace(r) <==> IsSpace(c)
  {
    if 'A' <= c <= 'Z' then (c as int - 'A' as int + 'a' as int) as char else c
  }

  function UpperChar(c: char): (r: char)
    ensures IsWordChar(r) <==> IsWordChar(c)
    ensures IsDigit(r) <==> IsDigit(c)
    ensures IsSpace(r) <==> IsSpace(c)
  {
    if 'a' <= c <= 'z' then (c as int - 'a' as int + 'A' as int) as char else c
  }

  /** `str.lower()`, restricted to ASCII letters. */
  function Lower(s: string): (r: string)
    ensures |r| == |s|
    ensures forall i :: 0 <= i < |s| ==> r[i] == LowerChar(s[i])
  {
    seq(|s|, i requires 0 <= i < |s| => LowerChar(s[i]))
  }

  /** `str.upper()`, restricted to ASCII letters. */
  function Upper(s: string): (r: string)
    ensures |r| == |s|
    ensures forall i :: 0 <= i < |s| ==> r[i] == UpperChar(s[i])
  {
    seq(|s|, i requires 0 <= i < |s| => UpperChar(s[i]))
  }

  /** Lowering twice is lowering once. */
  lemma LowerIdempotent(s: string)
    ensures Lower(Lower(s)) == Lower(s)
  {
    assert forall i :: 0 <= i < |s| ==> Lower(Lower(s))[i] == Lower(s)[i];
  }

  /** Drops leading whitespace. */
  function TrimStart(s: string): string {
    if s != [] && IsSpace(s[0]) then TrimStart(s[1..]) else s
  }

  /** Drops trailing whitespace. */
  function TrimEnd(s: string): string {
    if s != [] && IsSpace(s[|s| - 1]) then TrimEnd(s[..|s| - 1]) else s
  }

  /** `TrimStart` drops a whitespace prefix, all of it. */
  lemma {:induction false} TrimStartShape(s: string)
    ensures |TrimStart(s)| <= |s| && TrimStart(s) == s[|s| - |TrimStart(s)|..]
    ensures forall i :: 0 <= i < |s| - |TrimStart(s)| ==> IsSpace(s[i])
    ensures TrimStart(s) == [] || !IsSpace(TrimStart(s)[0])
  {
    if s != [] && IsSpace(s[0]) {
      var r := TrimStart(s[1..]);
      TrimStartShape(s[1..]);
      assert TrimStart(s) == r;
      assert s[1..][|s| - 1 - |r|..] == s[|s| - |r|..];
      forall i | 0 <= i < |s| - |r|
        ensures IsSpace(s[i])
      {
        if i > 0 {
          assert s[i] == s[1..][i - 1];
        }
      }
    }
  }

  /** `TrimEnd` drops a whitespace suffix, all of it. */
  lemma {:induction false} TrimEndShape(s: string)
    ensures |TrimEnd(s)| <= |s| && TrimEnd(s) == s[..|TrimEnd(s)|]
    ensures forall i :: |TrimEnd(s)| <= i < |s| ==> IsSpace(s[i])
    ensures TrimEnd(s) == [] || !IsSpace(TrimEnd(s)[|TrimEnd(s)| - 1])
  {
    if s != [] && IsSpace(s[|s| - 1]) {
      TrimEndShape(s[..|s| - 1]);
    }
  }

  /** `r` is the slice `s[i..j]` and everything outside it is whitespace. */
  predicate SliceAmidSpace(s: string, r: string, i: nat, j: nat) {
    i <= j <= |s| && r == s[i..j]
    && (forall k :: 0 <= k < i ==> IsSpace(s[k]))
    && (forall k :: j <= k < |s| ==> IsSpace(s[k]))
  }

  /** `str.strip()`: the longest slice without whitespace at either end, obtained
      by removing whitespace only. */
  function Strip(s: string): string {
    TrimEnd(TrimStart(s))
  }

  /** `Strip` removes whitespace only, and all of it at both ends. (Kept apart
      from `Strip` so that comparing stripped fields stays cheap.) */
  lemma StripSlice(s: string)
    ensures exists i: nat, j: nat :: SliceAmidSpace(s, Strip(s), i, j)
    ensures Strip(s) == [] || (!IsSpace(Strip(s)[0]) && !IsSpace(Strip(s)[|Strip(s)| - 1]))
  {
    var a := TrimStart(s);
    var r := TrimEnd(a);
    TrimStartShape(s);
    TrimEndShape(a);
    var i := |s| - |a|;
    var j := i + |r|;
    assert r == Strip(s);
    assert r == s[i..j] by {
      SliceOfSlice(s, i, |s|, 0, |r|);
    }
    forall k | j <= k < |s|
      ensures IsSpace(s[k])
    {
      assert s[k] == a[k - i];
    }
    assert SliceAmidSpace(s, r, i, j);
  }

  // ---------------------------------------------------------------------------
  // Substring search: Python's `w in t`.

  /** `w` occurs in `t` starting at index `p`. */
  predicate SubstringAt(t: string, w: string, p: nat) {
    p + |w| <= |t| && t[p..p + |w|] == w
  }

  function ContainsFrom(t: string, w: string, from: nat): (r: bool)
    ensures r <==> exists p: nat :: from <= p && SubstringAt(t, w, p)
    decreases |t| - from
  {
    if from + |w| > |t| then false
    else SubstringAt(t, w, from) || ContainsFrom(t, w, from + 1)
  }

  /** Python's `w in t` (the empty string occurs in every string). */
  function Contains(t: string, w: string): (r: bool)
    ensures r <==> exists p: nat :: SubstringAt(t, w, p)
  {
    ContainsFrom(t, w, 0)
  }

  /** Python's `any(w in t for w in ws)`. */
  function ContainsAny(t: string, ws: seq<string>): (r: bool)
    ensures r <==> exists i :: 0 <= i < |ws| && Contains(t, ws[i])
  {
    if ws == [] then false else Contains(t, ws[0]) || ContainsAny(t, ws[1..])
  }

  /** A word placed between two texts occurs in the result. */
  lemma ContainsBetween(a: string, w: string, b: string)
    ensures Contains(a + w + b, w)
  {
    assert (a + w + b)[|a|..|a| + |w|] == w;
    assert SubstringAt(a + w + b, w, |a|);
  }

  /** An occurrence stays one when text is appended. */
  lemma ContainsExtends(t: string, w: string, b: string)
    requires Contains(t, w)
    ensures Contains(t + b, w)
  {
    var p: nat :| SubstringAt(t, w, p);
    assert (t + b)[p..p + |w|] == t[p..p + |w|];
    assert SubstringAt(t + b, w, p);
  }

  /** An occurrence inside `s[i..j]` is an occurrence in `s`. */
  lemma OccurrenceWidens(s: string, r: string, i: nat, j: nat, w: string, p: nat)
    requires SliceAmidSpace(s, r, i, j) && SubstringAt(r, w, p)
    ensures SubstringAt(s, w, i + p)
  {
    SliceOfSlice(s, i, j, p, p + |w|);
  }

  /** An occurrence in `s` of a word without whitespace at its ends lies inside
      `s[i..j]`. */
  lemma OccurrenceNarrows(s: string, r: string, i: nat, j: nat, w: string, p: nat)
    requires SliceAmidSpace(s, r, i, j) && SubstringAt(s, w, p)
    requires w != [] && !IsSpace(w[0]) && !IsSpace(w[|w| - 1])
    ensures i <= p && SubstringAt(r, w, p - i)
  {
    assert s[p] == s[p..p + |w|][0] == w[0];
    assert s[p + |w| - 1] == s[p..p + |w|][|w| - 1] == w[|w| - 1];
    assert !IsSpace(s[p]) && !IsSpace(s[p + |w| - 1]);
    SliceOfSlice(s, i, j, p - i, p - i + |w|);
  }

  /** An occurrence of a word whose first and last characters are not whitespace
      never touches the whitespace that `Strip` removes, so stripping does not
      change what is found. */
  lemma StripKeepsContains(s: string, w: string)
    requires w != [] && !IsSpace(w[0]) && !IsSpace(w[|w| - 1])
    ensures Contains(Strip(s), w) <==> Contains(s, w)
  {
    var r := Strip(s);
    StripSlice(s);
    var i: nat, j: nat :| SliceAmidSpace(s, r, i, j);
    if Contains(r, w) {
      var p: nat :| SubstringAt(r, w, p);
      OccurrenceWidens(s, r, i, j, w, p);
    }
    if Contains(s, w) {
      var p: nat :| SubstringAt(s, w, p);
      OccurrenceNarrows(s, r, i, j, w, p);
    }
  }

  lemma SliceOfSlice(s: string, i: nat, j: nat, a: nat, b: nat)
    requires i <= j <= |s| && a <= b <= j - i
    ensures s[i..j][a..b] == s[i + a..i + b]
  {
    assert forall k :: 0 <= k < b - a ==> s[i..j][a..b][k] == s[i + a + k];
  }

  /** Every word of `ws` is non-empty and neither starts nor ends with whitespace. */
  predicate NoSpaceAtEnds(ws: seq<string>) {
    forall i :: 0 <= i < |ws| ==> ws[i] != [] && !IsSpace(ws[i][0]) && !IsSpace(ws[i][|ws[i]| - 1])
  }

  /** Stripping preserves `ContainsAny` for a list of such words. */
  lemma {:induction false} StripKeepsContainsAny(s: string, ws: seq<string>)
    requires NoSpaceAtEnds(ws)
    ensures ContainsAny(Strip(s), ws) <==> ContainsAny(s, ws)
  {
    if ws != [] {
      StripKeepsContains(s, ws[0]);
      StripKeepsContainsAny(s, ws[1..]);
    }
  }

  // ---------------------------------------------------------------------------
  // Whole-word search: Python's `re.search(rf'\b{re.escape(w)}\b', t)`.

  /** `\b` at position `p`: exactly one of the characters on either side is a
      word character (a missing character counts as a non-word one). */
  predicate Boundary(t: string, p: nat)
    requires p <= |t|
  {
    (p > 0 && IsWordChar(t[p - 1])) != (p < |t| && IsWordChar(t[p]))
  }

  /** `\bw\b` matches at position `p`. */
  predicate WordAt(t: string, w: string, p: nat) {
    SubstringAt(t, w, p) && Boundary(t, p) && Boundary(t, p + |w|)
  }

  function ContainsWordFrom(t: string, w: string, from: nat): (r: bool)
    ensures r <==> exists p: nat :: from <= p && WordAt(t, w, p)
    decreases |t| - from
  {
    if from + |w| > |t| then false
    else WordAt(t, w, from) || ContainsWordFrom(t, w, from + 1)
  }

  /** `re.search(rf'\b{re.escape(w)}\b', t)` finds a match. */
  function ContainsWord(t: string, w: string): (r: bool)
    ensures r <==> exists p: nat :: WordAt(t, w, p)
  {
    ContainsWordFrom(t, w, 0)
  }

  /** A whole-word occurrence is in particular a substring occurrence. */
  lemma WordImpliesSubstring(t: string, w: string)
    requires ContainsWord(t, w)
    ensures Contains(t, w)
  {
    var p: nat :| WordAt(t, w, p);
    assert SubstringAt(t, w, p);
  }

  /** A word whose first character does not occur in `t` does not occur in `t`. */
  lemma FirstCharAbsent(t: string, w: string)
    requires w != [] && forall k :: 0 <= k < |t| ==> t[k] != w[0]
    ensures !Contains(t, w)
  {
    forall p: nat | p + |w| <= |t|
      ensures !SubstringAt(t, w, p)
    {
      assert t[p..p + |w|][0] == t[p] != w[0];
    }
  }

  /** `_has_word`: some word of `words`, lowered, occurs as a whole word in the
      lowered text. */
  function HasWord(text: string, words: seq<string>): (r: bool)
    ensures r <==> exists i :: 0 <= i < |words| && ContainsWord(Lower(text), Lower(words[i]))
  {
    if words == [] then false
    else ContainsWord(Lower(text), Lower(words[0])) || HasWord(text, words[1..])
  }

  // ---------------------------------------------------------------------------
  // Runs of characters, used by the regular-expression scanners.

  /** Length of the maximal run of digits starting at `p`. */
  function DigitRun(t: string, p: nat): (n: nat)
    requires p <= |t|
    ensures p + n <= |t|
    ensures forall k :: p <= k < p + n ==> IsDigit(t[k])
    ensures p + n == |t| || !IsDigit(t[p + n])
    decreases |t| - p
  {
    if p < |t| && IsDigit(t[p]) then 1 + DigitRun(t, p + 1) else 0
  }

  /** Length of the maximal run of whitespace starting at `p`. */
  function SpaceRun(t: string, p: nat): (n: nat)
    requires p <= |t|
    ensures p + n <= |t|
    ensures forall k :: p <= k < p + n ==> IsSpace(t[k])
    ensures p + n == |t| || !IsSpace(t[p + n])
    decreases |t| - p
  {
    if p < |t| && IsSpace(t[p]) then 1 + SpaceRun(t, p + 1) else 0
  }

  /** Every character of `t[i..j]` is a digit. */
  predicate DigitsBetween(t: string, i: nat, j: nat) {
    i <= j <= |t| && forall k :: i <= k < j ==> IsDigit(t[k])
  }

  /** Every character of `t[i..j]` is whitespace. */
  predicate SpacesBetween(t: string, i: nat, j: nat) {
    i <= j <= |t| && forall k :: i <= k < j ==> IsSpace(t[k])
  }

  /** A run of digits that no digit follows is the maximal run. */
  lemma {:induction false} DigitRunIsMaximal(t: string, p: nat, n: nat)
    requires DigitsBetween(t, p, p + n) && (p + n == |t| || !IsDigit(t[p + n]))
    ensures DigitRun(t, p) == n
    decreases n
  {
    if n > 0 {
      DigitRunIsMaximal(t, p + 1, n - 1);
    }
  }

  /** A run of whitespace that no whitespace follows is the maximal run. */
  lemma {:induction false} SpaceRunIsMaximal(t: string, p: nat, n: nat)
    requires SpacesBetween(t, p, p + n) && (p + n == |t| || !IsSpace(t[p + n]))
    ensures SpaceRun(t, p) == n
    decreases n
  {
    if n > 0 {
      SpaceRunIsMaximal(t, p + 1, n - 1);
    }
  }

  // ---------------------------------------------------------------------------
  // Filters used by phone normalisation.

  /** `s.replace(" ", "")`. */
  function RemoveSpaces(s: string): (r: string)
    ensures |r| <= |s|
    ensures forall i :: 0 <= i < |r| ==> r[i] != ' '
    ensures (forall i :: 0 <= i < |s| ==> s[i] != ' ') ==> r == s
  {
    if s == [] then []
    else if s[0] == ' ' then RemoveSpaces(s[1..])
    else [s[0]] + RemoveSpaces(s[1..])
  }

  /** Removing spaces works piecewise. */
  lemma {:induction false} RemoveSpacesConcat(a: string, b: string)
    ensures RemoveSpaces(a + b) == RemoveSpaces(a) + RemoveSpaces(b)
  {
    if a == [] {
      assert a + b == b;
    } else {
      assert (a + b)[0] == a[0];
      assert (a + b)[1..] == a[1..] + b;
      RemoveSpacesConcat(a[1..], b);
      if a[0] != ' ' {
        calc {
          RemoveSpaces(a + b);
          [a[0]] + RemoveSpaces(a[1..] + b);
          [a[0]] + (RemoveSpaces(a[1..]) + RemoveSpaces(b));
          ([a[0]] + RemoveSpaces(a[1..])) + RemoveSpaces(b);
        }
      } else {
        assert RemoveSpaces(a + b) == RemoveSpaces(a[1..] + b);
      }
    }
  }

  /** `"".join(ch for ch in s if ch.isdigit())`. */
  function Digits(s: string): (r: string)
    ensures |r| <= |s|
    ensures forall i :: 0 <= i < |r| ==> IsDigit(r[i])
    ensures (forall i :: 0 <= i < |s| ==> IsDigit(s[i])) ==> r == s
    ensures (forall i :: 0 <= i < |s| ==> !IsDigit(s[i])) <==> r == []
  {
    if s == [] then []
    else if IsDigit(s[0]) then (assert s == [s[0]] + s[1..]; [s[0]] + Digits(s[1..]))
    else (assert IsDigit(s[0]) == false; Digits(s[1..]))
  }

  /** Filtering digits distributes over concatenation: every digit of the input
      is kept, in order. */
  lemma {:induction false} DigitsConcat(a: string, b: string)
    ensures Digits(a + b) == Digits(a) + Digits(b)
  {
    if a == [] {
      assert a + b == b;
    } else {
      assert (a + b)[0] == a[0] && (a + b)[1..] == a[1..] + b;
      DigitsConcat(a[1..], b);
    }
  }
}
