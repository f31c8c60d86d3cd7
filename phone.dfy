/**
 * Normalisation of a technician's contact number before it is dialled: a
 * best-effort E.164 heuristic with a fixed country code for bare ten-digit
 * numbers.
 */
module Phone {
  import opened Text

  /** The prefix given to a bare ten-digit number. */
  const CountryPrefix: string := "+91"

  /** `_normalize_phone`: spaces removed; a number already starting with `+` is
      kept as it is; otherwise only its digits are kept, behind the country
      prefix when there are exactly ten of them, behind a lone `+` when there
      are some other number of them; no digits at all gives the empty string. */
  function NormalizePhone(s: string): (r: string)
    ensures r == [] || r[0] == '+'
    ensures forall i :: 0 <= i < |r| ==> r[i] != ' '
  {
    if s == "" then ""
    else
      var t := RemoveSpaces(s);
      if |t| > 0 && t[0] == '+' then t
      else
        var d := Digits(t);
        if |d| == 10 then CountryPrefix + d
        else if d != "" then "+" + d
        else ""
  }

  /** A number that starts with `+` once spaces are removed comes back with only
      its spaces removed. */
  lemma PlusIsKept(s: string)
    requires |RemoveSpaces(s)| > 0 && RemoveSpaces(s)[0] == '+'
    ensures NormalizePhone(s) == RemoveSpaces(s)
  {
  }

  /** Otherwise the digits decide: ten of them get the country prefix, any other
      non-zero number of them a bare `+`, none at all the empty string. */
  lemma DigitsDecide(s: string)
    requires RemoveSpaces(s) == [] || RemoveSpaces(s)[0] != '+'
    ensures var d := Digits(RemoveSpaces(s));
      && (|d| == 10 ==> NormalizePhone(s) == CountryPrefix + d)
      && (d != [] && |d| != 10 ==> NormalizePhone(s) == "+" + d)
      && (d == [] ==> NormalizePhone(s) == [])
  {
  }

  /** The result carries nothing but digits after its leading `+`, unless the
      input already started with `+`. */
  lemma DigitsAfterPlus(s: string)
    requires RemoveSpaces(s) == [] || RemoveSpaces(s)[0] != '+'
    ensures forall i :: 1 <= i < |NormalizePhone(s)| ==> IsDigit(NormalizePhone(s)[i])
  {
  }

  /** Normalising a normalised number changes nothing. */
  lemma {:induction false} NormalizeIdempotent(s: string)
    ensures NormalizePhone(NormalizePhone(s)) == NormalizePhone(s)
  {
    var r := NormalizePhone(s);
    if r != [] {
      assert RemoveSpaces(r) == r;
    }
  }

  /** A bare ten-digit number, such as a mobile number written without its
      country code, is dialled behind the country prefix. */
  lemma BareTenDigits(s: string)
    requires |s| == 10 && forall i :: 0 <= i < |s| ==> IsDigit(s[i])
    ensures NormalizePhone(s) == CountryPrefix + s
  {
    DigitsDecide(s);
  }
}
