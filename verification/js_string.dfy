/**
 * The two string primitives the offer form relies on: `String.prototype.trim`
 * and the decimal reading done by `Number(...)` on a selected option value.
 */
module JsString {
  import opened Wrappers

  /** The characters JavaScript's `trim` removes: WhiteSpace and LineTerminator. */
  predicate IsWhite(c: char) {
    c == '\t' || c == '\n' || c == '\U{000B}' || c == '\U{000C}' || c == '\r' || c == ' '
    || c == '\U{00A0}' || c == '\U{1680}' || ('\U{2000}' <= c <= '\U{200A}')
    || c == '\U{2028}' || c == '\U{2029}' || c == '\U{202F}' || c == '\U{205F}'
    || c == '\U{3000}' || c == '\U{FEFF}'
  }

  predicate AllWhite(s: string) {
    forall k :: 0 <= k < |s| ==> IsWhite(s[k])
  }

  /** Neither end of `s` is a whitespace character. */
  predicate Trimmed(s: string) {
    s == [] || (!IsWhite(s[0]) && !IsWhite(s[|s| - 1]))
  }

  /** How many whitespace characters `s` starts with. */
  function LeadingWhite(s: string): (n: nat)
    ensures n <= |s|
    ensures forall k :: 0 <= k < n ==> IsWhite(s[k])
    ensures n == |s| || !IsWhite(s[n])
    decreases |s|
  {
    if |s| > 0 && IsWhite(s[0]) then 1 + LeadingWhite(s[1..]) else 0
  }

  /** How many whitespace characters `s` ends with. */
  function TrailingWhite(s: string): (n: nat)
    ensures n <= |s|
    ensures forall k :: |s| - n <= k < |s| ==> IsWhite(s[k])
    ensures n == |s| || !IsWhite(s[|s| - 1 - n])
    decreases |s|
  {
    if |s| > 0 && IsWhite(s[|s| - 1]) then 1 + TrailingWhite(s[..|s| - 1]) else 0
  }

  /**
   * `s.trim()`: the leading, then the trailing whitespace cut off. The
   * result is never longer than `s` and is empty exactly when `s` is all
   * whitespace.
   */
  function Trim(s: string): (r: string)
    ensures |r| <= |s|
    ensures r == [] <==> AllWhite(s)
  {
    var t := s[LeadingWhite(s)..];
    assert forall k :: 0 <= k < |t| ==> t[k] == s[LeadingWhite(s) + k];
    t[..|t| - TrailingWhite(t)]
  }

  /**
   * The trimmed string is the middle of `s`: everything cut off on either
   * side is whitespace and neither end of what is kept is whitespace.
   */
  lemma TrimIsWhitespaceFreeMiddle(s: string)
    ensures exists i, j :: 0 <= i <= j <= |s| && Trim(s) == s[i..j]
                           && AllWhite(s[..i]) && AllWhite(s[j..])
    ensures Trimmed(Trim(s))
  {
    var i := LeadingWhite(s);
    var t := s[i..];
    var j := i + |t| - TrailingWhite(t);
    TrimCutsWhite(s, i, j, t);
    TrimKeepsNonWhiteEnds(s, i, t);
    assert 0 <= i <= j <= |s| && Trim(s) == s[i..j] && AllWhite(s[..i]) && AllWhite(s[j..]);
  }

  lemma TrimCutsWhite(s: string, i: nat, j: nat, t: string)
    requires i == LeadingWhite(s) && t == s[i..] && j == i + |t| - TrailingWhite(t)
    ensures i <= j <= |s| && Trim(s) == s[i..j] && AllWhite(s[..i]) && AllWhite(s[j..])
  {
    var n := TrailingWhite(t);
    forall k | 0 <= k < i
      ensures IsWhite(s[..i][k])
    {
      assert s[..i][k] == s[k];
    }
    forall k | 0 <= k < |s| - j
      ensures IsWhite(s[j..][k])
    {
      assert s[j..][k] == t[|t| - n + k];
    }
  }

  lemma TrimKeepsNonWhiteEnds(s: string, i: nat, t: string)
    requires i == LeadingWhite(s) && t == s[i..]
    ensures Trimmed(Trim(s))
  {
    var r := Trim(s);
    if r != [] {
      assert r[0] == s[i];
      assert r[|r| - 1] == t[|t| - 1 - TrailingWhite(t)];
    }
  }

  /** `trim` leaves a string alone exactly when neither end is whitespace. */
  lemma TrimFixpoints(s: string)
    ensures Trim(s) == s <==> Trimmed(s)
  {
    TrimIsWhitespaceFreeMiddle(s);
  }

  /** Trimming a second time changes nothing. */
  lemma TrimIdempotent(s: string)
    ensures Trim(Trim(s)) == Trim(s)
  {
    TrimIsWhitespaceFreeMiddle(s);
    TrimFixpoints(Trim(s));
  }

  predicate IsDigit(c: char) {
    '0' <= c <= '9'
  }

  predicate AllDigits(s: string) {
    forall k :: 0 <= k < |s| ==> IsDigit(s[k])
  }

  function DigitValue(c: char): nat
    requires IsDigit(c)
  {
    c as int - '0' as int
  }

  /** The number a string of decimal digits denotes, most significant digit first. */
  function DecimalValue(s: string): nat
    requires AllDigits(s)
    decreases |s|
  {
    if s == [] then 0 else 10 * DecimalValue(s[..|s| - 1]) + DigitValue(s[|s| - 1])
  }

  /** The decimal digits of `n` without leading zeros, as `String(n)` prints it. */
  function ShowNat(n: nat): (r: string)
    ensures |r| > 0 && AllDigits(r)
    ensures r[0] != '0' || n == 0
    decreases n
  {
    if n < 10 then [('0' as int + n) as char]
    else ShowNat(n / 10) + [('0' as int + n % 10) as char]
  }

  /** `String(n)` for an integer. */
  function ShowInt(n: int): string {
    if n < 0 then "-" + ShowNat(-n) else ShowNat(n)
  }

  /** Reading back what `ShowNat` prints gives the number again. */
  lemma {:induction false} DecimalValueOfShowNat(n: nat)
    ensures DecimalValue(ShowNat(n)) == n
    decreases n
  {
    if n >= 10 {
      var s := ShowNat(n);
      assert s[..|s| - 1] == ShowNat(n / 10);
      DecimalValueOfShowNat(n / 10);
    }
  }

  /**
   * `Number(s)` restricted to what this model covers: after JavaScript's
   * whitespace trim, the empty string reads as 0 and a run of decimal digits
   * as its value. Every other string is `None`, standing for NaN as well as
   * for the signed, fractional, exponent and prefixed forms left out.
   */
  function ToNumber(s: string): (r: Option<nat>)
    ensures AllDigits(Trim(s)) <==> r.Some?
    ensures AllDigits(Trim(s)) && Trim(s) != "" ==> r == Some(DecimalValue(Trim(s)))
    ensures Trim(s) == "" ==> r == Some(0)
  {
    var t := Trim(s);
    if !AllDigits(t) then None
    else if t == [] then Some(0)
    else Some(DecimalValue(t))
  }

  /** An option value printed from a numeric id converts back to that id. */
  lemma NumberOfShowNat(n: nat)
    ensures ToNumber(ShowNat(n)) == Some(n)
  {
    var s := ShowNat(n);
    assert Trimmed(s);
    TrimFixpoints(s);
    DecimalValueOfShowNat(n);
  }
}
