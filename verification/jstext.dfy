/**
 * The two pieces of JavaScript string behaviour the orchestrator relies on:
 * `String.prototype.trim`, applied to every reply before it is stored and
 * shown, and the decimal rendering of an integer inside a template literal,
 * used by the status notice sent on connection.
 */
module JsText {

  /** WhiteSpace and LineTerminator code points, the set `trim` removes. */
  predicate IsJsSpace(c: char) {
    c == '\t' || c == '\n' || c == '\U{000B}' || c == '\U{000C}' || c == '\r' ||
    c == ' ' || c == '\U{00A0}' || c == '\U{1680}' ||
    ('\U{2000}' <= c <= '\U{200A}') ||
    c == '\U{2028}' || c == '\U{2029}' || c == '\U{202F}' || c == '\U{205F}' ||
    c == '\U{3000}' || c == '\U{FEFF}'
  }

  predicate AllSpace(s: string) {
    forall i :: 0 <= i < |s| ==> IsJsSpace(s[i])
  }

  /** `String.prototype.trim`: white space is removed from both ends. */
  function Trim(s: string): string
    decreases |s|
  {
    if s != [] && IsJsSpace(s[0]) then Trim(s[1..])
    else if s != [] && IsJsSpace(s[|s| - 1]) then Trim(s[..|s| - 1])
    else s
  }

  /** A trimmed string neither starts nor ends with white space. */
  lemma {:induction false} TrimmedEnds(s: string)
    ensures var r := Trim(s); r == [] || (!IsJsSpace(r[0]) && !IsJsSpace(r[|r| - 1]))
    decreases |s|
  {
    if s != [] && IsJsSpace(s[0]) {
      TrimmedEnds(s[1..]);
    } else if s != [] && IsJsSpace(s[|s| - 1]) {
      TrimmedEnds(s[..|s| - 1]);
    }
  }

  /** Trimming keeps a contiguous slice of the input and removes only white space around it. */
  lemma {:induction false} TrimIsSlice(s: string) returns (i: nat, j: nat)
    ensures i <= j <= |s| && Trim(s) == s[i..j]
    ensures AllSpace(s[..i]) && AllSpace(s[j..])
    decreases |s|
  {
    if s != [] && IsJsSpace(s[0]) {
      var i', j' := TrimIsSlice(s[1..]);
      i, j := i' + 1, j' + 1;
      assert s[..i] == [s[0]] + s[1..][..i'];
      assert s[j..] == s[1..][j'..];
      assert s[i..j] == s[1..][i'..j'];
    } else if s != [] && IsJsSpace(s[|s| - 1]) {
      var t := s[..|s| - 1];
      i, j := TrimIsSlice(t);
      assert s[..i] == t[..i];
      assert s[j..] == t[j..] + [s[|s| - 1]];
      assert s[i..j] == t[i..j];
    } else {
      i, j := 0, |s|;
    }
  }

  /** Trimming twice is trimming once. */
  lemma TrimIdempotent(s: string)
    ensures Trim(Trim(s)) == Trim(s)
  {
    TrimmedEnds(s);
  }

  /** Trimming changes nothing when neither end is white space. */
  lemma TrimKeepsInner(s: string)
    requires s != [] && !IsJsSpace(s[0]) && !IsJsSpace(s[|s| - 1])
    ensures Trim(s) == s
  {
  }

  function DigitChar(d: nat): char
    requires d < 10
  {
    "0123456789"[d]
  }

  predicate AllDigits(s: string) {
    forall i :: 0 <= i < |s| ==> '0' <= s[i] <= '9'
  }

  /** The decimal numeral of `n`, without leading zeros. */
  function NatDigits(n: nat): (r: string)
    ensures r != [] && AllDigits(r)
    ensures r[0] == '0' ==> n == 0 && r == "0"
    decreases n
  {
    if n < 10 then [DigitChar(n)] else NatDigits(n / 10) + [DigitChar(n % 10)]
  }

  /**
   * How an integer is rendered inside a template literal: a minus sign for a
   * negative number, then the numeral of its magnitude.
   */
  function Decimal(n: int): (r: string)
    ensures r != []
    ensures n < 0 <==> r[0] == '-'
    ensures var d := if n < 0 then r[1..] else r;
      d != [] && AllDigits(d) && DigitsValue(d) == (if n < 0 then -n else n) && (d[0] == '0' ==> n == 0 && d == "0")
  {
    if n < 0 then
      DigitsRoundTrip(-n);
      assert ("-" + NatDigits(-n))[1..] == NatDigits(-n);
      "-" + NatDigits(-n)
    else
      DigitsRoundTrip(n);
      NatDigits(n)
  }

  /** Reads a string of decimal digits back as a number. */
  function DigitsValue(s: string): nat
    requires AllDigits(s)
  {
    if s == [] then 0 else DigitsValue(s[..|s| - 1]) * 10 + (s[|s| - 1] - '0') as int
  }

  /** The numeral names the number it was made from. */
  lemma {:induction false} DigitsRoundTrip(n: nat)
    ensures DigitsValue(NatDigits(n)) == n
    decreases n
  {
    var r := NatDigits(n);
    if n >= 10 {
      DigitsRoundTrip(n / 10);
      assert r[..|r| - 1] == NatDigits(n / 10);
    }
  }
}
