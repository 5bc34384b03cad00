/** The two pieces of the C++ standard library that FEN reading and writing
    rely on: whitespace-separated extraction from a string stream
    (`ss >> field`) and decimal integers (`ss << n` and `std::stoi`). */
module Text {
  import opened Options

  /** The "C" locale's `isspace`. */
  predicate IsSpace(c: char) {
    c == ' ' || c == '\t' || c == '\n' || c == '\r' || c == '\U{0B}' || c == '\U{0C}'
  }

  predicate IsWord(w: string) {
    |w| > 0 && forall i :: 0 <= i < |w| ==> !IsSpace(w[i])
  }

  /** The end of the run of non-space characters that starts at `i`. */
  function WordEnd(s: string, i: nat): (j: nat)
    requires i <= |s|
    ensures i <= j <= |s|
    ensures forall k :: i <= k < j ==> !IsSpace(s[k])
    ensures j == |s| || IsSpace(s[j])
    decreases |s| - i
  {
    if i == |s| || IsSpace(s[i]) then i else WordEnd(s, i + 1)
  }

  /** The fields that successive `>>` extractions into a string return. */
  function Tokens(s: string): (ts: seq<string>)
    ensures forall k :: 0 <= k < |ts| ==> IsWord(ts[k])
    decreases |s|
  {
    if |s| == 0 then []
    else if IsSpace(s[0]) then Tokens(s[1..])
    else
      var n := WordEnd(s, 0);
      [s[..n]] + Tokens(s[n..])
  }

  /** Field `k`, or "" when the stream ran out before it (the target string of
      a failed extraction keeps its initial empty value). */
  function Field(s: string, k: nat): string {
    if k < |Tokens(s)| then Tokens(s)[k] else ""
  }

  lemma {:induction false} TokensOfWord(w: string, rest: string)
    requires IsWord(w)
    requires rest == [] || IsSpace(rest[0])
    ensures Tokens(w + rest) == [w] + Tokens(rest)
  {
    var s := w + rest;
    assert forall k :: 0 <= k < |w| ==> s[k] == w[k];
    assert |w| < |s| ==> s[|w|] == rest[0];
    var n := WordEnd(s, 0);
    assert n == |w|;
    assert s[..n] == w && s[n..] == rest;
  }

  /** A word followed by one space and more text reads as that word, then the rest. */
  lemma {:induction false} TokensOfWordSpace(w: string, rest: string)
    requires IsWord(w)
    ensures Tokens(w + " " + rest) == [w] + Tokens(rest)
  {
    assert w + " " + rest == w + (" " + rest);
    TokensOfWord(w, " " + rest);
    assert (" " + rest)[1..] == rest;
  }

  /** Fields written one after another with a single space between them. */
  function Join(ws: seq<string>): string
  {
    if |ws| == 0 then "" else if |ws| == 1 then ws[0] else ws[0] + " " + Join(ws[1..])
  }

  /** Words joined by single spaces read back as exactly those fields. */
  lemma {:induction false} TokensOfJoin(ws: seq<string>)
    requires forall k :: 0 <= k < |ws| ==> IsWord(ws[k])
    ensures Tokens(Join(ws)) == ws
  {
    if |ws| == 1 {
      TokensOfWord(ws[0], "");
      assert ws[0] + "" == ws[0];
    } else if |ws| > 1 {
      TokensOfJoin(ws[1..]);
      TokensOfWordSpace(ws[0], Join(ws[1..]));
    }
  }

  // ---------------------------------------------------------------------------
  // Decimal integers.

  const IntMin: int := -0x8000_0000
  const IntMax: int := 0x7FFF_FFFF

  predicate IsDigit(c: char) {
    '0' <= c <= '9'
  }

  predicate AllDigits(s: string) {
    forall i :: 0 <= i < |s| ==> IsDigit(s[i])
  }

  function DigitChar(n: nat): (c: char)
    requires n < 10
    ensures IsDigit(c) && c as int - '0' as int == n
  {
    ('0' as int + n) as char
  }

  /** Decimal digits of a natural number, without leading zeros. */
  function NatToString(n: nat): (s: string)
    ensures |s| > 0 && AllDigits(s)
    ensures n < 10 ==> s == [DigitChar(n)]
  {
    if n < 10 then [DigitChar(n)] else NatToString(n / 10) + [DigitChar(n % 10)]
  }

  /** `ss << n` for an `int`: a minus sign for negative values, then the digits. */
  function IntToString(n: int): (s: string)
    ensures IsWord(s)
  {
    var s := if n < 0 then "-" + NatToString(-n) else NatToString(n);
    assert forall i :: 0 <= i < |s| ==> s[i] == '-' || IsDigit(s[i]);
    s
  }

  /** The value of a string of decimal digits. */
  function DigitsValue(s: string): nat
    requires AllDigits(s)
  {
    if |s| == 0 then 0 else DigitsValue(s[..|s| - 1]) * 10 + (s[|s| - 1] as int - '0' as int)
  }

  /** The end of the run of digits that starts at `i`. */
  function DigitsEnd(s: string, i: nat): (j: nat)
    requires i <= |s|
    ensures i <= j <= |s| && AllDigits(s[i..j])
    ensures j == |s| || !IsDigit(s[j])
    decreases |s| - i
  {
    if i == |s| || !IsDigit(s[i]) then i else DigitsEnd(s, i + 1)
  }

  /** `std::stoi` on a field: an optional sign, then the longest run of digits;
      None where the C++ throws (no digit at all, or a value outside `int`).
      Characters after the digits are ignored, as `stoi` does. */
  function StoI(s: string): (r: Option<int>)
    ensures r.Some? ==> IntMin <= r.value <= IntMax
    ensures |s| == 0 ==> r == None
  {
    var signed := |s| > 0 && (s[0] == '-' || s[0] == '+');
    var start := if signed then 1 else 0;
    var end := DigitsEnd(s, start);
    if end == start then None
    else
      var magnitude: int := DigitsValue(s[start..end]);
      var v: int := if signed && s[0] == '-' then -magnitude else magnitude;
      if IntMin <= v <= IntMax then Some(v) else None
  }

  lemma {:induction false} NatToStringValue(n: nat)
    ensures DigitsValue(NatToString(n)) == n
    decreases n
  {
    if n >= 10 {
      NatToStringValue(n / 10);
      var s := NatToString(n);
      assert s[..|s| - 1] == NatToString(n / 10);
    }
  }

  /** Printing an `int` and reading it back with `stoi` gives the same value. */
  lemma IntStringRoundTrip(n: int)
    requires IntMin <= n <= IntMax
    ensures StoI(IntToString(n)) == Some(n)
  {
    var s := IntToString(n);
    if n < 0 {
      var d := NatToString(-n);
      NatToStringValue(-n);
      assert s[1..] == d;
      assert DigitsEnd(s, 1) == |s|;
      assert s[1..|s|] == d;
    } else {
      var d := NatToString(n);
      NatToStringValue(n);
      assert !(s[0] == '-' || s[0] == '+');
      assert DigitsEnd(s, 0) == |s|;
      assert s[0..|s|] == d;
    }
  }

  /** `stoi` of a field that is not a number at all fails, as the C++ throws. */
  lemma StoIRejectsNonNumber(s: string)
    requires |s| > 0 && !IsDigit(s[0]) && s[0] != '-' && s[0] != '+'
    ensures StoI(s) == None
  {
  }
}
