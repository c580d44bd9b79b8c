/** String helpers the client relies on: Python's substring test (which
    gates every response), `str.join`, and `str()` of an integer. */
module Text {
  import opened Common

  /** `pat` occurs in `s` at offset `i`. */
  ghost predicate OccursAt(s: string, pat: string, i: int)
  {
    0 <= i && i + |pat| <= |s| && s[i..i + |pat|] == pat
  }

  lemma OccursAtShift(s: string, pat: string, i: int)
    requires |s| > 0 && i >= 0
    ensures OccursAt(s[1..], pat, i) <==> OccursAt(s, pat, i + 1)
  {
  }

  /** Python's `pat in s` for two strings. */
  function Contains(s: string, pat: string): (r: bool)
    ensures r <==> exists i :: OccursAt(s, pat, i)
    decreases |s|
  {
    if |pat| > |s| then
      false
    else if s[..|pat|] == pat then
      assert OccursAt(s, pat, 0);
      true
    else
      var rest := Contains(s[1..], pat);
      ContainsStep(s, pat, rest);
      rest
  }

  lemma ContainsStep(s: string, pat: string, rest: bool)
    requires |pat| <= |s| && s[..|pat|] != pat
    requires rest <==> exists i :: OccursAt(s[1..], pat, i)
    ensures rest <==> exists i :: OccursAt(s, pat, i)
  {
    if rest {
      var i :| OccursAt(s[1..], pat, i);
      OccursAtShift(s, pat, i);
    }
    if i :| OccursAt(s, pat, i) {
      assert i != 0;
      OccursAtShift(s, pat, i - 1);
    }
  }

  /** The client's only error signal: the raw body contains "error". */
  predicate ReportsError(text: string)
  {
    Contains(text, "error")
  }

  /** Text around a match keeps it a match: whatever a reply's free text
      contains, the whole reply contains too. */
  lemma ContainsInContext(a: string, s: string, b: string, pat: string)
    requires Contains(s, pat)
    ensures Contains(a + s + b, pat)
  {
    var i :| OccursAt(s, pat, i);
    var t := a + s + b;
    assert t[|a| + i..|a| + i + |pat|] == s[i..i + |pat|];
    assert OccursAt(t, pat, |a| + i);
  }

  /** The heuristic cannot tell an error reply from a good reply whose free
      text happens to contain the word, such as an advisory about a
      "terrorism drill". The text is written as three pieces on purpose: it
      makes the offset of "error" inside it evident to the verifier. */
  lemma FreeTextTripsGate()
    ensures ReportsError("t" + "error" + "ism drill at EMBR")
  {
    var s := "t" + "error" + "ism drill at EMBR";
    assert s[1..6] == "error" by {
      assert s == "t" + ("error" + "ism drill at EMBR");
    }
    assert OccursAt(s, "error", 1);
  }

  /** Total length of the parts. */
  function TotalLength(parts: seq<string>): nat
  {
    if parts == [] then 0 else |parts[0]| + TotalLength(parts[1..])
  }

  /** Python's `sep.join(parts)`: it starts with the first part, followed
      by the separator when more parts come, and is at least as long as all
      parts together. */
  function Join(sep: string, parts: seq<string>): (r: string)
    ensures parts != [] ==> parts[0] <= r
    ensures |parts| > 1 ==> parts[0] + sep <= r
    ensures |r| >= TotalLength(parts)
  {
    if |parts| == 0 then ""
    else if |parts| == 1 then parts[0]
    else parts[0] + sep + Join(sep, parts[1..])
  }

  /** A join is exactly as long as its parts plus one separator between
      each neighbouring pair. */
  lemma {:induction false} JoinLength(sep: string, parts: seq<string>)
    ensures |Join(sep, parts)| == TotalLength(parts) + if parts == [] then 0 else |sep| * (|parts| - 1)
  {
    if |parts| > 1 {
      JoinLength(sep, parts[1..]);
    }
  }

  /** Appending one more part adds one separator and the part. */
  lemma {:induction false} JoinSnoc(sep: string, parts: seq<string>, x: string)
    ensures Join(sep, parts + [x]) == if parts == [] then x else Join(sep, parts) + sep + x
  {
    if |parts| <= 1 {
    } else {
      assert (parts + [x])[1..] == parts[1..] + [x];
      JoinSnoc(sep, parts[1..], x);
    }
  }

  predicate IsDigit(c: char)
  {
    '0' <= c <= '9'
  }

  predicate AllDigits(s: string)
  {
    forall i :: 0 <= i < |s| ==> IsDigit(s[i])
  }

  function DigitChar(d: nat): (c: char)
    requires d < 10
    ensures IsDigit(c)
  {
    ('0' as int + d) as char
  }

  function DigitValue(c: char): (d: nat)
    requires IsDigit(c)
    ensures d < 10 && DigitChar(d) == c
  {
    c as int - '0' as int
  }

  /** Python's `str(n)` for a natural number: canonical decimal digits,
      without leading zeros. */
  function NatToDecimal(n: nat): (r: string)
    ensures |r| > 0 && AllDigits(r)
    ensures r[0] == '0' ==> n == 0
    decreases n
  {
    if n < 10 then [DigitChar(n)] else NatToDecimal(n / 10) + [DigitChar(n % 10)]
  }

  /** The value a string of decimal digits denotes. */
  function DecimalToNat(s: string): nat
    requires AllDigits(s)
  {
    if s == [] then 0 else 10 * DecimalToNat(s[..|s| - 1]) + DigitValue(s[|s| - 1])
  }

  lemma {:induction false} NatDecimalRoundTrip(n: nat)
    ensures DecimalToNat(NatToDecimal(n)) == n
    decreases n
  {
    if n >= 10 {
      var s := NatToDecimal(n);
      assert s[..|s| - 1] == NatToDecimal(n / 10);
      NatDecimalRoundTrip(n / 10);
    }
  }

  /** Python's `str(n)` for an integer. */
  function IntToDecimal(n: int): string
  {
    if n < 0 then "-" + NatToDecimal(-n) else NatToDecimal(n)
  }

  /** Reads back the output of `str(n)`: an optional minus sign and at
      least one digit. */
  function DecimalToInt(s: string): Option<int>
  {
    if |s| > 0 && s[0] == '-' && |s| > 1 && AllDigits(s[1..]) then Some(0 - DecimalToNat(s[1..]) as int)
    else if |s| > 0 && AllDigits(s) then Some(DecimalToNat(s))
    else None
  }

  /** `str()` of an integer loses nothing: it can be read back. */
  lemma IntDecimalRoundTrip(n: int)
    ensures DecimalToInt(IntToDecimal(n)) == Some(n)
  {
    if n < 0 {
      var s := IntToDecimal(n);
      assert s[1..] == NatToDecimal(-n);
      NatDecimalRoundTrip(-n);
    } else {
      NatDecimalRoundTrip(n);
    }
  }

  /** Hence two different integers never render alike. */
  lemma IntToDecimalInjective(a: int, b: int)
    ensures IntToDecimal(a) == IntToDecimal(b) <==> a == b
  {
    IntDecimalRoundTrip(a);
    IntDecimalRoundTrip(b);
  }
}
