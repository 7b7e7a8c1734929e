/** The few pieces of text formatting the client relies on: Go's `%d` and
    `%02d` verbs for integers and `strings.Join(args, " ")`, each with an
    inverse that shows the rendering loses nothing. */
module Text {
  import opened Wrappers

  predicate IsDigit(c: char) {
    '0' <= c <= '9'
  }

  predicate AllDigits(s: string) {
    forall i :: 0 <= i < |s| ==> IsDigit(s[i])
  }

  /** Characters a rendered integer may contain: digits and a minus sign. */
  predicate Numeral(s: string) {
    forall i :: 0 <= i < |s| ==> IsDigit(s[i]) || s[i] == '-'
  }

  function DigitChar(d: nat): (c: char)
    requires d < 10
    ensures IsDigit(c)
  {
    ('0' as int + d) as char
  }

  function DigitValue(c: char): (d: nat)
    requires IsDigit(c)
    ensures d < 10
  {
    c as int - '0' as int
  }

  /** Decimal digits of `n`, most significant first, without leading zeros. */
  function NatDigits(n: nat): (s: string)
    ensures 1 <= |s| && AllDigits(s)
    ensures n < 10 <==> |s| == 1
    ensures n >= 1 ==> s[0] != '0'
    decreases n
  {
    if n < 10 then [DigitChar(n)] else NatDigits(n / 10) + [DigitChar(n % 10)]
  }

  /** The number a string of decimal digits denotes (leading zeros allowed). */
  function DigitsValue(s: string): nat
    requires AllDigits(s)
    decreases |s|
  {
    if s == [] then 0 else 10 * DigitsValue(s[..|s| - 1]) + DigitValue(s[|s| - 1])
  }

  /** Go's `fmt.Sprintf("%d", n)`: a minus sign for negative numbers, then the digits. */
  function Decimal(n: int): (s: string)
    ensures 1 <= |s| && Numeral(s)
    ensures s[0] == '-' <==> n < 0
    ensures n > 0 ==> s[0] != '0'
    ensures n < 0 ==> 2 <= |s| && s[1] != '0'
  {
    if n < 0 then "-" + NatDigits(-n) else NatDigits(n)
  }

  /** Reads back an optional minus sign followed by at least one digit. */
  function ParseDecimal(s: string): Option<int> {
    if 2 <= |s| && s[0] == '-' && AllDigits(s[1..]) then Some(0 - DigitsValue(s[1..]) as int)
    else if 1 <= |s| && AllDigits(s) then Some(DigitsValue(s) as int)
    else None
  }

  lemma {:induction false} NatDigitsValue(n: nat)
    ensures DigitsValue(NatDigits(n)) == n
    decreases n
  {
    if n >= 10 {
      NatDigitsValue(n / 10);
      var s := NatDigits(n / 10) + [DigitChar(n % 10)];
      assert s[..|s| - 1] == NatDigits(n / 10);
    }
  }

  /** `%d` rendering is inverted by `ParseDecimal`, so distinct numbers render differently. */
  lemma DecimalRoundTrip(n: int)
    ensures ParseDecimal(Decimal(n)) == Some(n)
  {
    if n < 0 {
      var d := NatDigits(-n);
      NatDigitsValue(-n);
      ParseSigned(d);
      assert Decimal(n) == "-" + d;
    } else {
      var d := NatDigits(n);
      NatDigitsValue(n);
      ParseUnsigned(d);
      assert Decimal(n) == d;
    }
  }

  lemma ParseSigned(d: string)
    requires 1 <= |d| && AllDigits(d)
    ensures ParseDecimal("-" + d) == Some(0 - DigitsValue(d) as int)
  {
    assert ("-" + d)[1..] == d;
  }

  lemma ParseUnsigned(d: string)
    requires 1 <= |d| && AllDigits(d)
    ensures ParseDecimal(d) == Some(DigitsValue(d) as int)
  {
    assert IsDigit(d[0]);
  }

  /** The default page size renders as "10". */
  lemma DecimalTen()
    ensures Decimal(10) == "10"
  {
    assert NatDigits(10) == NatDigits(1) + [DigitChar(0)];
  }

  /** A single-character rendering is exactly a non-negative number below ten. */
  lemma DecimalShort(n: int)
    ensures |Decimal(n)| == 1 <==> 0 <= n < 10
  {
  }

  /** Go's `fmt.Sprintf("%02d", n)`: the `%d` rendering, zero-padded on the
      left to at least two characters. */
  function Pad2(n: int): (s: string)
    ensures 2 <= |s| && Numeral(s)
    ensures ParseDecimal(s) == Some(n)
    ensures 2 <= |Decimal(n)| ==> s == Decimal(n)
    ensures |Decimal(n)| < 2 ==> s == "0" + Decimal(n)
  {
    DecimalRoundTrip(n);
    DecimalShort(n);
    var d := Decimal(n);
    if 2 <= |d| then d
    else
      var s := "0" + d;
      assert d == [d[0]] && DigitsValue(d) == DigitValue(d[0]) == n;
      assert s[..1] == "0" && DigitsValue("0") == 0;
      assert DigitsValue(s) == n;
      s
  }

  /** `strings.Join(words, " ")`. */
  function JoinSpaces(words: seq<string>): (s: string)
    ensures |words| == 0 ==> s == ""
    ensures |words| == 1 ==> s == words[0]
    ensures |words| >= 1 ==> |words[0]| <= |s| && s[..|words[0]|] == words[0]
    ensures |words| >= 2 ==> |words[0]| < |s| && s[|words[0]|] == ' '
  {
    if |words| == 0 then ""
    else if |words| == 1 then words[0]
    else words[0] + " " + JoinSpaces(words[1..])
  }

  /** Joining one more word puts a single space and then that word at the end. */
  lemma {:induction false} JoinSpacesAppend(ws: seq<string>, w: string)
    requires 1 <= |ws|
    ensures JoinSpaces(ws + [w]) == JoinSpaces(ws) + " " + w
    decreases |ws|
  {
    if |ws| == 1 {
      assert ws + [w] == [ws[0], w];
    } else {
      assert (ws + [w])[1..] == ws[1..] + [w];
      JoinSpacesAppend(ws[1..], w);
    }
  }

  /** Splits at every single space, keeping empty fields, as `strings.Split(s, " ")` does. */
  function SplitSpaces(s: string): (r: seq<string>)
    ensures 1 <= |r|
    decreases |s|
  {
    if s == [] then [""]
    else
      var rest := SplitSpaces(s[1..]);
      if s[0] == ' ' then [""] + rest
      else [[s[0]] + rest[0]] + rest[1..]
  }

  lemma {:induction false} SplitWordPrefix(w: string, t: string)
    requires ' ' !in w
    ensures SplitSpaces(w + t) == [w + SplitSpaces(t)[0]] + SplitSpaces(t)[1..]
    decreases |w|
  {
    if w != [] {
      SplitWordPrefix(w[1..], t);
      assert (w + t)[1..] == w[1..] + t;
      assert [w[0]] + (w[1..] + SplitSpaces(t)[0]) == w + SplitSpaces(t)[0];
    } else {
      assert w + t == t;
      assert w + SplitSpaces(t)[0] == SplitSpaces(t)[0];
      assert SplitSpaces(t) == [SplitSpaces(t)[0]] + SplitSpaces(t)[1..];
    }
  }

  /** Joining words that contain no space and splitting the result again gives the words back. */
  lemma {:induction false} JoinSplitRoundTrip(words: seq<string>)
    requires 1 <= |words|
    requires forall i :: 0 <= i < |words| ==> ' ' !in words[i]
    ensures SplitSpaces(JoinSpaces(words)) == words
    decreases |words|
  {
    if |words| == 1 {
      SplitWordPrefix(words[0], "");
      assert words[0] + "" == words[0];
    } else {
      var rest := JoinSpaces(words[1..]);
      JoinSplitRoundTrip(words[1..]);
      assert words[0] + " " + rest == words[0] + (" " + rest);
      SplitWordPrefix(words[0], " " + rest);
      assert (" " + rest)[1..] == rest;
      assert SplitSpaces(" " + rest) == [""] + words[1..];
      assert words[0] + "" == words[0];
      assert words == [words[0]] + words[1..];
    }
  }

  /** The position of the first occurrence of `c` in `s`. */
  function IndexOf(s: string, c: char): (i: nat)
    requires c in s
    ensures i < |s| && s[i] == c && c !in s[..i]
    decreases |s|
  {
    if s[0] == c then 0
    else
      var j := IndexOf(s[1..], c);
      assert s[..j + 1] == [s[0]] + s[1..][..j];
      j + 1
  }

  lemma IndexOfAfterPrefix(a: string, c: char, b: string)
    requires c !in a
    ensures c in a + [c] + b && IndexOf(a + [c] + b, c) == |a|
  {
    var s := a + [c] + b;
    assert s[|a|] == c;
    var i := IndexOf(s, c);
  }
}
