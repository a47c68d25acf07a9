/**
 * Decimal text of integers: Python's `str(n)` for an `int`, and a parser
 * that reads such text back. The order body's quantity and price fields
 * and the favorites file's user keys are written with `str`.
 */
module Decimal {
  import opened Base

  function DigitChar(d: nat): (c: char)
    requires d < 10
    ensures '0' <= c <= '9'
  {
    (('0' as int) + d) as char
  }

  function DigitValue(c: char): (r: Option<nat>)
    ensures r.Some? <==> '0' <= c <= '9'
    ensures r.Some? ==> r.value < 10 && DigitChar(r.value) == c
  {
    if '0' <= c <= '9' then Some((c as int) - ('0' as int)) else None
  }

  /** `str(n)` for a non-negative integer: no sign, no leading zeros. */
  function NatToString(n: nat): (s: string)
    ensures |s| >= 1
    ensures forall i :: 0 <= i < |s| ==> '0' <= s[i] <= '9'
    decreases n
  {
    if n < 10 then [DigitChar(n)] else NatToString(n / 10) + [DigitChar(n % 10)]
  }

  /** `str(i)` for any integer: a leading `-` for negative values. */
  function IntToString(i: int): (s: string)
    ensures |s| >= 1
    ensures (s[0] == '-') <==> i < 0
  {
    if i < 0 then "-" + NatToString(-i) else NatToString(i)
  }

  /** Reads a non-empty run of decimal digits (leading zeros allowed). */
  function ParseNat(s: string): (r: Option<nat>)
    decreases |s|
  {
    if |s| == 0 then None
    else
      var d := DigitValue(s[|s| - 1]);
      if d.None? then None
      else if |s| == 1 then Some(d.value)
      else
        match ParseNat(s[..|s| - 1])
        case None => None
        case Some(p) => Some(p * 10 + d.value)
  }

  /** Reads an optionally negative decimal integer. */
  function ParseInt(s: string): (r: Option<int>)
  {
    if |s| > 0 && s[0] == '-' then
      match ParseNat(s[1..])
      case None => None
      case Some(n) => Some(0 - (n as int))
    else
      match ParseNat(s)
      case None => None
      case Some(n) => Some(n)
  }

  lemma {:induction false} NatRoundTrip(n: nat)
    ensures ParseNat(NatToString(n)) == Some(n)
    decreases n
  {
    if n >= 10 {
      NatRoundTrip(n / 10);
      ParseNatSnoc(NatToString(n / 10), n % 10);
    }
  }

  /** One more digit after a readable numeral: the step of the parser. */
  lemma ParseNatSnoc(s: string, d: nat)
    requires d < 10 && ParseNat(s).Some?
    ensures ParseNat(s + [DigitChar(d)]) == Some(ParseNat(s).value * 10 + d)
  {
    var t := s + [DigitChar(d)];
    assert t[..|t| - 1] == s;
    assert DigitValue(t[|t| - 1]) == Some(d);
  }

  /** The text `str(i)` reads back as `i`. */
  lemma IntRoundTrip(i: int)
    ensures ParseInt(IntToString(i)) == Some(i)
  {
    if i < 0 {
      NatRoundTrip(-i);
      SignedRoundTrip(NatToString(-i), -i);
    } else {
      var s := NatToString(i);
      assert s[0] != '-';
      NatRoundTrip(i);
    }
  }

  /** A minus sign before a numeral reads back as the negated value. */
  lemma SignedRoundTrip(t: string, n: nat)
    requires ParseNat(t) == Some(n)
    ensures ParseInt("-" + t) == Some(-(n as int))
  {
    assert ("-" + t)[1..] == t;
  }

  /** Distinct integers have distinct decimal text. */
  lemma IntToStringInjective(a: int, b: int)
    requires IntToString(a) == IntToString(b)
    ensures a == b
  {
    IntRoundTrip(a);
    IntRoundTrip(b);
  }

  /** No character is a comma. */
  predicate NoCommas(s: string) {
    forall i :: 0 <= i < |s| ==> s[i] != ','
  }

  /** Commas sit exactly at the positions 4, 8, 12, ... counted from the end. */
  predicate CommasEveryFourth(g: string) {
    forall j :: 0 <= j < |g| ==> (g[j] == ',' <==> (|g| - j) % 4 == 0)
  }

  /**
   * Python's `,` format option on a digit string: a comma before every
   * group of three digits counted from the right, so the groups after
   * the first have exactly three digits and the first has one to three.
   */
  function GroupDigits(s: string): (g: string)
    ensures |s| <= 3 ==> g == s
    ensures |s| > 0 ==> |g| > 0 && g[0] == s[0]
    ensures NoCommas(s) && |s| > 0 ==> |g| == |s| + (|s| - 1) / 3
    ensures NoCommas(s) ==> CommasEveryFourth(g)
    decreases |s|
  {
    if |s| <= 3 then s
    else
      var front, back := s[..|s| - 3], s[|s| - 3..];
      NoCommasSplit(s, |s| - 3);
      var gf := GroupDigits(front);
      GroupStep(gf, back);
      gf + "," + back
  }

  /** Both parts of a comma-free text are comma-free. */
  lemma NoCommasSplit(s: string, k: int)
    requires 0 <= k <= |s|
    ensures NoCommas(s) ==> NoCommas(s[..k]) && NoCommas(s[k..])
  {
    if NoCommas(s) {
      assert forall i :: 0 <= i < k ==> s[..k][i] == s[i];
      assert forall i :: 0 <= i < |s| - k ==> s[k..][i] == s[k + i];
    }
  }

  /** One more comma and group of three keeps the commas every fourth place. */
  lemma GroupStep(gf: string, back: string)
    ensures CommasEveryFourth(gf) && |back| == 3 && NoCommas(back) ==> CommasEveryFourth(gf + "," + back)
  {
    if CommasEveryFourth(gf) && |back| == 3 && NoCommas(back) {
      var g := gf + "," + back;
      forall j | 0 <= j < |g| ensures (g[j] == ',' <==> (|g| - j) % 4 == 0) {
        if j < |gf| {
          assert g[j] == gf[j];
          assert |g| - j == (|gf| - j) + 4;
        } else if j > |gf| {
          assert g[j] == back[j - |gf| - 1];
        }
      }
    }
  }

  /** The digits of `str(n)` contain no comma. */
  lemma NatDigitsNoCommas(n: nat)
    ensures NoCommas(NatToString(n))
  {
  }

  /** `f"{1000000:,}"` is "1,000,000". */
  lemma GroupedMillion()
    ensures IntGrouped(1000000) == "1,000,000"
  {
    assert NatToString(1000000) == "1000000" by {
      assert NatToString(1) == "1";
      assert NatToString(10) == "10";
      assert NatToString(100) == "100";
      assert NatToString(1000) == "1000";
      assert NatToString(10000) == "10000";
      assert NatToString(100000) == "100000";
    }
    assert GroupDigits("1000000") == "1,000,000" by {
      assert "1000000"[..4] == "1000" && "1000000"[4..] == "000";
      assert "1000"[..1] == "1" && "1000"[1..] == "000";
      assert GroupDigits("1000") == "1,000";
    }
  }

  /** `f"{200000:,}"` is "200,000". */
  lemma GroupedTwoHundredThousand()
    ensures IntGrouped(200000) == "200,000"
  {
    assert NatToString(200000) == "200000" by {
      assert NatToString(2) == "2";
      assert NatToString(20) == "20";
      assert NatToString(200) == "200";
      assert NatToString(2000) == "2000";
      assert NatToString(20000) == "20000";
    }
    assert GroupDigits("200000") == "200,000" by {
      assert "200000"[..3] == "200" && "200000"[3..] == "000";
    }
  }

  /**
   * `f"{i:,}"`: the sign, then the digits of `|i|` grouped by three:
   * after the sign, commas stand exactly every fourth place from the end.
   */
  function IntGrouped(i: int): (s: string)
    ensures |s| >= 1
    ensures (s[0] == '-') <==> i < 0
    ensures var d := |NatToString(if i < 0 then -i else i)|;
            |s| == (if i < 0 then 1 else 0) + d + (d - 1) / 3
    ensures forall j :: 0 <= j < |s| ==> (s[j] == ',' <==> 0 < j && (|s| - j) % 4 == 0)
  {
    var digits := NatToString(if i < 0 then -i else i);
    NatDigitsNoCommas(if i < 0 then -i else i);
    var g := GroupDigits(digits);
    if i < 0 then
      var s := "-" + g;
      assert forall j :: 1 <= j < |s| ==> s[j] == g[j - 1];
      s
    else
      g
  }

  /** The text with every comma removed. */
  function StripCommas(s: string): (r: string)
    ensures |r| <= |s|
    ensures forall i :: 0 <= i < |r| ==> r[i] != ','
    decreases |s|
  {
    if s == [] then []
    else StripCommas(s[..|s| - 1]) + (if s[|s| - 1] == ',' then [] else [s[|s| - 1]])
  }

  lemma {:induction false} StripCommasAppend(a: string, b: string)
    ensures StripCommas(a + b) == StripCommas(a) + StripCommas(b)
    decreases |b|
  {
    if b != [] {
      assert (a + b)[..|a + b| - 1] == a + b[..|b| - 1];
      StripCommasAppend(a, b[..|b| - 1]);
    } else {
      assert a + b == a;
    }
  }

  /** A comma between two texts is dropped. */
  lemma StripCommasComma(a: string, b: string)
    ensures StripCommas(a + "," + b) == StripCommas(a) + StripCommas(b)
  {
    var s := a + ",";
    assert s[..|s| - 1] == a;
    assert StripCommas(s) == StripCommas(a);
    StripCommasAppend(s, b);
  }

  lemma {:induction false} StripCommasNone(s: string)
    requires forall i :: 0 <= i < |s| ==> s[i] != ','
    ensures StripCommas(s) == s
    decreases |s|
  {
    if s != [] {
      StripCommasNone(s[..|s| - 1]);
    }
  }

  /** Removing the separators from grouped digits gives the digits back. */
  lemma {:induction false} GroupDigitsStrip(s: string)
    requires forall i :: 0 <= i < |s| ==> s[i] != ','
    ensures StripCommas(GroupDigits(s)) == s
    decreases |s|
  {
    if |s| <= 3 {
      StripCommasNone(s);
    } else {
      var front, back := s[..|s| - 3], s[|s| - 3..];
      GroupDigitsStrip(front);
      StripCommasAppend(GroupDigits(front) + ",", back);
      StripCommasAppend(GroupDigits(front), ",");
      StripCommasNone(back);
      assert StripCommas(",") == [];
      assert front + back == s;
    }
  }

  /** `f"{i:,}"` with its commas removed is `str(i)`. */
  lemma GroupedIsDecimal(i: int)
    ensures StripCommas(IntGrouped(i)) == IntToString(i)
  {
    if i < 0 {
      GroupDigitsStrip(NatToString(-i));
      StripCommasAppend("-", GroupDigits(NatToString(-i)));
      assert StripCommas("-") == "-";
    } else {
      GroupDigitsStrip(NatToString(i));
    }
  }

  /** The grouped text reads back as `i` once its commas are removed. */
  lemma GroupedRoundTrip(i: int)
    ensures ParseInt(StripCommas(IntGrouped(i))) == Some(i)
  {
    GroupedIsDecimal(i);
    IntRoundTrip(i);
  }
}
