/**
 * Character and string helpers shared by the model: trimming with a fixed
 * whitespace set, ASCII case and class tests, and decimal printing and parsing
 * of integers (JavaScript `toString`, Python `str` and `int`).
 */
module Text {
  import opened Wrappers

  /** The fixed whitespace set that stands in for JavaScript's `trim`, Python's
      `str.strip` and the regular-expression classes `\s` and `\S`. */
  predicate IsSpace(c: char) {
    c == ' ' || c == '\t' || c == '\n' || c == '\r' || c == '\U{000B}' || c == '\U{000C}'
  }

  /** Drops leading whitespace: the result is the suffix of `s` that starts at
      the first non-space character. */
  function TrimStart(s: string): (r: string)
    ensures |r| <= |s| && r == s[|s| - |r|..]
    ensures forall i :: 0 <= i < |s| - |r| ==> IsSpace(s[i])
    ensures r == [] || !IsSpace(r[0])
  {
    if s != [] && IsSpace(s[0]) then
      var r := TrimStart(s[1..]);
      assert s[1..][|s| - 1 - |r|..] == s[|s| - |r|..];
      assert forall i :: 1 <= i < |s| - |r| ==> s[i] == s[1..][i - 1];
      r
    else s
  }

  /** Drops trailing whitespace: the result is the prefix of `s` that ends at
      the last non-space character. */
  function TrimEnd(s: string): (r: string)
    ensures |r| <= |s| && r == s[..|r|]
    ensures forall i :: |r| <= i < |s| ==> IsSpace(s[i])
    ensures r == [] || !IsSpace(r[|r| - 1])
  {
    if s != [] && IsSpace(s[|s| - 1]) then TrimEnd(s[..|s| - 1]) else s
  }

  /** `s.trim()` / `s.strip()`: the slice of `s` between its first and last
      non-space characters. */
  function Trim(s: string): (r: string)
    ensures |r| <= |s|
    ensures r == [] || (!IsSpace(r[0]) && !IsSpace(r[|r| - 1]))
    ensures exists i :: SpaceAround(s, i, r)
  {
    TrimIsSlice(s);
    TrimEnd(TrimStart(s))
  }

  /** The trimmed string is the slice of `s` after the leading whitespace,
      with only whitespace after it. */
  lemma TrimIsSlice(s: string)
    ensures SpaceAround(s, |s| - |TrimStart(s)|, TrimEnd(TrimStart(s)))
  {
    SuffixThenPrefix(s, TrimStart(s), TrimEnd(TrimStart(s)));
  }

  /** Whitespace dropped from the front of `s` to give `t`, then from the back
      of `t` to give `r`, surrounds `r` in `s`. */
  lemma SuffixThenPrefix(s: string, t: string, r: string)
    requires |t| <= |s| && t == s[|s| - |t|..] && forall k :: 0 <= k < |s| - |t| ==> IsSpace(s[k])
    requires |r| <= |t| && r == t[..|r|] && forall k :: |r| <= k < |t| ==> IsSpace(t[k])
    ensures SpaceAround(s, |s| - |t|, r)
  {
    var i := |s| - |t|;
    assert r == s[i..i + |r|];
    forall k | i + |r| <= k < |s| ensures IsSpace(s[k]) {
      assert s[k] == t[k - i];
    }
  }

  /** `r` is the slice of `s` at offset `i`, and everything around it is whitespace. */
  predicate SpaceAround(s: string, i: int, r: string) {
    0 <= i <= |s| - |r| && r == s[i..i + |r|] &&
    (forall k :: 0 <= k < i ==> IsSpace(s[k])) &&
    (forall k :: i + |r| <= k < |s| ==> IsSpace(s[k]))
  }

  /** The string holds nothing but whitespace, scanned from the left. */
  predicate IsBlank(s: string) {
    s == [] || (IsSpace(s[0]) && IsBlank(s[1..]))
  }

  /** A string is blank exactly when each of its characters is whitespace. */
  lemma {:induction false} BlankIffAllSpace(s: string)
    ensures IsBlank(s) <==> forall i :: 0 <= i < |s| ==> IsSpace(s[i])
  {
    if s != [] {
      BlankIffAllSpace(s[1..]);
      assert forall i :: 1 <= i < |s| ==> s[i] == s[1..][i - 1];
    }
  }

  /** `s.trim() === ""`: trimming leaves nothing exactly when the string is
      blank. */
  lemma BlankIffTrimEmpty(s: string)
    ensures IsBlank(s) <==> Trim(s) == []
  {
    BlankIffAllSpace(s);
    var t := TrimStart(s);
    if t != [] {
      assert !IsSpace(t[0]);
      assert TrimEnd(t) != [];
    }
  }

  /** One non-space character is enough to make a string non-blank. */
  lemma NonSpaceIsNotBlank(s: string, i: nat)
    requires i < |s| && !IsSpace(s[i])
    ensures !IsBlank(s)
  {
    BlankIffAllSpace(s);
  }

  predicate IsAsciiLower(c: char) { 'a' <= c <= 'z' }
  predicate IsAsciiUpper(c: char) { 'A' <= c <= 'Z' }
  predicate IsDigit(c: char) { '0' <= c <= '9' }

  /** The class `[a-z0-9]` matched case-insensitively, i.e. `[A-Za-z0-9]`. */
  predicate IsAsciiAlnum(c: char) { IsAsciiLower(c) || IsAsciiUpper(c) || IsDigit(c) }

  /** Lower-cases an ASCII capital letter and leaves every other character alone. */
  function LowerAscii(c: char): (r: char)
    ensures IsAsciiUpper(c) ==> IsAsciiLower(r) && r as int == c as int + 32
    ensures !IsAsciiUpper(c) ==> r == c
  {
    if IsAsciiUpper(c) then (c as int + 32) as char else c
  }

  predicate IsDigits(s: string) { forall i :: 0 <= i < |s| ==> IsDigit(s[i]) }

  function DigitChar(d: nat): (c: char)
    requires d < 10
    ensures IsDigit(c) && c as int - '0' as int == d
  {
    (d + '0' as int) as char
  }

  /** The decimal numeral of `n` without leading zeros (`n.toString()`, `str(n)`). */
  function NatToString(n: nat): (r: string)
    ensures |r| >= 1 && IsDigits(r)
    ensures n < 10 <==> |r| == 1
    decreases n
  {
    if n < 10 then [DigitChar(n)] else NatToString(n / 10) + [DigitChar(n % 10)]
  }

  /** The decimal numeral of an integer, with a leading minus sign when negative. */
  function IntToString(i: int): (r: string)
    ensures |r| >= 1
    ensures i >= 0 ==> r == NatToString(i)
    ensures i < 0 ==> r == "-" + NatToString(-i)
  {
    if i < 0 then "-" + NatToString(-i) else NatToString(i)
  }

  /** The value of a string of decimal digits (the empty string has value 0). */
  function DecimalValue(s: string): nat
    requires IsDigits(s)
  {
    if s == [] then 0 else DecimalValue(s[..|s| - 1]) * 10 + (s[|s| - 1] as int - '0' as int)
  }

  lemma {:induction false} DecimalValueOfNatToString(n: nat)
    ensures DecimalValue(NatToString(n)) == n
    decreases n
  {
    if n >= 10 {
      var r := NatToString(n);
      assert r[..|r| - 1] == NatToString(n / 10);
      DecimalValueOfNatToString(n / 10);
    }
  }

  /** A two-digit numeral has a value below 100, so `NatToString` of a number
      in [10, 100) has exactly two digits. */
  lemma NatToStringOfTwoDigits(n: nat)
    requires 10 <= n < 100
    ensures |NatToString(n)| == 2
  {
    assert NatToString(n) == NatToString(n / 10) + [DigitChar(n % 10)];
  }

  /** Leading zeros do not change the value of a numeral. */
  lemma {:induction false} DecimalValueLeadingZero(s: string)
    requires IsDigits(s)
    ensures IsDigits("0" + s) && DecimalValue("0" + s) == DecimalValue(s)
    decreases |s|
  {
    if s != [] {
      var t := "0" + s;
      assert t[..|t| - 1] == "0" + s[..|s| - 1];
      DecimalValueLeadingZero(s[..|s| - 1]);
    }
  }

  /** The digit part of a Python integer literal: ASCII digits, where a single
      `_` may stand between two of them. */
  predicate IsDigitPart(s: string)
    decreases |s|
  {
    |s| >= 1 && IsDigit(s[0]) &&
    (|s| == 1 || if s[1] == '_' then IsDigitPart(s[2..]) else IsDigitPart(s[1..]))
  }

  /** A digit part holds nothing but digits and underscores. */
  lemma {:induction false} DigitPartChars(s: string)
    requires IsDigitPart(s)
    ensures forall i :: 0 <= i < |s| ==> IsDigit(s[i]) || s[i] == '_'
    decreases |s|
  {
    if |s| > 1 {
      var k := if s[1] == '_' then 2 else 1;
      DigitPartChars(s[k..]);
      assert forall i :: k <= i < |s| ==> s[i] == s[k..][i - k];
    }
  }

  /** The digits of a string, with every `_` dropped. */
  function DropUnderscores(s: string): string {
    if s == [] then []
    else if s[|s| - 1] == '_' then DropUnderscores(s[..|s| - 1])
    else DropUnderscores(s[..|s| - 1]) + [s[|s| - 1]]
  }

  /** Dropping the underscores of digits and underscores leaves digits, and a
      string of digits has none to drop. */
  lemma {:induction false} DropUnderscoresDigits(s: string)
    ensures (forall i :: 0 <= i < |s| ==> IsDigit(s[i]) || s[i] == '_') ==> IsDigits(DropUnderscores(s))
    ensures IsDigits(s) ==> DropUnderscores(s) == s
  {
    if s != [] {
      var init := s[..|s| - 1];
      DropUnderscoresDigits(init);
      assert forall i :: 0 <= i < |init| ==> init[i] == s[i];
      assert IsDigits(s) ==> init + [s[|s| - 1]] == s;
    }
  }

  /** Python's `int(s)` on a stripped string: an optional sign and a digit
      part; anything else raises `ValueError` (here: `None`). The value is
      that of the digits with the underscores dropped. */
  function ParseInt(s: string): (r: Option<int>)
    ensures r.Some? ==> |s| >= 1
  {
    if s == [] then None
    else if s[0] == '-' || s[0] == '+' then
      var digits := s[1..];
      if IsDigitPart(digits) then
        var v: int := DigitPartValue(digits);
        Some(if s[0] == '-' then -v else v)
      else None
    else if IsDigitPart(s) then Some(DigitPartValue(s))
    else None
  }

  /** The value of a digit part: that of its digits with the underscores dropped. */
  function DigitPartValue(s: string): nat
    requires IsDigitPart(s)
  {
    DigitPartChars(s);
    DropUnderscoresDigits(s);
    DecimalValue(DropUnderscores(s))
  }

  /** An unsigned digit part reads as its value. */
  lemma ParseDigitPart(s: string)
    requires IsDigitPart(s)
    ensures ParseInt(s) == Some(DigitPartValue(s))
  {
  }

  /** `int()` succeeds exactly on an optional sign followed by a digit part. */
  lemma ParseIntSucceedsIff(s: string)
    ensures ParseInt(s).Some? <==>
      IsDigitPart(s) || (|s| >= 2 && (s[0] == '-' || s[0] == '+') && IsDigitPart(s[1..]))
  {
  }

  /** Dropping underscores distributes over concatenation. */
  lemma {:induction false} DropUnderscoresAppend(s: string, t: string)
    ensures DropUnderscores(s + t) == DropUnderscores(s) + DropUnderscores(t)
    decreases |t|
  {
    if t == [] {
      assert s + t == s;
    } else {
      var u := s + t;
      var t' := t[..|t| - 1];
      assert u[..|u| - 1] == s + t';
      assert u[|u| - 1] == t[|t| - 1];
      DropUnderscoresAppend(s, t');
    }
  }

  /** Two digit parts joined directly, or by one `_`, form a digit part. */
  lemma {:induction false} DigitPartsJoin(a: string, sep: string, b: string)
    requires IsDigitPart(a) && IsDigitPart(b) && (sep == "" || sep == "_")
    ensures IsDigitPart(a + sep + b)
    decreases |a|
  {
    var u := a + sep + b;
    assert u[0] == a[0];
    if |a| == 1 {
      if sep == "_" {
        assert u[1] == '_' && u[2..] == b;
      } else {
        assert u[1] == b[0] && u[1..] == b;
      }
    } else {
      var k := if a[1] == '_' then 2 else 1;
      assert u[1] == a[1];
      assert u[k..] == a[k..] + sep + b;
      DigitPartsJoin(a[k..], sep, b);
    }
  }

  /** A single `_` between two digit parts does not change what `int()` reads. */
  lemma UnderscoreBetweenDigitParts(a: string, b: string)
    requires IsDigitPart(a) && IsDigitPart(b)
    ensures ParseInt(a + "_" + b) == ParseInt(a + b) && ParseInt(a + b).Some?
  {
    var u, v := a + "_" + b, a + b;
    DigitPartsJoin(a, "", b);
    assert a + "" == a;
    DigitPartsJoin(a, "_", b);
    DropUnderscoreBetween(a, b);
    SameDigitsSameValue(u, v);
    ParseDigitPart(u);
    ParseDigitPart(v);
  }

  /** The `_` between two strings is dropped with the others. */
  lemma DropUnderscoreBetween(a: string, b: string)
    ensures DropUnderscores(a + "_" + b) == DropUnderscores(a + b)
  {
    DropUnderscoresAppend(a + "_", b);
    DropUnderscoresAppend(a, "_");
    DropUnderscoresAppend(a, b);
    assert DropUnderscores("_") == [];
    assert DropUnderscores(a) + [] == DropUnderscores(a);
  }

  /** Digit parts with the same digits have the same value. */
  lemma SameDigitsSameValue(u: string, v: string)
    requires IsDigitPart(u) && IsDigitPart(v) && DropUnderscores(u) == DropUnderscores(v)
    ensures DigitPartValue(u) == DigitPartValue(v)
  {
  }

  /** `int("1_000")` is 1000. */
  lemma UnderscoreGroupingExample()
    ensures ParseInt("1_000") == Some(1000)
  {
    ThousandValue("1000");
    assert IsDigitPart("1") && IsDigitPart("000");
    assert "1" + "000" == "1000" && "1" + "_" + "000" == "1_000";
    GroupedAs("1_000", "1", "000", 1000);
  }

  lemma GroupedAs(u: string, a: string, b: string, n: int)
    requires IsDigitPart(a) && IsDigitPart(b) && u == a + "_" + b && ParseInt(a + b) == Some(n)
    ensures ParseInt(u) == Some(n)
  {
    UnderscoreBetweenDigitParts(a, b);
  }

  lemma ThousandValue(s: string)
    requires s == "1000"
    ensures IsDigits(s) && ParseInt(s) == Some(1000)
  {
    assert s[..3] == "100" && s[..3][..2] == "10" && s[..3][..2][..1] == "1";
    assert DecimalValue("1") == 1;
    assert DecimalValue("10") == 10;
    assert DecimalValue("100") == 100;
    assert DecimalValue(s) == 1000;
    ParseNumeral(s, 1000);
  }

  /** A doubled, leading or trailing `_` is refused. */
  lemma MisplacedUnderscoreExamples()
    ensures ParseInt("1__0") == None && ParseInt("_1") == None && ParseInt("1_") == None
  {
    assert "1__0"[1] == '_' && "1__0"[2] == '_';
  }

  /** A string that starts and ends with a non-space character is its own trim. */
  lemma TrimKeeps(s: string)
    requires |s| >= 1 && !IsSpace(s[0]) && !IsSpace(s[|s| - 1])
    ensures Trim(s) == s
  {
    assert TrimStart(s) == s;
    assert TrimEnd(s) == s;
  }

  /** A printed integer starts with `-` or a digit and ends with a digit. */
  lemma IntToStringEdges(i: int)
    ensures var s := IntToString(i); (s[0] == '-' || IsDigit(s[0])) && IsDigit(s[|s| - 1])
  {
    var d := NatToString(if i < 0 then -i else i);
    assert IsDigit(d[|d| - 1]);
    if i < 0 {
      assert ("-" + d)[|"-" + d| - 1] == d[|d| - 1];
    }
  }

  /** Printing an integer and parsing it back gives the integer. */
  lemma ParseIntOfIntToString(i: int)
    ensures ParseInt(IntToString(i)) == Some(i)
  {
    if i < 0 {
      ParseIntOfNegative(i);
    } else {
      ParseIntOfNonNegative(i);
    }
  }

  lemma ParseIntOfNegative(i: int)
    requires i < 0
    ensures ParseInt(IntToString(i)) == Some(i)
  {
    DecimalValueOfNatToString(-i);
    ParseNegativeNumeral(NatToString(-i), IntToString(i), i);
  }

  lemma ParseIntOfNonNegative(i: int)
    requires i >= 0
    ensures ParseInt(IntToString(i)) == Some(i)
  {
    DecimalValueOfNatToString(i);
    ParseNumeral(IntToString(i), i);
  }

  /** A numeral is a digit part, and has no underscores to drop. */
  lemma {:induction false} DigitsAreDigitPart(d: string)
    requires |d| >= 1 && IsDigits(d)
    ensures IsDigitPart(d) && DropUnderscores(d) == d
    decreases |d|
  {
    DropUnderscoresDigits(d);
    if |d| > 1 {
      assert IsDigits(d[1..]) by {
        forall i | 0 <= i < |d[1..]| ensures IsDigit(d[1..][i]) {
          assert d[1..][i] == d[i + 1];
        }
      }
      assert d[1] != '_' by {
        assert IsDigit(d[1]);
      }
      DigitsAreDigitPart(d[1..]);
    }
  }

  /** `int()` reads a numeral as its decimal value. */
  lemma ParseNumeral(d: string, v: int)
    requires |d| >= 1 && IsDigits(d) && v == DecimalValue(d)
    ensures ParseInt(d) == Some(v)
  {
    DigitsAreDigitPart(d);
    ParseDigitPart(d);
  }

  /** `int()` reads a `-` followed by a numeral as the negated value. */
  lemma ParseNegativeNumeral(d: string, r: string, v: int)
    requires |d| >= 1 && IsDigits(d) && r == "-" + d && v == -(DecimalValue(d) as int)
    ensures ParseInt(r) == Some(v)
  {
    assert r[0] == '-' && r[1..] == d;
    DigitsValue(d);
    ParseMinus(r, d, DecimalValue(d));
  }

  /** Plain digits are a digit part worth their decimal value. */
  lemma DigitsValue(d: string)
    requires |d| >= 1 && IsDigits(d)
    ensures IsDigitPart(d) && DigitPartValue(d) == DecimalValue(d)
  {
    DigitsAreDigitPart(d);
  }

  /** A `-` followed by a digit part reads as the part's value negated. */
  lemma ParseMinus(s: string, d: string, n: nat)
    requires |s| >= 2 && s[0] == '-' && s[1..] == d && IsDigitPart(d) && n == DigitPartValue(d)
    ensures ParseInt(s) == Some(-(n as int))
  {
  }
}
