/**
 * String helpers standing for the few JavaScript string operations the
 * modelled code uses: startsWith, split, includes, toLowerCase, toUpperCase,
 * substring, padStart and number-to-string conversion. Strings are sequences
 * of characters; case mapping is the ASCII one.
 */
module Text {
  import opened Wrappers

  /** `s.startsWith(prefix)` */
  predicate StartsWith(s: string, prefix: string) {
    |prefix| <= |s| && s[..|prefix|] == prefix
  }

  /** Index of the first occurrence of `c` in `s`, or |s| when there is none. */
  function IndexOf(s: string, c: char): (i: nat)
    ensures i <= |s|
    ensures i < |s| ==> s[i] == c
    ensures forall j :: 0 <= j < i ==> s[j] != c
  {
    if |s| == 0 then 0
    else if s[0] == c then 0
    else 1 + IndexOf(s[1..], c)
  }

  /** `s.split(c)` for a one-character separator: the fields between separators. */
  function Split(s: string, c: char): (fields: seq<string>)
    ensures |fields| >= 1
    decreases |s|
  {
    var i := IndexOf(s, c);
    if i == |s| then [s] else [s[..i]] + Split(s[i + 1..], c)
  }

  /** Joining the fields back with the separator gives the original string. */
  function Join(fields: seq<string>, c: char): string
    requires |fields| >= 1
  {
    if |fields| == 1 then fields[0] else fields[0] + [c] + Join(fields[1..], c)
  }

  lemma {:induction false} SplitJoin(s: string, c: char)
    ensures Join(Split(s, c), c) == s
    ensures forall k :: 0 <= k < |Split(s, c)| ==> c !in Split(s, c)[k]
    decreases |s|
  {
    var i := IndexOf(s, c);
    if i < |s| {
      SplitJoin(s[i + 1..], c);
      assert s == s[..i] + [c] + s[i + 1..];
      var rest := Split(s[i + 1..], c);
      assert Split(s, c) == [s[..i]] + rest;
      assert Split(s, c)[1..] == rest;
      forall k | 0 <= k < |Split(s, c)| ensures c !in Split(s, c)[k] {
        if k == 0 {
          assert Split(s, c)[0] == s[..i];
        } else {
          assert Split(s, c)[k] == rest[k - 1];
        }
      }
    }
  }

  /** A string without the separator splits into itself alone. */
  lemma SplitNoSeparator(s: string, c: char)
    requires c !in s
    ensures Split(s, c) == [s]
  {
  }

  /** A string with a single separator splits into the parts on either side of it. */
  lemma SplitAround(a: string, c: char, b: string)
    requires c !in a && c !in b
    ensures Split(a + [c] + b, c) == [a, b]
  {
    var s := a + [c] + b;
    assert s[|a|] == c;
    assert forall j :: 0 <= j < |a| ==> s[j] == a[j];
    assert IndexOf(s, c) == |a|;
    assert s[..|a|] == a;
    assert s[|a| + 1..] == b;
    SplitNoSeparator(b, c);
  }

  /** Two digit runs joined by a colon split back into those runs. */
  lemma SplitDigitsAtColon(a: string, b: string)
    requires forall j :: 0 <= j < |a| ==> IsDigit(a[j])
    requires forall j :: 0 <= j < |b| ==> IsDigit(b[j])
    ensures Split(a + ":" + b, ':') == [a, b]
  {
    assert ':' !in a && ':' !in b;
    SplitAround(a, ':', b);
  }

  /** `s.includes(sub)` */
  predicate Contains(s: string, sub: string)
    decreases |s|
  {
    StartsWith(s, sub) || (|s| > 0 && Contains(s[1..], sub))
  }

  lemma {:induction false} ContainsAt(s: string, sub: string, i: nat)
    requires i + |sub| <= |s| && s[i..i + |sub|] == sub
    ensures Contains(s, sub)
    decreases i
  {
    if i > 0 {
      assert s[1..][i - 1..i - 1 + |sub|] == s[i..i + |sub|];
      ContainsAt(s[1..], sub, i - 1);
    } else {
      assert s[..|sub|] == sub;
    }
  }

  function LowerChar(c: char): char {
    if 'A' <= c <= 'Z' then (c as int + 32) as char else c
  }

  function UpperChar(c: char): char {
    if 'a' <= c <= 'z' then (c as int - 32) as char else c
  }

  /** `s.toLowerCase()`, restricted to the ASCII letters. */
  function ToLower(s: string): (r: string)
    ensures |r| == |s|
    ensures forall i :: 0 <= i < |s| ==> r[i] == LowerChar(s[i])
  {
    if |s| == 0 then [] else [LowerChar(s[0])] + ToLower(s[1..])
  }

  function DigitChar(d: nat): char
    requires d < 10
  {
    ('0' as int + d) as char
  }

  predicate IsDigit(c: char) {
    '0' <= c <= '9'
  }

  function DigitValue(c: char): nat
    requires IsDigit(c)
  {
    c as int - '0' as int
  }

  /** The decimal numeral of `n`, as `String(n)` writes it. */
  function NatToString(n: nat): (s: string)
    ensures |s| >= 1
    ensures forall i :: 0 <= i < |s| ==> IsDigit(s[i])
    ensures n >= 10 ==> s[0] != '0'
    ensures |s| == 1 <==> n < 10
    ensures n < 100 ==> |s| <= 2
    ensures ParseDecimal(s) == n
  {
    if n < 10 then [DigitChar(n)]
    else
      var s := NatToString(n / 10) + [DigitChar(n % 10)];
      assert s[..|s| - 1] == NatToString(n / 10);
      s
  }

  /** The value of a non-empty string of decimal digits. */
  function ParseDecimal(s: string): nat
    requires forall i :: 0 <= i < |s| ==> IsDigit(s[i])
  {
    if |s| == 0 then 0 else 10 * ParseDecimal(s[..|s| - 1]) + DigitValue(s[|s| - 1])
  }

  /** `String(i)` for any integer: a minus sign in front of negative numbers. */
  function IntToString(i: int): (s: string)
    ensures |s| >= 1
    ensures i >= 0 ==> s == NatToString(i)
  {
    if i < 0 then "-" + NatToString(-i) else NatToString(i)
  }

  /** Length of the run of decimal digits at the front of `s`. */
  function DigitRun(s: string): (n: nat)
    ensures n <= |s|
    ensures forall i :: 0 <= i < n ==> IsDigit(s[i])
    ensures n < |s| ==> !IsDigit(s[n])
  {
    if |s| > 0 && IsDigit(s[0]) then 1 + DigitRun(s[1..]) else 0
  }

  predicate IsHexDigit(c: char) {
    IsDigit(c) || 'a' <= c <= 'f' || 'A' <= c <= 'F'
  }

  function HexValue(c: char): (v: nat)
    requires IsHexDigit(c)
    ensures v < 16
  {
    if IsDigit(c) then DigitValue(c)
    else if 'a' <= c <= 'f' then c as int - 'a' as int + 10
    else c as int - 'A' as int + 10
  }

  /** Length of the run of hexadecimal digits at the front of `s`. */
  function HexRun(s: string): (n: nat)
    ensures n <= |s|
    ensures forall i :: 0 <= i < n ==> IsHexDigit(s[i])
    ensures n < |s| ==> !IsHexDigit(s[n])
  {
    if |s| > 0 && IsHexDigit(s[0]) then 1 + HexRun(s[1..]) else 0
  }

  /** The value of a string of hexadecimal digits. */
  function ParseHex(s: string): nat
    requires forall i :: 0 <= i < |s| ==> IsHexDigit(s[i])
  {
    if |s| == 0 then 0 else 16 * ParseHex(s[..|s| - 1]) + HexValue(s[|s| - 1])
  }

  /** `0x` or `0X`: without a radix argument `parseInt` then reads base 16. */
  predicate HexPrefixed(s: string) {
    |s| >= 2 && s[0] == '0' && (s[1] == 'x' || s[1] == 'X')
  }

  /**
   * `parseInt(s)` without a radix, on a string without leading blanks: an
   * optional sign, then either `0x`/`0X` and the hexadecimal digits that
   * follow it or the decimal digits, up to the first character that is not
   * one; NaN (None) when no digit follows.
   */
  function ParseInt(s: string): Option<int> {
    var signed := |s| > 0 && (s[0] == '-' || s[0] == '+');
    var body := if signed then s[1..] else s;
    var v: Option<int> :=
      if HexPrefixed(body) then
        var n := HexRun(body[2..]);
        if n == 0 then None else Some(ParseHex(body[2..][..n]))
      else
        var n := DigitRun(body);
        if n == 0 then None else Some(ParseDecimal(body[..n]));
    if v.None? then None
    else Some(if signed && s[0] == '-' then -v.value else v.value)
  }

  /** `parseInt('0x0C') === 12`, and `parseInt('0x')` is NaN. */
  lemma ParseIntHex()
    ensures ParseInt("0x0C") == Some(12)
    ensures ParseInt("0x") == None
  {
    assert HexRun("0C") == 2;
    assert "0x0C"[2..][..2] == "0C";
    assert ParseHex("0C") == 16 * ParseHex("0") + 12;
    assert "0x"[2..] == "";
  }

  /** A sign may precede the prefix, and the digits stop at the first character that is not one. */
  lemma ParseIntSignedHex()
    ensures ParseInt("-0Xfg") == Some(-15)
  {
    assert "-0Xfg"[1..] == "0Xfg";
    assert "0Xfg"[2..] == "fg";
    assert HexRun("fg") == 1;
    assert "fg"[..1] == "f";
    assert ParseHex("f") == 16 * ParseHex("") + 15;
  }

  /** `parseInt(String(i)) === i`: the numeral of an integer parses back to it. */
  lemma ParseIntToString(i: int)
    ensures ParseInt(IntToString(i)) == Some(i)
  {
    var n: nat := if i < 0 then -i else i;
    var digits := NatToString(n);
    DigitRunAll(digits);
    assert !HexPrefixed(digits) by {
      if |digits| >= 2 {
        assert IsDigit(digits[1]);
      }
    }
    if i < 0 {
      assert ("-" + digits)[1..] == digits;
    }
    assert digits[..|digits|] == digits;
  }

  lemma {:induction false} DigitRunAll(s: string)
    requires forall i :: 0 <= i < |s| ==> IsDigit(s[i])
    ensures DigitRun(s) == |s|
  {
    if |s| > 0 {
      DigitRunAll(s[1..]);
    }
  }

  /** `s.padStart(2, '0')` */
  function PadStart2(s: string): (r: string)
    ensures |r| == if |s| >= 2 then |s| else 2
    ensures r[|r| - |s|..] == s
    ensures (forall i :: 0 <= i < |s| ==> IsDigit(s[i])) ==>
      && (forall i :: 0 <= i < |r| ==> IsDigit(r[i]))
      && ParseDecimal(r) == ParseDecimal(s)
  {
    if |s| >= 2 then s
    else if |s| == 1 then
      var r := "0" + s;
      assert r[..1] == "0";
      r
    else "00"
  }
  /**
   * A number written with `padStart(2, '0')` is all digits and reads back as
   * the number, and below 100 it is exactly two digits: the minutes and
   * seconds fields of a clock display.
   */
  lemma PaddedTwoDigits(n: nat)
    ensures n < 100 ==> |PadStart2(NatToString(n))| == 2
    ensures forall i :: 0 <= i < |PadStart2(NatToString(n))| ==> IsDigit(PadStart2(NatToString(n))[i])
    ensures ParseDecimal(PadStart2(NatToString(n))) == n
  {
  }
}
