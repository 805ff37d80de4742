/** Strings as the programs see them: joining, ASCII case-insensitive search, decimal numbers. */
module Text {
  import opened Wrappers

  /** JavaScript's `parts.join(sep)`. */
  function Join(parts: seq<string>, sep: string): (r: string)
    ensures |parts| == 1 ==> r == parts[0]
  {
    if parts == [] then ""
    else if |parts| == 1 then parts[0]
    else parts[0] + sep + Join(parts[1..], sep)
  }

  /** With a non-empty separator the joined text is empty only when there is nothing to join
      but (at most) one empty string. */
  lemma {:induction false} JoinEmpty(parts: seq<string>, sep: string)
    requires sep != ""
    ensures Join(parts, sep) == "" <==> |parts| == 0 || (|parts| == 1 && parts[0] == "")
  {
    if |parts| > 1 {
      assert |Join(parts, sep)| >= |sep|;
    }
  }

  /** Every part occurs in the joined text. */
  lemma {:induction false} JoinContainsParts(parts: seq<string>, sep: string)
    ensures forall m :: m in parts ==> Contains(Join(parts, sep), m)
  {
    if |parts| > 1 {
      var rest := Join(parts[1..], sep);
      JoinContainsParts(parts[1..], sep);
      assert Join(parts, sep) == parts[0] + (sep + rest);
      forall m | m in parts ensures Contains(Join(parts, sep), m) {
        if m == parts[0] {
          assert m <= Join(parts, sep);
        } else {
          assert m in parts[1..];
          ContainsPrefixed(parts[0] + sep, rest, m);
          assert parts[0] + sep + rest == Join(parts, sep);
        }
      }
    } else if |parts| == 1 {
      assert parts[0] <= Join(parts, sep);
    }
  }

  /** Text before the haystack keeps every occurrence. */
  lemma {:induction false} ContainsPrefixed(pre: string, hay: string, needle: string)
    requires Contains(hay, needle)
    ensures Contains(pre + hay, needle)
  {
    if pre != [] {
      ContainsPrefixed(pre[1..], hay, needle);
      assert (pre + hay)[1..] == pre[1..] + hay;
      assert Contains((pre + hay)[1..], needle);
    } else {
      assert pre + hay == hay;
    }
  }

  predicate IsDigit(c: char) { '0' <= c <= '9' }

  /** ASCII upper-case letters to lower case; every other character is unchanged. */
  function Lower(c: char): (l: char)
    ensures !('A' <= l <= 'Z')
    ensures 'a' <= c <= 'z' ==> l == c
  {
    if 'A' <= c <= 'Z' then (c as int + 32) as char else c
  }

  function LowerString(s: string): (r: string)
    ensures |r| == |s|
    ensures forall i :: 0 <= i < |s| ==> r[i] == Lower(s[i])
  {
    if s == [] then [] else [Lower(s[0])] + LowerString(s[1..])
  }

  /** `needle` occurs in `hay` as a contiguous piece. */
  predicate Contains(hay: string, needle: string) {
    needle <= hay || (hay != [] && Contains(hay[1..], needle))
  }

  /** The `icontains` lookup of the object-relational mapper, on ASCII letters. */
  predicate ContainsIgnoreCase(hay: string, needle: string) {
    Contains(LowerString(hay), LowerString(needle))
  }

  function Digit(d: nat): (c: char)
    requires d < 10
    ensures IsDigit(c)
  {
    ('0' as int + d) as char
  }

  /** Decimal notation of a natural number, without leading zeros. */
  function NatToString(n: nat): (s: string)
    ensures |s| > 0
    ensures forall i :: 0 <= i < |s| ==> IsDigit(s[i])
  {
    if n < 10 then [Digit(n)] else NatToString(n / 10) + [Digit(n % 10)]
  }

  /** Decimal notation of an integer, as Python's `str` and f-strings print it. */
  function IntToString(i: int): string {
    if i < 0 then "-" + NatToString(-i) else NatToString(i)
  }

  /** The value of a string of decimal digits. */
  function DigitsValue(s: string): nat
    requires forall i :: 0 <= i < |s| ==> IsDigit(s[i])
  {
    if s == [] then 0
    else
      assert IsDigit(s[|s| - 1]);
      DigitsValue(s[..|s| - 1]) * 10 + (s[|s| - 1] as int - '0' as int)
  }

  /** The longest prefix of `s` made of decimal digits. */
  function LeadingDigits(s: string): (r: string)
    ensures |r| <= |s| && r == s[..|r|]
    ensures forall i :: 0 <= i < |r| ==> IsDigit(r[i])
    ensures |r| < |s| ==> !IsDigit(s[|r|])
  {
    if s == [] || !IsDigit(s[0]) then [] else [s[0]] + LeadingDigits(s[1..])
  }

  predicate IsHexDigit(c: char) {
    IsDigit(c) || 'a' <= c <= 'f' || 'A' <= c <= 'F'
  }

  function HexDigitValue(c: char): (v: nat)
    requires IsHexDigit(c)
    ensures v < 16
  {
    if IsDigit(c) then c as int - '0' as int
    else if 'a' <= c <= 'f' then c as int - 'a' as int + 10
    else c as int - 'A' as int + 10
  }

  /** The value of a string of hexadecimal digits. */
  function HexDigitsValue(s: string): nat
    requires forall i :: 0 <= i < |s| ==> IsHexDigit(s[i])
  {
    if s == [] then 0
    else
      assert IsHexDigit(s[|s| - 1]);
      HexDigitsValue(s[..|s| - 1]) * 16 + HexDigitValue(s[|s| - 1])
  }

  /** The longest prefix of `s` made of hexadecimal digits. */
  function LeadingHexDigits(s: string): (r: string)
    ensures |r| <= |s| && r == s[..|r|]
    ensures forall i :: 0 <= i < |r| ==> IsHexDigit(r[i])
    ensures |r| < |s| ==> !IsHexDigit(s[|r|])
  {
    if s == [] || !IsHexDigit(s[0]) then [] else [s[0]] + LeadingHexDigits(s[1..])
  }

  /** `parseInt` without a radix reads a string that starts with "0x" or "0X" in base 16. */
  predicate HexPrefixed(s: string) {
    |s| >= 2 && s[0] == '0' && (s[1] == 'x' || s[1] == 'X')
  }

  /** JavaScript's `parseInt(s)` without a radix, on strings with no leading whitespace or sign: the longest
      run of hexadecimal digits after a "0x" prefix, else the longest run of leading decimal digits; `None`
      stands for `NaN`, which is the result when that run is empty. */
  function ParseInt(s: string): (r: Option<nat>)
    ensures HexPrefixed(s) ==> (r.None? <==> |s| == 2 || !IsHexDigit(s[2]))
    ensures !HexPrefixed(s) ==> (r.None? <==> s == [] || !IsDigit(s[0]))
  {
    if HexPrefixed(s) then
      var ds := LeadingHexDigits(s[2..]);
      if ds == [] then None else Some(HexDigitsValue(ds))
    else
      var ds := LeadingDigits(s);
      if ds == [] then None else Some(DigitsValue(ds))
  }

  /** A bare "0x" is `NaN`, and "0x7C6" is 1990. */
  lemma HexParse()
    ensures ParseInt("0x") == None
    ensures ParseInt("0x7C6") == Some(1990)
  {
    assert LeadingHexDigits("7C6") == "7C6" by {
      assert "7C6"[1..] == "C6" && "C6"[1..] == "6" && "6"[1..] == [];
    }
    assert "0x7C6"[2..] == "7C6";
    assert "7C6"[..2] == "7C" && "7C"[..1] == "7" && "7"[..0] == [];
  }

  /** Printing a number and reading it back gives the number. */
  lemma {:induction false} DigitsOfNat(n: nat)
    ensures DigitsValue(NatToString(n)) == n
  {
    var s := NatToString(n);
    if n >= 10 {
      DigitsOfNat(n / 10);
      assert s[..|s| - 1] == NatToString(n / 10);
    }
  }

  lemma {:induction false} LeadingDigitsOfDigits(s: string)
    requires forall i :: 0 <= i < |s| ==> IsDigit(s[i])
    ensures LeadingDigits(s) == s
  {
    if s != [] {
      LeadingDigitsOfDigits(s[1..]);
    }
  }

  /** `parseInt` reads back what `NatToString` prints. */
  lemma ParseIntRoundTrip(n: nat)
    ensures ParseInt(NatToString(n)) == Some(n)
  {
    var s := NatToString(n);
    assert !HexPrefixed(s) by {
      if |s| >= 2 {
        assert IsDigit(s[1]);
      }
    }
    LeadingDigitsOfDigits(NatToString(n));
    DigitsOfNat(n);
  }
}
