/** Models of the Go standard-library string primitives the SDK relies on:
    `len` on a string (UTF-8 byte count), `unicode.IsSpace` / `strings.TrimSpace`,
    `strings.ReplaceAll(s, " ", "")`, `strings.TrimSuffix`, and decimal integer
    formatting (`strconv.FormatInt(n, 10)`, `fmt.Sprintf("%d", n)`). */
module Text {

  import opened Optional

  // ---------------------------------------------------------------------------
  // Byte length

  /** Number of bytes of the UTF-8 encoding of one character. */
  function RuneLen(c: char): (n: nat)
    ensures 1 <= n <= 4
    ensures n == 1 <==> c as int < 0x80
  {
    if c as int < 0x80 then 1
    else if c as int < 0x800 then 2
    else if c as int < 0x10000 then 3
    else 4
  }

  /** Go's `len(s)`: the length in bytes of the UTF-8 encoding of `s`. */
  function ByteLen(s: string): nat
  {
    if s == [] then 0 else RuneLen(s[0]) + ByteLen(s[1..])
  }

  predicate IsAscii(s: string)
  {
    forall i :: 0 <= i < |s| ==> s[i] as int < 0x80
  }

  /** Every character takes one to four bytes, and exactly one byte each iff
      the text is ASCII. */
  lemma {:induction false} ByteLenBounds(s: string)
    ensures |s| <= ByteLen(s) <= 4 * |s|
    ensures ByteLen(s) == |s| <==> IsAscii(s)
  {
    if s != [] {
      ByteLenBounds(s[1..]);
      assert IsAscii(s) <==> s[0] as int < 0x80 && IsAscii(s[1..]) by {
        if IsAscii(s[1..]) && s[0] as int < 0x80 {
          forall i | 0 <= i < |s| ensures s[i] as int < 0x80 {
            if i > 0 { assert s[i] == s[1..][i - 1]; }
          }
        }
      }
    }
  }

  // ---------------------------------------------------------------------------
  // White space

  /** `unicode.IsSpace`: the Unicode White_Space property. */
  predicate IsSpace(c: char)
  {
    var n := c as int;
    (0x09 <= n <= 0x0D) || n == 0x20 || n == 0x85 || n == 0xA0 || n == 0x1680
    || (0x2000 <= n <= 0x200A) || n == 0x2028 || n == 0x2029 || n == 0x202F
    || n == 0x205F || n == 0x3000
  }

  /** Leading white space removed. */
  function TrimLeft(s: string): string
  {
    if s != [] && IsSpace(s[0]) then TrimLeft(s[1..]) else s
  }

  /** Trailing white space removed. */
  function TrimRight(s: string): string
  {
    if s != [] && IsSpace(s[|s| - 1]) then TrimRight(s[..|s| - 1]) else s
  }

  /** `strings.TrimSpace`. */
  function TrimSpace(s: string): string
  {
    TrimRight(TrimLeft(s))
  }

  /** `strings.TrimSpace(s) == ""` holds exactly when every character of `s`
      is white space. */
  lemma {:induction false} TrimSpaceEmpty(s: string)
    ensures TrimSpace(s) == "" <==> forall i :: 0 <= i < |s| ==> IsSpace(s[i])
  {
    TrimLeftEmpty(s);
    var t := TrimLeft(s);
    if t != [] {
      TrimLeftStartsSolid(s);
      TrimRightKeepsFirst(t);
    }
  }

  lemma {:induction false} TrimLeftEmpty(s: string)
    ensures TrimLeft(s) == "" <==> forall i :: 0 <= i < |s| ==> IsSpace(s[i])
  {
    if s != [] && IsSpace(s[0]) {
      TrimLeftEmpty(s[1..]);
      assert forall i :: 1 <= i < |s| ==> s[i] == s[1..][i - 1];
    }
  }

  lemma {:induction false} TrimLeftStartsSolid(s: string)
    ensures TrimLeft(s) != "" ==> !IsSpace(TrimLeft(s)[0])
  {
    if s != [] && IsSpace(s[0]) {
      TrimLeftStartsSolid(s[1..]);
    }
  }

  lemma {:induction false} TrimRightKeepsFirst(t: string)
    requires t != [] && !IsSpace(t[0])
    ensures TrimRight(t) != ""
  {
    if IsSpace(t[|t| - 1]) {
      TrimRightKeepsFirst(t[..|t| - 1]);
    }
  }

  // ---------------------------------------------------------------------------
  // Space removal

  /** `strings.ReplaceAll(s, " ", "")`: every U+0020 deleted, nothing else. */
  function RemoveSpaces(s: string): string
  {
    if s == [] then []
    else (if s[0] == ' ' then [] else [s[0]]) + RemoveSpaces(s[1..])
  }

  /** The deletion removes exactly the space characters: no space is left,
      every other character keeps its multiplicity, and text without spaces is
      returned unchanged. */
  lemma {:induction false} RemoveSpacesSpec(s: string)
    ensures ' ' !in RemoveSpaces(s)
    ensures multiset(RemoveSpaces(s)) == multiset(s)[' ' := 0]
    ensures ' ' !in s ==> RemoveSpaces(s) == s
    ensures |RemoveSpaces(s)| == |s| - multiset(s)[' ']
  {
    if s != [] {
      RemoveSpacesSpec(s[1..]);
      assert s == [s[0]] + s[1..];
      assert multiset(s) == multiset{s[0]} + multiset(s[1..]);
    }
  }

  /** Space removal works piecewise. */
  lemma {:induction false} RemoveSpacesConcat(a: string, b: string)
    ensures RemoveSpaces(a + b) == RemoveSpaces(a) + RemoveSpaces(b)
  {
    if a == [] {
      assert a + b == b;
    } else {
      RemoveSpacesConcat(a[1..], b);
      assert (a + b)[1..] == a[1..] + b;
      assert (a + b)[0] == a[0];
    }
  }

  // ---------------------------------------------------------------------------
  // Suffix removal

  predicate HasSuffix(s: string, suffix: string)
  {
    |suffix| <= |s| && s[|s| - |suffix|..] == suffix
  }

  /** `strings.TrimSuffix`: one copy of `suffix` removed from the end, if there. */
  function TrimSuffix(s: string, suffix: string): (r: string)
    ensures HasSuffix(s, suffix) ==> r + suffix == s
    ensures !HasSuffix(s, suffix) ==> r == s
  {
    if HasSuffix(s, suffix) then s[..|s| - |suffix|] else s
  }

  /** Only one copy is removed: trimming "/" from text ending in "//" leaves
      one "/" in place. */
  lemma TrimSuffixOnce(s: string)
    ensures TrimSuffix(s + "//", "/") == s + "/"
  {
    assert HasSuffix(s + "//", "/");
    assert (s + "//")[..|s| + 1] == s + "/";
  }

  // ---------------------------------------------------------------------------
  // Decimal integers

  predicate IsDigit(c: char)
  {
    '0' <= c <= '9'
  }

  predicate AllDigits(s: string)
  {
    forall i :: 0 <= i < |s| ==> IsDigit(s[i])
  }

  function DigitChar(d: nat): (c: char)
    requires d < 10
    ensures IsDigit(c)
  {
    ('0' as int + d) as char
  }

  function DigitValue(c: char): (d: nat)
    requires IsDigit(c)
    ensures d < 10 && DigitChar(d) == c
  {
    c as int - '0' as int
  }

  /** Decimal text of a natural number, most significant digit first. */
  function NatToDecimal(n: nat): (s: string)
    ensures 1 <= |s| && AllDigits(s)
    ensures |s| > 1 ==> s[0] != '0'
  {
    if n < 10 then [DigitChar(n)]
    else NatToDecimal(n / 10) + [DigitChar(n % 10)]
  }

  /** `strconv.FormatInt(n, 10)` and `fmt.Sprintf("%d", n)`. */
  function IntToDecimal(n: int): (s: string)
    ensures s != ""
  {
    if n < 0 then "-" + NatToDecimal(-n) else NatToDecimal(n)
  }

  /** Value of a digit string. */
  function DecimalValue(s: string): nat
    requires AllDigits(s)
  {
    if s == [] then 0
    else 10 * DecimalValue(s[..|s| - 1]) + DigitValue(s[|s| - 1])
  }

  /** Reading back decimal text: an optional '-' and at least one digit. */
  function ParseDecimal(s: string): Option<int>
  {
    if s != [] && s[0] == '-' then
      if |s| > 1 && AllDigits(s[1..]) then Some(-(DecimalValue(s[1..]) as int)) else None
    else if s != [] && AllDigits(s) then Some(DecimalValue(s))
    else None
  }

  lemma {:induction false} NatToDecimalRoundTrip(n: nat)
    ensures DecimalValue(NatToDecimal(n)) == n
  {
    var s := NatToDecimal(n);
    if n >= 10 {
      NatToDecimalRoundTrip(n / 10);
      assert s[..|s| - 1] == NatToDecimal(n / 10);
    }
  }

  /** The decimal text of any integer reads back as that integer. */
  lemma IntToDecimalRoundTrip(n: int)
    ensures ParseDecimal(IntToDecimal(n)) == Some(n)
  {
    NatToDecimalRoundTrip(if n < 0 then -n else n);
    if n < 0 {
      assert IntToDecimal(n)[1..] == NatToDecimal(-n);
    }
  }
}
