/**
 * Text and number conversions shared by the clients and the backend:
 * decimal formatting (`str(n)` in Python, `${n}` in JavaScript), whitespace
 * trimming (`str.strip()`, `String.prototype.trim()`), and the three ways the
 * code turns a string into an integer: JavaScript `parseInt`, JavaScript
 * `Number(...)` (used by loose `==` between a number and a string) and
 * Python `int(...)`.
 */
module Text {
  import opened Wrappers

  predicate IsDigit(c: char) { '0' <= c <= '9' }

  predicate IsDigits(s: string) { forall i :: 0 <= i < |s| ==> IsDigit(s[i]) }

  /** The whitespace both `trim()` and `strip()` remove (their ASCII part). */
  predicate IsSpace(c: char) {
    c == ' ' || c == '\t' || c == '\n' || c == '\r' || c == '\U{B}' || c == '\U{C}'
  }

  function DigitChar(d: nat): (c: char)
    requires d < 10
    ensures IsDigit(c)
  {
    (('0' as int) + d) as char
  }

  function DigitValue(c: char): (d: nat)
    requires IsDigit(c)
    ensures d < 10 && DigitChar(d) == c
  {
    (c as int) - ('0' as int)
  }

  function Pow10(k: nat): (p: nat)
    ensures p >= 1
  {
    if k == 0 then 1 else 10 * Pow10(k - 1)
  }

  /** Decimal representation without leading zeros. */
  function NatToString(n: nat): (s: string)
    ensures |s| >= 1 && IsDigits(s)
    ensures (s[0] == '0') <==> n == 0
    decreases n
  {
    if n < 10 then [DigitChar(n)] else NatToString(n / 10) + [DigitChar(n % 10)]
  }

  /** Decimal representation of an integer, with a leading '-' when negative. */
  function IntToString(i: int): (s: string)
    ensures |s| >= 1
    ensures (s[0] == '-') <==> i < 0
  {
    if i < 0 then "-" + NatToString(-i) else NatToString(i)
  }

  /** The value of a string of decimal digits ("" has value 0). */
  function ParseDigits(s: string): nat
    requires IsDigits(s)
  {
    if s == [] then 0 else ParseDigits(s[..|s| - 1]) * 10 + DigitValue(s[|s| - 1])
  }

  lemma {:induction false} ParseNatToString(n: nat)
    ensures ParseDigits(NatToString(n)) == n
  {
    if n >= 10 {
      var s := NatToString(n);
      assert s[..|s| - 1] == NatToString(n / 10);
      ParseNatToString(n / 10);
    }
  }

  /** Different numbers render differently. */
  lemma NatToStringInjective(a: nat, b: nat)
    requires NatToString(a) == NatToString(b)
    ensures a == b
  {
    ParseNatToString(a);
    ParseNatToString(b);
  }

  /** A number with k digits is printed with exactly k characters, and only such a number. */
  lemma NatToStringLength(n: nat, k: nat)
    requires 1 <= k
    ensures |NatToString(n)| == k <==> n < Pow10(k) && (k == 1 || Pow10(k - 1) <= n)
  {
    if n < Pow10(k) && (k == 1 || Pow10(k - 1) <= n) {
      LengthOfBounded(n, k);
    } else {
      NatToStringBounds(n);
    }
  }

  lemma {:induction false} LengthOfBounded(n: nat, k: nat)
    requires 1 <= k && n < Pow10(k) && (k == 1 || Pow10(k - 1) <= n)
    ensures |NatToString(n)| == k
  {
    if k > 1 {
      assert Pow10(k - 1) == 10 * Pow10(k - 2);
      assert 10 <= n;
      assert n / 10 < Pow10(k - 1);
      assert k - 1 == 1 || Pow10(k - 2) <= n / 10;
      LengthOfBounded(n / 10, k - 1);
    }
  }

  /** The rendering's length brackets the number between two powers of ten. */
  lemma {:induction false} NatToStringBounds(n: nat)
    ensures var k := |NatToString(n)|;
      n < Pow10(k) && (k == 1 || Pow10(k - 1) <= n)
    decreases n
  {
    if n >= 10 {
      var k' := |NatToString(n / 10)|;
      NatToStringBounds(n / 10);
      assert |NatToString(n)| == k' + 1;
      assert Pow10(k' + 1) == 10 * Pow10(k');
      assert n < 10 * (n / 10 + 1);
      if k' > 1 {
        assert Pow10(k') == 10 * Pow10(k' - 1);
        assert 10 * Pow10(k' - 1) <= 10 * (n / 10);
      } else {
        assert Pow10(1) == 10;
      }
    }
  }

  lemma ToStringOfSixDigits(n: nat)
    requires 100000 <= n <= 999999
    ensures |NatToString(n)| == 6 && IsDigits(NatToString(n))
  {
    assert Pow10(6) == 1000000 && Pow10(5) == 100000;
    LengthOfBounded(n, 6);
  }

  /** The index of the first non-whitespace character at or after `i`, or `|s|`. */
  function SkipSpaces(s: string, i: nat): (j: nat)
    requires i <= |s|
    ensures i <= j <= |s|
    ensures forall k :: i <= k < j ==> IsSpace(s[k])
    ensures j == |s| || !IsSpace(s[j])
    decreases |s| - i
  {
    if i < |s| && IsSpace(s[i]) then SkipSpaces(s, i + 1) else i
  }

  /** The index just past the last non-whitespace character before `j`, or 0. */
  function SkipSpacesBack(s: string, j: nat): (i: nat)
    requires j <= |s|
    ensures i <= j
    ensures forall k :: i <= k < j ==> IsSpace(s[k])
    ensures i == 0 || !IsSpace(s[i - 1])
  {
    if j > 0 && IsSpace(s[j - 1]) then SkipSpacesBack(s, j - 1) else j
  }

  /** `s.trimStart()` / `s.lstrip()`: the suffix left after dropping leading whitespace. */
  function TrimStart(s: string): (r: string)
    ensures |r| <= |s| && r == s[|s| - |r|..]
    ensures r == [] || !IsSpace(r[0])
    ensures forall i :: 0 <= i < |s| - |r| ==> IsSpace(s[i])
  {
    s[SkipSpaces(s, 0)..]
  }

  /** `s.trimEnd()` / `s.rstrip()`: the prefix left after dropping trailing whitespace. */
  function TrimEnd(s: string): (r: string)
    ensures |r| <= |s| && r == s[..|r|]
    ensures r == [] || !IsSpace(r[|r| - 1])
    ensures forall i :: |r| <= i < |s| ==> IsSpace(s[i])
  {
    s[..SkipSpacesBack(s, |s|)]
  }

  /** `s.trim()` / `s.strip()`. */
  function Trim(s: string): (r: string)
    ensures r == [] || (!IsSpace(r[0]) && !IsSpace(r[|r| - 1]))
    ensures var k := |s| - |TrimStart(s)|;
      && k + |r| <= |s| && r == s[k..k + |r|]
      && (forall i :: 0 <= i < k ==> IsSpace(s[i]))
      && (forall i :: k + |r| <= i < |s| ==> IsSpace(s[i]))
  {
    var a := SkipSpaces(s, 0);
    if a == |s| then []
    else
      var b := SkipSpacesBack(s, |s|);
      // s[a] is not a space, and SkipSpacesBack only steps back over spaces
      assert !IsSpace(s[a]);
      assert a < b;
      s[a..b]
  }

  lemma TrimOfUnpadded(s: string)
    requires s == [] || (!IsSpace(s[0]) && !IsSpace(s[|s| - 1]))
    ensures Trim(s) == s
  {
  }

  /** Trimming twice is trimming once. */
  lemma TrimIdempotent(s: string)
    ensures Trim(Trim(s)) == Trim(s)
  {
    TrimOfUnpadded(Trim(s));
  }

  /** The longest prefix of `s` made of digits. */
  function DigitPrefix(s: string): (r: string)
    ensures IsDigits(r) && |r| <= |s| && r == s[..|r|]
    ensures |r| == |s| || !IsDigit(s[|r|])
  {
    if s != [] && IsDigit(s[0]) then [s[0]] + DigitPrefix(s[1..]) else []
  }

  /** A leading sign, as `parseInt`, `Number` and `int` accept it: (negative?, rest). */
  function SplitSign(s: string): (bool, string) {
    if s != [] && (s[0] == '-' || s[0] == '+') then (s[0] == '-', s[1..]) else (false, s)
  }

  function Signed(negative: bool, n: nat): int {
    if negative then -(n as int) else n
  }

  predicate IsHexDigit(c: char) {
    IsDigit(c) || ('a' <= c <= 'f') || ('A' <= c <= 'F')
  }

  function HexDigitValue(c: char): (d: nat)
    requires IsHexDigit(c)
    ensures d < 16
  {
    if IsDigit(c) then DigitValue(c)
    else if 'a' <= c <= 'f' then (c as int) - ('a' as int) + 10
    else (c as int) - ('A' as int) + 10
  }

  /** The longest prefix of `s` made of hexadecimal digits. */
  function HexPrefix(s: string): (r: string)
    ensures |r| <= |s| && r == s[..|r|] && (forall i :: 0 <= i < |r| ==> IsHexDigit(r[i]))
    ensures |r| == |s| || !IsHexDigit(s[|r|])
  {
    if s != [] && IsHexDigit(s[0]) then [s[0]] + HexPrefix(s[1..]) else []
  }

  /** The value of a string of hexadecimal digits. */
  function ParseHex(s: string): nat
    requires forall i :: 0 <= i < |s| ==> IsHexDigit(s[i])
  {
    if s == [] then 0 else ParseHex(s[..|s| - 1]) * 16 + HexDigitValue(s[|s| - 1])
  }

  /** After the sign, "0x" or "0X" makes `parseInt` read base 16. */
  predicate HexForm(rest: string) {
    |rest| >= 2 && rest[0] == '0' && (rest[1] == 'x' || rest[1] == 'X')
  }

  /**
   * JavaScript `parseInt(s)` without a radix: skip leading whitespace, accept
   * a sign, then read base 16 after a "0x"/"0X" prefix and base 10 otherwise,
   * the longest run of digits of that base, ignoring the rest; no digits at
   * all gives NaN (None).
   */
  function JsParseInt(s: string): (r: Option<int>)
    ensures var (negative, rest) := SplitSign(TrimStart(s));
      !HexForm(rest) ==>
        && (r.None? <==> DigitPrefix(rest) == [])
        && (r.Some? ==> r.value == Signed(negative, ParseDigits(DigitPrefix(rest))))
    ensures var (negative, rest) := SplitSign(TrimStart(s));
      HexForm(rest) ==>
        && (r.None? <==> HexPrefix(rest[2..]) == [])
        && (r.Some? ==> r.value == Signed(negative, ParseHex(HexPrefix(rest[2..]))))
  {
    var (negative, rest) := SplitSign(TrimStart(s));
    if HexForm(rest) then
      var hex := HexPrefix(rest[2..]);
      if hex == [] then None else Some(Signed(negative, ParseHex(hex)))
    else
      var digits := DigitPrefix(rest);
      if digits == [] then None else Some(Signed(negative, ParseDigits(digits)))
  }

  /**
   * A decimal number followed by anything that does not continue it (no
   * digit, and no "x" right after a lone "0") reads back as that number.
   */
  lemma JsParseIntReadsLeadingNumber(n: nat, tail: string)
    requires tail == [] || !IsDigit(tail[0])
    requires n == 0 ==> tail == [] || (tail[0] != 'x' && tail[0] != 'X')
    ensures JsParseInt(NatToString(n) + tail) == Some(n)
  {
    var d := NatToString(n);
    var s := d + tail;
    assert s[0] == d[0] && IsDigit(s[0]);
    assert SkipSpaces(s, 0) == 0;
    assert TrimStart(s) == s;
    assert SplitSign(s) == (false, s);
    assert !HexForm(s) by {
      if d[0] == '0' {
        assert n == 0 && d == [DigitChar(0)];
        assert tail == [] || s[1] == tail[0];
      } else {
        assert s[0] != '0';
      }
    }
    DigitPrefixOfDigitsThen(d, tail);
    ParseNatToString(n);
    assert JsParseInt(s) == Some(Signed(false, ParseDigits(d)));
  }

  lemma {:induction false} DigitPrefixOfDigitsThen(d: string, tail: string)
    requires IsDigits(d)
    requires tail == [] || !IsDigit(tail[0])
    ensures DigitPrefix(d + tail) == d
  {
    if d == [] {
      assert d + tail == tail;
    } else {
      assert (d + tail)[1..] == d[1..] + tail;
      DigitPrefixOfDigitsThen(d[1..], tail);
    }
  }

  /** With the "0x" prefix the digits are read in base 16. */
  lemma JsParseIntReadsHex()
    ensures JsParseInt("0x1A") == Some(26)
  {
    var s := "0x1A";
    assert !IsSpace(s[0]);
    assert TrimStart(s) == s;
    assert SplitSign(s) == (false, s);
    assert HexForm(s);
    assert s[2..] == "1A" && "1A"[1..] == "A" && "A"[1..] == [];
    assert HexPrefix("1A") == "1A";
    assert "1A"[..1] == "1";
    assert ParseHex("1A") == 26;
  }

  /**
   * JavaScript `Number(s)` for decimal integers: trim, "" is 0, otherwise an
   * optional sign followed by digits only; anything else is NaN (None).
   */
  function JsNumber(s: string): (r: Option<int>)
    ensures Trim(s) == [] ==> r == Some(0)
  {
    var t := Trim(s);
    if t == [] then Some(0)
    else
      var (negative, rest) := SplitSign(t);
      if rest != [] && IsDigits(rest) then Some(Signed(negative, ParseDigits(rest))) else None
  }

  /** JavaScript `n == s` for a number `n` and a string `s`. */
  predicate JsLooseEquals(n: int, s: string) {
    JsNumber(s) == Some(n)
  }

  /**
   * Python `int(s)` for a string: strip, an optional sign and at least one
   * digit, nothing else; otherwise ValueError (None).
   */
  function PyIntOfString(s: string): (r: Option<int>)
    ensures Trim(s) == [] ==> r.None?
  {
    var (negative, rest) := SplitSign(Trim(s));
    if rest != [] && IsDigits(rest) then Some(Signed(negative, ParseDigits(rest))) else None
  }

  /** Every decimal string read back by each of the three parsers gives its number. */
  lemma ParsersReadDecimal(n: nat)
    ensures JsParseInt(NatToString(n)) == Some(n)
    ensures JsNumber(NatToString(n)) == Some(n)
    ensures PyIntOfString(NatToString(n)) == Some(n)
  {
    var s := NatToString(n);
    ParseNatToString(n);
    assert !IsSpace(s[0]) && !IsSpace(s[|s| - 1]);
    assert SkipSpaces(s, 0) == 0;
    assert TrimStart(s) == s;
    TrimOfUnpadded(s);
    assert SplitSign(s) == (false, s);
    JsParseIntReadsLeadingNumber(n, []);
    assert s + [] == s;
    assert JsNumber(s) == Some(n);
  }

  /**
   * `parseInt` stops at the first non-digit, where `Number` gives NaN: the two
   * disagree on "12abc".
   */
  lemma ParseIntAndNumberDiffer()
    ensures JsParseInt("12abc") == Some(12)
    ensures JsNumber("12abc") == None
  {
    var s := "12abc";
    assert !IsSpace(s[0]) && !IsSpace(s[4]);
    assert TrimStart(s) == s;
    TrimOfUnpadded(s);
    assert SplitSign(s) == (false, s);
    assert !HexForm(s);
    assert DigitPrefix(s) == "12" by {
      assert s[1..] == "2abc" && s[1..][1..] == "abc";
      assert DigitPrefix("abc") == [];
    }
    assert ParseDigits("12") == 12 by {
      assert "12"[..1] == "1";
    }
    assert !IsDigit(s[2]);
  }
}
