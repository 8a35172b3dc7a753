/**
 * The string operations of JavaScript that the catalog code relies on:
 * `toLowerCase`, `includes`, `trim`, number-to-decimal-string conversion and
 * `Number.parseInt` with the default radix.
 */
module JsText {
  import opened Wrappers

  /**
   * `toLowerCase` on one character, for the scripts the store's data uses:
   * ASCII, Latin-1 and the Cyrillic capitals U+0400..U+042F.
   */
  function LowerChar(c: char): (r: char)
    ensures !IsUpper(r)
    ensures !IsUpper(c) ==> r == c
  {
    if 'A' <= c <= 'Z' then (c as int + 32) as char
    else if '\U{00C0}' <= c <= '\U{00DE}' && c != '\U{00D7}' then (c as int + 32) as char
    else if '\U{0410}' <= c <= '\U{042F}' then (c as int + 32) as char
    else if '\U{0400}' <= c <= '\U{040F}' then (c as int + 80) as char
    else c
  }

  /** The capitals `LowerChar` maps. */
  predicate IsUpper(c: char) {
    || 'A' <= c <= 'Z'
    || ('\U{00C0}' <= c <= '\U{00DE}' && c != '\U{00D7}')
    || '\U{0400}' <= c <= '\U{042F}'
  }

  function ToLower(s: string): (r: string)
    ensures |r| == |s|
    ensures forall i :: 0 <= i < |s| ==> r[i] == LowerChar(s[i])
  {
    seq(|s|, i requires 0 <= i < |s| => LowerChar(s[i]))
  }

  lemma ToLowerIdempotent(s: string)
    ensures ToLower(ToLower(s)) == ToLower(s)
  {
  }

  predicate StartsWith(s: string, prefix: string) {
    |prefix| <= |s| && s[..|prefix|] == prefix
  }

  /** `s.includes(t)`, searched from the left. */
  predicate Includes(s: string, t: string)
    decreases |s|
  {
    StartsWith(s, t) || (s != [] && Includes(s[1..], t))
  }

  /** `t` occurs in `s` starting at index `i`. */
  predicate OccursAt(s: string, t: string, i: int) {
    0 <= i && i + |t| <= |s| && s[i..i + |t|] == t
  }

  /** `Includes` agrees with the definition by position: `t` occurs at some index of `s`. */
  lemma {:induction false} IncludesAtIndex(s: string, t: string)
    ensures Includes(s, t) <==> exists i :: OccursAt(s, t, i)
    decreases |s|
  {
    if StartsWith(s, t) {
      assert OccursAt(s, t, 0);
    } else if s == [] {
    } else {
      IncludesAtIndex(s[1..], t);
      if Includes(s[1..], t) {
        var i :| OccursAt(s[1..], t, i);
        assert s[i + 1..i + 1 + |t|] == s[1..][i..i + |t|];
        assert OccursAt(s, t, i + 1);
      }
      if exists i :: OccursAt(s, t, i) {
        var i :| OccursAt(s, t, i);
        if i != 0 {
          assert s[1..][i - 1..i - 1 + |t|] == s[i..i + |t|];
          assert OccursAt(s[1..], t, i - 1);
        }
      }
    }
  }

  /** Every string includes the empty string. */
  lemma IncludesEmpty(s: string)
    ensures Includes(s, "")
  {
    assert StartsWith(s, "");
  }

  /** The characters `String.prototype.trim` removes: WhiteSpace and LineTerminator. */
  predicate IsWhitespace(c: char) {
    || '\U{0009}' <= c <= '\U{000D}'
    || c == ' ' || c == '\U{00A0}' || c == '\U{1680}'
    || '\U{2000}' <= c <= '\U{200A}'
    || c == '\U{2028}' || c == '\U{2029}' || c == '\U{202F}' || c == '\U{205F}'
    || c == '\U{3000}' || c == '\U{FEFF}'
  }

  predicate AllWhitespace(s: string) {
    forall i :: 0 <= i < |s| ==> IsWhitespace(s[i])
  }

  /** How many whitespace characters `s` starts with. */
  function LeadingWhitespace(s: string): (n: nat)
    ensures n <= |s|
    ensures forall i :: 0 <= i < n ==> IsWhitespace(s[i])
    ensures n < |s| ==> !IsWhitespace(s[n])
    decreases |s|
  {
    if s != [] && IsWhitespace(s[0]) then 1 + LeadingWhitespace(s[1..]) else 0
  }

  /** Drops leading whitespace (`trimStart`). */
  function TrimStart(s: string): (r: string)
    ensures r == [] || !IsWhitespace(r[0])
    ensures |r| <= |s| && r == s[|s| - |r|..]
    ensures AllWhitespace(s[..|s| - |r|])
  {
    s[LeadingWhitespace(s)..]
  }

  /** Drops trailing whitespace (`trimEnd`). */
  function TrimEnd(s: string): (r: string)
    ensures r == [] || !IsWhitespace(r[|r| - 1])
    ensures |r| <= |s| && r == s[..|r|]
    ensures AllWhitespace(s[|r|..])
    decreases |s|
  {
    if s != [] && IsWhitespace(s[|s| - 1]) then TrimEnd(s[..|s| - 1]) else s
  }

  /** `s.trim()`. */
  function Trim(s: string): (r: string)
    ensures r == [] || (!IsWhitespace(r[0]) && !IsWhitespace(r[|r| - 1]))
  {
    TrimEnd(TrimStart(s))
  }

  /** A string trims to empty exactly when it is all whitespace. */
  lemma TrimEmptyIff(s: string)
    ensures Trim(s) == [] <==> AllWhitespace(s)
  {
    var a := TrimStart(s);
    if a != [] {
      assert !IsWhitespace(a[0]) && a[0] == s[|s| - |a|];
      assert TrimEnd(a) != [];
    } else {
      assert s[..|s| - 0] == s;
    }
  }

  /** Trimming a trimmed string changes nothing. */
  lemma TrimIdempotent(s: string)
    ensures Trim(Trim(s)) == Trim(s)
  {
    var t := Trim(s);
    if t != [] {
      assert TrimStart(t) == t;
      assert TrimEnd(t) == t;
    }
  }

  /** A string without whitespace at either end is its own trim. */
  lemma TrimSolidEnds(s: string)
    requires s != [] && !IsWhitespace(s[0]) && !IsWhitespace(s[|s| - 1])
    ensures Trim(s) == s
  {
    assert TrimStart(s) == s;
    assert TrimEnd(s) == s;
  }

  predicate IsDigit(c: char) {
    '0' <= c <= '9'
  }

  predicate AllDigits(s: string) {
    forall i :: 0 <= i < |s| ==> IsDigit(s[i])
  }

  function DigitChar(d: nat): (c: char)
    requires d < 10
    ensures IsDigit(c) && c as int - '0' as int == d
  {
    ('0' as int + d) as char
  }

  /** Decimal notation of a natural number, as `n.toString()` prints it. */
  function NatToString(n: nat): (r: string)
    ensures r != [] && AllDigits(r)
    decreases n
  {
    if n < 10 then [DigitChar(n)] else NatToString(n / 10) + [DigitChar(n % 10)]
  }

  /** `n.toString()` for an integer. */
  function IntToString(n: int): (r: string)
    ensures r != []
  {
    if n < 0 then "-" + NatToString(-n) else NatToString(n)
  }

  /** The value of a string of decimal digits, read most significant first. */
  function DigitsValue(ds: string): nat
    requires AllDigits(ds)
  {
    if ds == [] then 0 else DigitsValue(ds[..|ds| - 1]) * 10 + (ds[|ds| - 1] as int - '0' as int)
  }

  /** The longest run of digits at the start of `s`. */
  function DigitPrefix(s: string): (r: string)
    ensures AllDigits(r) && r <= s
    ensures |r| < |s| ==> !IsDigit(s[|r|])
    decreases |s|
  {
    if s != [] && IsDigit(s[0]) then [s[0]] + DigitPrefix(s[1..]) else []
  }

  /** The value of the leading run of decimal digits of `b`; `None` (`NaN`) when `b` does not start with one. */
  function DecimalValue(b: string): Option<int> {
    var ds := DigitPrefix(b);
    if ds == [] then None else Some(DigitsValue(ds))
  }

  predicate IsHexDigit(c: char) {
    IsDigit(c) || 'a' <= c <= 'f' || 'A' <= c <= 'F'
  }

  predicate AllHexDigits(s: string) {
    forall i :: 0 <= i < |s| ==> IsHexDigit(s[i])
  }

  /** The value of one hexadecimal digit, either case. */
  function HexDigitValue(c: char): (d: nat)
    requires IsHexDigit(c)
    ensures d < 16
  {
    if IsDigit(c) then c as int - '0' as int
    else if 'a' <= c <= 'f' then c as int - 'a' as int + 10
    else c as int - 'A' as int + 10
  }

  /** The value of a string of hexadecimal digits, read most significant first. */
  function HexValue(hs: string): nat
    requires AllHexDigits(hs)
  {
    if hs == [] then 0 else HexValue(hs[..|hs| - 1]) * 16 + HexDigitValue(hs[|hs| - 1])
  }

  /** The longest run of hexadecimal digits at the start of `s`. */
  function HexPrefix(s: string): (r: string)
    ensures AllHexDigits(r) && r <= s
    ensures |r| < |s| ==> !IsHexDigit(s[|r|])
    decreases |s|
  {
    if s != [] && IsHexDigit(s[0]) then [s[0]] + HexPrefix(s[1..]) else []
  }

  /** With the default radix, a `0x` or `0X` prefix switches to base 16. */
  predicate HexMarked(b: string) {
    |b| >= 2 && b[0] == '0' && (b[1] == 'x' || b[1] == 'X')
  }

  /**
   * The value of the unsigned part: after `0x`/`0X` the leading run of
   * hexadecimal digits, otherwise the leading run of decimal digits;
   * `None` (`NaN`) when that run is empty.
   */
  function LeadingValue(b: string): Option<int> {
    if HexMarked(b) then
      var hs := HexPrefix(b[2..]);
      if hs == [] then None else Some(HexValue(hs))
    else DecimalValue(b)
  }

  /** A sign, when present, followed by the leading run of digits. */
  function SignedValue(t: string): Option<int> {
    if t != [] && t[0] == '-' then
      (match LeadingValue(t[1..]) case Some(m) => Some(-m) case None => None)
    else if t != [] && t[0] == '+' then LeadingValue(t[1..])
    else LeadingValue(t)
  }

  /**
   * `Number.parseInt(s)` with the radix left out: leading whitespace is
   * skipped, an optional sign is read, then a `0x`/`0X` prefix selects base
   * 16, and the longest run of digits of the base is read; `None` is `NaN`,
   * returned when no digit follows.
   */
  function ParseInt(s: string): Option<int> {
    SignedValue(TrimStart(s))
  }

  lemma {:induction false} NatToStringValue(n: nat)
    ensures DigitsValue(NatToString(n)) == n
    decreases n
  {
    if n >= 10 {
      NatToStringValue(n / 10);
      var r := NatToString(n);
      assert r[..|r| - 1] == NatToString(n / 10);
    }
  }

  lemma DigitPrefixAll(s: string)
    requires AllDigits(s)
    ensures DigitPrefix(s) == s
  {
  }

  /** A string that does not start with whitespace is its own `trimStart`. */
  lemma TrimStartSolid(s: string)
    requires s != [] && !IsWhitespace(s[0])
    ensures TrimStart(s) == s
  {
  }

  /** Without leading whitespace, `ParseInt` reads the sign and digits directly. */
  lemma ParseIntSolid(s: string)
    requires s != [] && !IsWhitespace(s[0])
    ensures ParseInt(s) == SignedValue(s)
  {
    TrimStartSolid(s);
  }

  /** A run of digits is read whole. */
  lemma LeadingValueAll(digits: string)
    requires digits != [] && AllDigits(digits)
    ensures LeadingValue(digits) == Some(DigitsValue(digits))
  {
    assert |digits| >= 2 ==> IsDigit(digits[1]);
    DigitPrefixAll(digits);
  }

  lemma HexPrefixAll(s: string)
    requires AllHexDigits(s)
    ensures HexPrefix(s) == s
  {
  }

  /** `ParseInt` on `0x` or `0X` followed by hexadecimal digits reads them in base 16. */
  lemma ParseIntHex(s: string)
    requires HexMarked(s) && |s| >= 3 && AllHexDigits(s[2..])
    ensures ParseInt(s) == Some(HexValue(s[2..]))
  {
    ParseIntSolid(s);
    HexPrefixAll(s[2..]);
  }

  /** `0x` with no hexadecimal digit after it is `NaN`, not 0. */
  lemma ParseIntBareHexPrefix(s: string)
    requires HexMarked(s) && (|s| == 2 || !IsHexDigit(s[2]))
    ensures ParseInt(s) == None
  {
    ParseIntSolid(s);
  }

  /** `ParseInt` on a sign-free run of digits. */
  lemma ParseIntDigits(digits: string)
    requires digits != [] && AllDigits(digits)
    ensures ParseInt(digits) == Some(DigitsValue(digits))
  {
    assert IsDigit(digits[0]);
    ParseIntSolid(digits);
    LeadingValueAll(digits);
  }

  /** A minus sign before a run of digits negates its value. */
  lemma SignedValueNegative(t: string)
    requires |t| >= 2 && t[0] == '-' && AllDigits(t[1..])
    ensures SignedValue(t) == Some(-(DigitsValue(t[1..]) as int))
  {
    LeadingValueAll(t[1..]);
  }

  /** `ParseInt` on a minus sign followed by a run of digits. */
  lemma ParseIntNegative(s: string)
    requires |s| >= 2 && s[0] == '-' && AllDigits(s[1..])
    ensures ParseInt(s) == Some(-(DigitsValue(s[1..]) as int))
  {
    ParseIntSolid(s);
    SignedValueNegative(s);
  }

  /** Printing a natural number and parsing it back yields the number. */
  lemma ParseIntPrintedNat(n: nat)
    ensures ParseInt(NatToString(n)) == Some(n)
  {
    NatToStringValue(n);
    ParseIntDigits(NatToString(n));
  }

  /** Printing a negative number and parsing it back yields the number. */
  lemma ParseIntPrintedNegative(n: int)
    requires n < 0
    ensures ParseInt(IntToString(n)) == Some(n)
  {
    NatToStringValue(-n);
    var s := IntToString(n);
    assert s[1..] == NatToString(-n);
    assert DigitsValue(s[1..]) == -n;
    ParseIntNegative(s);
  }

  /** Printing a number and parsing it back yields the number. */
  lemma ParseIntToString(n: int)
    ensures ParseInt(IntToString(n)) == Some(n)
  {
    if n < 0 {
      ParseIntPrintedNegative(n);
    } else {
      ParseIntPrintedNat(n);
    }
  }

  /**
   * `a.localeCompare(b)` taken as code-point order: negative when `a` sorts
   * first, zero for equal strings, positive when `b` sorts first.
   */
  function CompareStrings(a: string, b: string): (r: int)
    ensures -1 <= r <= 1
    ensures r == 0 <==> a == b
  {
    if a == [] then (if b == [] then 0 else -1)
    else if b == [] then 1
    else if a[0] < b[0] then -1
    else if a[0] > b[0] then 1
    else
      var r := CompareStrings(a[1..], b[1..]);
      assert r == 0 ==> a == [a[0]] + a[1..] == [b[0]] + b[1..] == b;
      r
  }

  /** Swapping the arguments flips the sign. */
  lemma {:induction false} CompareStringsAntisymmetric(a: string, b: string)
    ensures CompareStrings(a, b) == -CompareStrings(b, a)
  {
    if a != [] && b != [] && a[0] == b[0] {
      CompareStringsAntisymmetric(a[1..], b[1..]);
    }
  }

  /** The order is transitive. */
  lemma {:induction false} CompareStringsTransitive(a: string, b: string, c: string)
    requires CompareStrings(a, b) <= 0 && CompareStrings(b, c) <= 0
    ensures CompareStrings(a, c) <= 0
  {
    if a != [] && b != [] && c != [] && a[0] == b[0] && b[0] == c[0] {
      CompareStringsTransitive(a[1..], b[1..], c[1..]);
    }
  }

  /** The default page and page sizes the routes fall back to parse to their values. */
  lemma ParseIntOne()
    ensures ParseInt("1") == Some(1)
  {
    var one: string := "1";
    assert |one| == 1 && one[0] == '1';
    assert AllDigits(one);
    assert one[..0] == [];
    assert DigitsValue(one) == 1;
    ParseIntDigits(one);
  }

  lemma ParseIntTwenty()
    ensures ParseInt("20") == Some(20)
  {
    var two: string := "2";
    var twenty: string := "20";
    assert |two| == 1 && two[0] == '2';
    assert two[..0] == [];
    assert DigitsValue(two) == 2;
    assert |twenty| == 2 && twenty[0] == '2' && twenty[1] == '0';
    assert AllDigits(twenty);
    assert twenty[..1] == two;
    assert DigitsValue(twenty) == 20;
    ParseIntDigits(twenty);
  }

  lemma ParseIntTwelve()
    ensures ParseInt("12") == Some(12)
  {
    var one: string := "1";
    var twelve: string := "12";
    assert |one| == 1 && one[0] == '1';
    assert one[..0] == [];
    assert DigitsValue(one) == 1;
    assert |twelve| == 2 && twelve[0] == '1' && twelve[1] == '2';
    assert AllDigits(twelve);
    assert twelve[..1] == one;
    assert DigitsValue(twelve) == 12;
    ParseIntDigits(twelve);
  }

  lemma ParseIntDefaults()
    ensures ParseInt("1") == Some(1) && ParseInt("12") == Some(12) && ParseInt("20") == Some(20)
  {
    ParseIntOne();
    ParseIntTwelve();
    ParseIntTwenty();
  }
}
