/**
 * The few JavaScript string and number primitives the application relies on:
 * `String.prototype.trim`, the truthiness of strings in `a || b`, the global
 * `parseInt` (called without a radix) and `Number.prototype.toString` on
 * integral values.
 */
module JsText {
  import opened Wrappers

  /** ECMAScript WhiteSpace and LineTerminator code points (what `trim` and `parseInt` skip). */
  predicate IsWhiteSpace(c: char)
  {
    || c == '\t' || c == '\n' || c == '\U{000B}' || c == '\U{000C}' || c == '\r' || c == ' '
    || c == '\U{00A0}' || c == '\U{1680}' || ('\U{2000}' <= c <= '\U{200A}')
    || c == '\U{2028}' || c == '\U{2029}' || c == '\U{202F}' || c == '\U{205F}'
    || c == '\U{3000}' || c == '\U{FEFF}'
  }

  /** JavaScript `a || b` on two strings: the empty string is the only falsy string. */
  function OrElse(a: string, b: string): (r: string)
    ensures a != "" ==> r == a
    ensures a == "" ==> r == b
  {
    if a != "" then a else b
  }

  // ---------------------------------------------------------------------------
  // trim

  /** `s` without the white space at its start. */
  function TrimStart(s: string): string
  {
    if s != [] && IsWhiteSpace(s[0]) then TrimStart(s[1..]) else s
  }

  /** `s` without the white space at its end. */
  function TrimEnd(s: string): string
  {
    if s != [] && IsWhiteSpace(s[|s| - 1]) then TrimEnd(s[..|s| - 1]) else s
  }

  /** `s.trim()`: `s` without its leading and trailing white space. */
  function Trim(s: string): string
  {
    TrimEnd(TrimStart(s))
  }

  /** Trimming the start drops a white-space prefix and leaves no white space in front. */
  lemma {:induction false} TrimStartDropsPrefix(s: string)
    ensures exists i :: 0 <= i <= |s| && TrimStart(s) == s[i..] && forall k :: 0 <= k < i ==> IsWhiteSpace(s[k])
    ensures TrimStart(s) == [] || !IsWhiteSpace(TrimStart(s)[0])
  {
    if s != [] && IsWhiteSpace(s[0]) {
      TrimStartDropsPrefix(s[1..]);
      var i :| 0 <= i <= |s[1..]| && TrimStart(s[1..]) == s[1..][i..] && forall k :: 0 <= k < i ==> IsWhiteSpace(s[1..][k]);
      assert s[1..][i..] == s[i + 1..];
      assert forall k :: 0 <= k < i + 1 ==> IsWhiteSpace(s[k]) by {
        forall k | 0 <= k < i + 1 ensures IsWhiteSpace(s[k]) {
          if k > 0 { assert s[k] == s[1..][k - 1]; }
        }
      }
    } else {
      assert s[0..] == s;
    }
  }

  /** Trimming the end drops a white-space suffix and leaves no white space behind. */
  lemma {:induction false} TrimEndDropsSuffix(s: string)
    ensures exists j :: 0 <= j <= |s| && TrimEnd(s) == s[..j] && forall k :: j <= k < |s| ==> IsWhiteSpace(s[k])
    ensures TrimEnd(s) == [] || !IsWhiteSpace(TrimEnd(s)[|TrimEnd(s)| - 1])
  {
    if s != [] && IsWhiteSpace(s[|s| - 1]) {
      var t := s[..|s| - 1];
      TrimEndDropsSuffix(t);
      var j :| 0 <= j <= |t| && TrimEnd(t) == t[..j] && forall k :: j <= k < |t| ==> IsWhiteSpace(t[k]);
      assert t[..j] == s[..j];
      assert forall k :: j <= k < |s| ==> IsWhiteSpace(s[k]) by {
        forall k | j <= k < |s| ensures IsWhiteSpace(s[k]) {
          if k < |t| { assert s[k] == t[k]; }
        }
      }
    } else {
      assert s[..|s|] == s;
    }
  }

  /** Trimming an end that is not white space leaves that end in place. */
  lemma {:induction false} TrimEndKeepsStart(s: string)
    requires s == [] || !IsWhiteSpace(s[0])
    ensures TrimEnd(s) == [] || TrimEnd(s)[0] == s[0]
  {
    if s != [] && IsWhiteSpace(s[|s| - 1]) {
      TrimEndKeepsStart(s[..|s| - 1]);
    }
  }

  /** A trimmed string neither starts nor ends with white space. */
  lemma TrimHasNoOuterSpace(s: string)
    ensures Trim(s) == "" || (!IsWhiteSpace(Trim(s)[0]) && !IsWhiteSpace(Trim(s)[|Trim(s)| - 1]))
  {
    TrimStartDropsPrefix(s);
    TrimEndKeepsStart(TrimStart(s));
    TrimEndDropsSuffix(TrimStart(s));
  }

  lemma {:induction false} TrimStartOfTrimmed(s: string)
    requires s == "" || !IsWhiteSpace(s[0])
    ensures TrimStart(s) == s
  {
  }

  lemma {:induction false} TrimEndOfTrimmed(s: string)
    requires s == "" || !IsWhiteSpace(s[|s| - 1])
    ensures TrimEnd(s) == s
  {
  }

  /** Trimming a string that neither starts nor ends with white space leaves it alone. */
  lemma TrimKeepsTrimmed(s: string)
    requires s == "" || (!IsWhiteSpace(s[0]) && !IsWhiteSpace(s[|s| - 1]))
    ensures Trim(s) == s
  {
    TrimStartOfTrimmed(s);
    TrimEndOfTrimmed(s);
  }

  /** `trim` is idempotent. */
  lemma TrimIdempotent(s: string)
    ensures Trim(Trim(s)) == Trim(s)
  {
    TrimHasNoOuterSpace(s);
    TrimKeepsTrimmed(Trim(s));
  }

  /** Trimming drops only white space: every character it removes is white space. */
  lemma TrimRemovesOnlyWhiteSpace(s: string)
    ensures exists i, j :: 0 <= i <= j <= |s| && Trim(s) == s[i..j]
                        && (forall k :: 0 <= k < i ==> IsWhiteSpace(s[k]))
                        && (forall k :: j <= k < |s| ==> IsWhiteSpace(s[k]))
  {
    TrimStartDropsPrefix(s);
    var i :| 0 <= i <= |s| && TrimStart(s) == s[i..] && forall k :: 0 <= k < i ==> IsWhiteSpace(s[k]);
    var t := s[i..];
    TrimEndDropsSuffix(t);
    var n :| 0 <= n <= |t| && TrimEnd(t) == t[..n] && forall k :: n <= k < |t| ==> IsWhiteSpace(t[k]);
    SliceOfSuffix(s, i, n);
    SpaceAfterSlice(s, i, n);
  }

  lemma SliceOfSuffix<T>(s: seq<T>, i: nat, n: nat)
    requires i + n <= |s|
    ensures s[i..][..n] == s[i..i + n]
  {
  }

  lemma SpaceAfterSlice(s: string, i: nat, n: nat)
    requires i + n <= |s|
    requires forall k :: n <= k < |s[i..]| ==> IsWhiteSpace(s[i..][k])
    ensures forall k :: i + n <= k < |s| ==> IsWhiteSpace(s[k])
  {
    forall k | i + n <= k < |s| ensures IsWhiteSpace(s[k]) {
      assert s[k] == s[i..][k - i];
    }
  }

  // ---------------------------------------------------------------------------
  // Number.prototype.toString on integers

  function DigitChar(d: nat): (c: char)
    requires d < 10
    ensures '0' <= c <= '9'
  {
    ['0', '1', '2', '3', '4', '5', '6', '7', '8', '9'][d]
  }

  predicate IsDecimalDigit(c: char) { '0' <= c <= '9' }

  /** Decimal digits of `n`, most significant first, without leading zeros. */
  function NatToString(n: nat): (s: string)
    ensures |s| > 0
    ensures forall k :: 0 <= k < |s| ==> IsDecimalDigit(s[k])
  {
    if n < 10 then [DigitChar(n)] else NatToString(n / 10) + [DigitChar(n % 10)]
  }

  /** `(i).toString()` for an integral number `i`. */
  function IntToString(i: int): (s: string)
    ensures |s| > 0
  {
    if i < 0 then "-" + NatToString(-i) else NatToString(i)
  }

  // ---------------------------------------------------------------------------
  // parseInt(s) without a radix

  /** Value of `c` as a digit in base `radix` (10 or 16), if it is one. */
  function DigitValue(c: char, radix: nat): (d: Option<nat>)
    requires radix == 10 || radix == 16
    ensures d.Some? ==> d.value < radix
  {
    if '0' <= c <= '9' then Some(c as nat - '0' as nat)
    else if radix == 16 && 'a' <= c <= 'f' then Some(c as nat - 'a' as nat + 10)
    else if radix == 16 && 'A' <= c <= 'F' then Some(c as nat - 'A' as nat + 10)
    else None
  }

  /** Length of the longest prefix of `s` made of base-`radix` digits. */
  function DigitPrefix(s: string, radix: nat): (n: nat)
    requires radix == 10 || radix == 16
    ensures n <= |s|
    ensures forall k :: 0 <= k < n ==> DigitValue(s[k], radix).Some?
    ensures n < |s| ==> DigitValue(s[n], radix).None?
  {
    if s == [] || DigitValue(s[0], radix).None? then 0 else 1 + DigitPrefix(s[1..], radix)
  }

  /** Numeric value of a string of base-`radix` digits. */
  function DigitsValue(s: string, radix: nat): nat
    requires radix == 10 || radix == 16
    requires forall k :: 0 <= k < |s| ==> DigitValue(s[k], radix).Some?
  {
    if s == [] then 0
    else DigitsValue(s[..|s| - 1], radix) * radix + DigitValue(s[|s| - 1], radix).value
  }

  /** Parses the unsigned body of `parseInt`'s input: an optional `0x`/`0X` prefix, then digits. */
  function ParseMagnitude(s: string): Option<nat>
  {
    if HasHexPrefix(s) then ParseDigits(s[2..], 16) else ParseDigits(s, 10)
  }

  predicate HasHexPrefix(s: string)
  {
    |s| >= 2 && s[0] == '0' && (s[1] == 'x' || s[1] == 'X')
  }

  /** Value of the longest run of base-`radix` digits at the start of `s`; `None` when there is none. */
  function ParseDigits(s: string, radix: nat): Option<nat>
    requires radix == 10 || radix == 16
  {
    var n := DigitPrefix(s, radix);
    if n == 0 then None else Some(DigitsValue(s[..n], radix))
  }

  /**
   * `parseInt(s)`: skips leading white space, reads an optional sign and an
   * optional hexadecimal prefix, then the longest run of digits. `None` is NaN,
   * the result when there is no digit at all. (`-0` is the integer 0 here.)
   */
  function ParseInt(s: string): (r: Option<int>)
    ensures s == "" ==> r.None?
  {
    var t := TrimStart(s);
    var negative := |t| > 0 && t[0] == '-';
    var body := if |t| > 0 && (t[0] == '-' || t[0] == '+') then t[1..] else t;
    match ParseMagnitude(body)
    case None => None
    case Some(m) => Some(if negative then -(m as int) else m as int)
  }

  /** The digits `NatToString` writes are read back to the same value. */
  lemma {:induction false} DigitsValueOfNatToString(n: nat)
    ensures forall k :: 0 <= k < |NatToString(n)| ==> DigitValue(NatToString(n)[k], 10).Some?
    ensures DigitsValue(NatToString(n), 10) == n
  {
    var s := NatToString(n);
    if n >= 10 {
      DigitsValueOfNatToString(n / 10);
      assert s[..|s| - 1] == NatToString(n / 10);
    }
  }

  /** On a string made only of digits the digit scan reads the whole string. */
  lemma {:induction false} DigitPrefixOfDigits(s: string, radix: nat)
    requires radix == 10 || radix == 16
    requires forall k :: 0 <= k < |s| ==> DigitValue(s[k], radix).Some?
    ensures DigitPrefix(s, radix) == |s|
  {
    if s != [] {
      DigitPrefixOfDigits(s[1..], radix);
    }
  }

  /** A non-empty run of digits is read whole by the digit scan. */
  lemma ParseDigitsOfDigits(s: string, radix: nat)
    requires radix == 10 || radix == 16
    requires |s| > 0 && forall k :: 0 <= k < |s| ==> DigitValue(s[k], radix).Some?
    ensures ParseDigits(s, radix) == Some(DigitsValue(s, radix))
  {
    DigitPrefixOfDigits(s, radix);
    assert s[..|s|] == s;
  }

  /** A string of decimal digits has no `0x` prefix. */
  lemma NoHexPrefixInDecimal(s: string)
    requires forall k :: 0 <= k < |s| ==> IsDecimalDigit(s[k])
    ensures !HasHexPrefix(s)
  {
    if |s| >= 2 {
      assert IsDecimalDigit(s[1]);
    }
  }

  /** An unsigned decimal written by `toString` is read back by the digit scan. */
  lemma ParseMagnitudeOfNatToString(n: nat)
    ensures ParseMagnitude(NatToString(n)) == Some(n)
  {
    var digits := NatToString(n);
    DigitsValueOfNatToString(n);
    NoHexPrefixInDecimal(digits);
    ParseDigitsOfDigits(digits, 10);
  }

  /** `parseInt` reads the decimal written by `toString`: `parseInt(String(i)) === i`. */
  lemma ParseIntOfIntToString(i: int)
    ensures ParseInt(IntToString(i)) == Some(i)
  {
    var s := IntToString(i);
    var m: nat := if i < 0 then -i else i;
    ParseMagnitudeOfNatToString(m);
    assert IsDecimalDigit(NatToString(m)[0]);
    assert s[0] == '-' || IsDecimalDigit(s[0]);
    assert TrimStart(s) == s;
    if i < 0 {
      assert s[1..] == NatToString(m);
    }
  }

  /** Distinct integers have distinct decimal strings. */
  lemma IntToStringInjective(a: int, b: int)
    requires IntToString(a) == IntToString(b)
    ensures a == b
  {
    ParseIntOfIntToString(a);
    ParseIntOfIntToString(b);
  }
}
