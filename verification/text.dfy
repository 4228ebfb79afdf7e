/**
 Character classes and string operations the appointment form relies on:
 JavaScript's whitespace set (shared by `String.prototype.trim` and the
 regular-expression class `\s`), ASCII digits, `trim()`, the
 `replace(/[-\s]/g, '')` separator strip, `String(n)` for a natural number,
 `padStart` and `split(sep)[0]`.
 */
module Text {

  /** JavaScript WhiteSpace and LineTerminator code points (ECMA-262 sections 12.2 and 12.3);
      both `trim()` and `\s` use exactly this set. */
  function IsWhitespace(c: char): (b: bool)
    // in the ASCII range, exactly space, tab, line feed, vertical tab, form feed and carriage return
    ensures c < '\U{80}' ==> (b <==> c == ' ' || c == '\t' || c == '\n' || c == '\U{B}' || c == '\U{C}' || c == '\r')
    // never a digit or a hyphen, so the separator strip and the digit test do not overlap
    ensures b ==> !IsDigit(c) && c != '-'
  {
    || '\U{9}' <= c <= '\U{D}'          // tab, line feed, vertical tab, form feed, carriage return
    || c == ' ' || c == '\U{A0}' || c == '\U{1680}'
    || '\U{2000}' <= c <= '\U{200A}'    // en quad .. hair space
    || c == '\U{2028}' || c == '\U{2029}' // line and paragraph separators
    || c == '\U{202F}' || c == '\U{205F}' || c == '\U{3000}' || c == '\U{FEFF}'
  }

  /** The regular-expression class `[0-9]`: ASCII digits only. */
  predicate IsDigit(c: char) {
    '0' <= c <= '9'
  }

  /** The regular-expression class `[-\s]`. */
  predicate IsSeparator(c: char) {
    c == '-' || IsWhitespace(c)
  }

  predicate AllWhitespace(s: string) {
    forall i :: 0 <= i < |s| ==> IsWhitespace(s[i])
  }

  predicate AllDigits(s: string) {
    forall i :: 0 <= i < |s| ==> IsDigit(s[i])
  }

  /** Every character is a digit or a separator. */
  predicate DigitsAndSeparators(s: string) {
    forall i :: 0 <= i < |s| ==> IsDigit(s[i]) || IsSeparator(s[i])
  }

  /** Number of ASCII digits in `s`, wherever they sit. */
  function DigitCount(s: string): nat {
    if s == [] then 0
    else DigitCount(s[..|s| - 1]) + (if IsDigit(s[|s| - 1]) then 1 else 0)
  }

  // ---------------------------------------------------------------------------
  // trim()

  function TrimStart(s: string): (t: string)
    ensures |t| <= |s| && t == s[|s| - |t|..]
    ensures t == [] || !IsWhitespace(t[0])
    ensures forall i :: 0 <= i < |s| - |t| ==> IsWhitespace(s[i])
  {
    if s == [] || !IsWhitespace(s[0]) then s
    else
      var t := TrimStart(s[1..]);
      assert forall i :: 1 <= i < |s| - |t| ==> s[i] == s[1..][i - 1];
      t
  }

  function TrimEnd(s: string): (t: string)
    ensures |t| <= |s| && t == s[..|t|]
    ensures t == [] || !IsWhitespace(t[|t| - 1])
    ensures forall i :: |t| <= i < |s| ==> IsWhitespace(s[i])
  {
    if s == [] || !IsWhitespace(s[|s| - 1]) then s
    else TrimEnd(s[..|s| - 1])
  }

  /** `s.trim()`: `s` without its leading and trailing whitespace. */
  function Trim(s: string): (t: string)
    ensures |t| <= |s|
    ensures t == [] || (!IsWhitespace(t[0]) && !IsWhitespace(t[|t| - 1]))
  {
    TrimEnd(TrimStart(s))
  }

  /** The trimmed string is the infix of `s` that starts after the leading whitespace run. */
  lemma {:induction false} TrimIsInfix(s: string)
    ensures var k := |s| - |TrimStart(s)|;
      && k + |Trim(s)| <= |s|
      && forall i :: 0 <= i < |Trim(s)| ==> Trim(s)[i] == s[k + i]
  {
    var u := TrimStart(s);
    var k := |s| - |u|;
    var r := TrimEnd(u);
    forall i | 0 <= i < |r| ensures r[i] == s[k + i] {
      assert r[i] == u[i];
    }
  }

  /** What `trim()` removes on either side of that infix is whitespace only. */
  lemma {:induction false} TrimDropsOnlyWhitespace(s: string)
    ensures var k := |s| - |TrimStart(s)|;
      && k + |Trim(s)| <= |s|
      && (forall i :: 0 <= i < k ==> IsWhitespace(s[i]))
      && (forall i :: k + |Trim(s)| <= i < |s| ==> IsWhitespace(s[i]))
  {
    var u := TrimStart(s);
    var k := |s| - |u|;
    var r := TrimEnd(u);
    forall i | k + |r| <= i < |s| ensures IsWhitespace(s[i]) {
      assert s[i] == u[i - k];
    }
  }

  /** A string trims to the empty string exactly when every character of it is whitespace:
      this is what makes `!value.trim()` a blank-field test. */
  lemma TrimEmptyIffAllWhitespace(s: string)
    ensures Trim(s) == [] <==> AllWhitespace(s)
  {
    if Trim(s) == [] {
      assert s[..|s|] == s;
    }
  }

  // ---------------------------------------------------------------------------
  // replace(/[-\s]/g, '')

  /** `s.replace(/[-\s]/g, '')`: `s` with every hyphen and whitespace character deleted. */
  function StripSeparators(s: string): (t: string)
    ensures |t| <= |s|
    ensures forall i :: 0 <= i < |t| ==> !IsSeparator(t[i])
  {
    if s == [] then []
    else if IsSeparator(s[|s| - 1]) then StripSeparators(s[..|s| - 1])
    else StripSeparators(s[..|s| - 1]) + [s[|s| - 1]]
  }

  /** Stripping distributes over concatenation. */
  lemma {:induction false} StripAppend(a: string, b: string)
    ensures StripSeparators(a + b) == StripSeparators(a) + StripSeparators(b)
    decreases |b|
  {
    if b == [] {
      assert a + b == a;
    } else {
      var b' := b[..|b| - 1];
      assert (a + b)[..|a + b| - 1] == a + b';
      StripAppend(a, b');
    }
  }

  /** Inserting one separator anywhere does not change the stripped string. */
  lemma StripIgnoresInsertedSeparator(a: string, c: char, b: string)
    requires IsSeparator(c)
    ensures StripSeparators(a + [c] + b) == StripSeparators(a + b)
  {
    StripAppend(a + [c], b);
    StripAppend(a, [c]);
    StripAppend(a, b);
    assert [c][..0] == [];
  }

  /** A string without separators is left as it is. */
  lemma {:induction false} StripKeepsSeparatorFree(s: string)
    requires forall i :: 0 <= i < |s| ==> !IsSeparator(s[i])
    ensures StripSeparators(s) == s
  {
    if s != [] {
      StripKeepsSeparatorFree(s[..|s| - 1]);
      assert s[..|s| - 1] + [s[|s| - 1]] == s;
    }
  }

  /** In particular a string of digits is left as it is. */
  lemma StripKeepsPlainDigits(s: string)
    requires AllDigits(s)
    ensures StripSeparators(s) == s
  {
    StripKeepsSeparatorFree(s);
  }

  /** The stripped string is all digits exactly when the original holds nothing but digits
      and separators, and then its length is the number of digits in the original. */
  lemma {:induction false} StripDigitsCharacterization(s: string)
    ensures AllDigits(StripSeparators(s)) <==> DigitsAndSeparators(s)
    ensures DigitsAndSeparators(s) ==> |StripSeparators(s)| == DigitCount(s)
  {
    if s != [] {
      var p := s[..|s| - 1];
      var c := s[|s| - 1];
      StripDigitsCharacterization(p);
      assert DigitsAndSeparators(s) <==> DigitsAndSeparators(p) && (IsDigit(c) || IsSeparator(c)) by {
        if DigitsAndSeparators(p) && (IsDigit(c) || IsSeparator(c)) {
          forall i | 0 <= i < |s| ensures IsDigit(s[i]) || IsSeparator(s[i]) {
            if i < |p| { assert s[i] == p[i]; }
          }
        }
        if DigitsAndSeparators(s) {
          forall i | 0 <= i < |p| ensures IsDigit(p[i]) || IsSeparator(p[i]) {
            assert s[i] == p[i];
          }
        }
      }
      if !IsSeparator(c) {
        var t := StripSeparators(p) + [c];
        assert StripSeparators(s) == t;
        assert AllDigits(t) <==> AllDigits(StripSeparators(p)) && IsDigit(c) by {
          if AllDigits(StripSeparators(p)) && IsDigit(c) {
            forall i | 0 <= i < |t| ensures IsDigit(t[i]) {
              if i < |t| - 1 { assert t[i] == StripSeparators(p)[i]; }
            }
          }
          if AllDigits(t) {
            assert IsDigit(t[|t| - 1]);
            forall i | 0 <= i < |StripSeparators(p)| ensures IsDigit(StripSeparators(p)[i]) {
              assert t[i] == StripSeparators(p)[i];
            }
          }
        }
      }
    }
  }

  // ---------------------------------------------------------------------------
  // String(n), padStart and their inverse

  function DigitChar(d: nat): (c: char)
    requires d < 10
    ensures IsDigit(c)
    ensures c == '0' <==> d == 0
  {
    ['0', '1', '2', '3', '4', '5', '6', '7', '8', '9'][d]
  }

  function DigitValue(c: char): nat
    requires IsDigit(c)
  {
    (c as int) - ('0' as int)
  }

  /** `String(n)` for a natural number: its shortest decimal spelling. */
  function DecimalString(n: nat): (s: string)
    ensures 1 <= |s| && AllDigits(s)
    ensures n < 10 <==> |s| == 1
    ensures 10 <= n < 100 ==> |s| == 2
    ensures s[0] == '0' ==> n == 0
  {
    if n < 10 then [DigitChar(n)]
    else DecimalString(n / 10) + [DigitChar(n % 10)]
  }

  /** The value of a string of decimal digits (leading zeros allowed). */
  function ParseDecimal(s: string): nat
    requires AllDigits(s)
  {
    if s == [] then 0
    else ParseDecimal(s[..|s| - 1]) * 10 + DigitValue(s[|s| - 1])
  }

  lemma DigitRoundTrip(d: nat)
    requires d < 10
    ensures DigitValue(DigitChar(d)) == d
  {
  }

  /** Reading back the decimal spelling of `n` gives `n`. */
  lemma {:induction false} DecimalRoundTrip(n: nat)
    ensures ParseDecimal(DecimalString(n)) == n
  {
    var s := DecimalString(n);
    if n < 10 {
      DigitRoundTrip(n);
      assert s[..0] == [];
    } else {
      DecimalRoundTrip(n / 10);
      DigitRoundTrip(n % 10);
      assert s[..|s| - 1] == DecimalString(n / 10);
    }
  }

  /** A leading zero does not change the value of a digit string. */
  lemma {:induction false} LeadingZero(s: string)
    requires AllDigits(s)
    ensures AllDigits(['0'] + s) && ParseDecimal(['0'] + s) == ParseDecimal(s)
    decreases |s|
  {
    var z := ['0'] + s;
    assert AllDigits(z) by {
      forall i | 0 <= i < |z| ensures IsDigit(z[i]) {
        if 0 < i { assert z[i] == s[i - 1]; }
      }
    }
    if s == [] {
      assert z[..0] == [];
    } else {
      assert z[..|z| - 1] == ['0'] + s[..|s| - 1];
      LeadingZero(s[..|s| - 1]);
    }
  }

  function Repeat(c: char, n: nat): (r: string)
    ensures |r| == n && forall i :: 0 <= i < n ==> r[i] == c
  {
    if n == 0 then [] else [c] + Repeat(c, n - 1)
  }

  /** `s.padStart(width, fill)` for a one-character `fill`. */
  function PadStart(s: string, width: nat, fill: char): (r: string)
    ensures |s| >= width ==> r == s
    ensures |s| < width ==> |r| == width
    ensures r[|r| - |s|..] == s
    ensures forall i :: 0 <= i < |r| - |s| ==> r[i] == fill
  {
    if |s| >= width then s else Repeat(fill, width - |s|) + s
  }

  /** `String(n).padStart(2, '0')`: exactly two digits that read back as `n`. */
  function TwoDigits(n: nat): (r: string)
    requires n < 100
    ensures |r| == 2 && AllDigits(r)
    ensures ParseDecimal(r) == n
  {
    var d := DecimalString(n);
    DecimalRoundTrip(n);
    if n < 10 then
      assert PadStart(d, 2, '0') == ['0'] + d;
      LeadingZero(d);
      PadStart(d, 2, '0')
    else
      PadStart(d, 2, '0')
  }

  // ---------------------------------------------------------------------------
  // split(sep)[0]

  /** `s.split(sep)[0]`: the part of `s` before the first `sep`, or all of `s`. */
  function BeforeFirst(s: string, sep: char): (r: string)
    ensures |r| <= |s| && r == s[..|r|]
    ensures sep !in r
    ensures |r| < |s| ==> s[|r|] == sep
  {
    if s == [] || s[0] == sep then []
    else [s[0]] + BeforeFirst(s[1..], sep)
  }

}
