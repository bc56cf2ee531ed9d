/**
 * Java string conversions the core relies on: the decimal rendering that
 * `"prefix" + id` performs on a `Long`, and hutool's notion of a blank string.
 */
module Strings {

  predicate IsDigit(c: char) {
    '0' <= c <= '9'
  }

  function DigitChar(d: nat): (c: char)
    requires d < 10
    ensures IsDigit(c) && c as int - '0' as int == d
  {
    ('0' as int + d) as char
  }

  /** Decimal digits of `n`, most significant first, no leading zeros. */
  function Digits(n: nat): (s: string)
    ensures 1 <= |s|
    ensures n >= 10 ==> 2 <= |s|
    ensures forall i :: 0 <= i < |s| ==> IsDigit(s[i])
    decreases n
  {
    if n < 10 then [DigitChar(n)] else Digits(n / 10) + [DigitChar(n % 10)]
  }

  /** `Long.toString(i)`, which is what `"key:" + id` appends for a boxed Long. */
  function LongText(i: int): (s: string)
    ensures 1 <= |s|
    ensures forall k :: 0 <= k < |s| ==> s[k] == '-' || IsDigit(s[k])
  {
    if i < 0 then "-" + Digits(-i) else Digits(i)
  }

  /** Distinct numbers have distinct decimal renderings. */
  lemma {:induction false} DigitsInjective(a: nat, b: nat)
    requires Digits(a) == Digits(b)
    ensures a == b
    decreases a
  {
    if a >= 10 && b >= 10 {
      var da, db := Digits(a), Digits(b);
      assert da[..|da| - 1] == Digits(a / 10);
      assert db[..|db| - 1] == Digits(b / 10);
      DigitsInjective(a / 10, b / 10);
      assert DigitChar(a % 10) == da[|da| - 1] == db[|db| - 1] == DigitChar(b % 10);
    } else if a < 10 && b < 10 {
      assert DigitChar(a) == Digits(a)[0] == Digits(b)[0] == DigitChar(b);
    }
  }

  /** Distinct Longs have distinct renderings, so keys built from them differ. */
  lemma LongTextInjective(a: int, b: int)
    requires LongText(a) == LongText(b)
    ensures a == b
  {
    var sa, sb := LongText(a), LongText(b);
    if a < 0 && b < 0 {
      assert sa[1..] == Digits(-a) && sb[1..] == Digits(-b);
      DigitsInjective(-a, -b);
    } else if a >= 0 && b >= 0 {
      DigitsInjective(a, b);
    } else if a < 0 {
      SignShows(a, b);
    } else {
      SignShows(b, a);
    }
  }

  /** A negative number's rendering starts with '-', a non-negative one's with a digit. */
  lemma SignShows(neg: int, nonneg: int)
    requires neg < 0 <= nonneg
    ensures LongText(neg) != LongText(nonneg)
  {
    assert LongText(neg)[0] == '-';
    assert IsDigit(LongText(nonneg)[0]);
  }

  /** Cancelling a common prefix: `p + x == p + y` forces `x == y`. */
  lemma PrefixCancel(p: string, x: string, y: string)
    requires p + x == p + y
    ensures x == y
  {
    assert x == (p + x)[|p|..];
    assert y == (p + y)[|p|..];
  }

  /** Two keys with one suffix and different prefixes differ. */
  lemma PrefixesDiffer(p: string, q: string, suffix: string)
    requires p != q
    ensures p + suffix != q + suffix
  {
    if |p| == |q| {
      assert (p + suffix)[..|p|] == p;
      assert (q + suffix)[..|q|] == q;
    }
  }

  /** Two keys built from one prefix and two ids coincide only for one id. */
  lemma KeyInjective(prefix: string, a: int, b: int)
    requires prefix + LongText(a) == prefix + LongText(b)
    ensures a == b
  {
    PrefixCancel(prefix, LongText(a), LongText(b));
    LongTextInjective(a, b);
  }

  /**
   * hutool `CharUtil.isBlankChar`: Java whitespace, Unicode space separators,
   * the byte-order mark, LEFT-TO-RIGHT EMBEDDING and NUL.
   */
  predicate IsBlankChar(c: char) {
    || ('\U{0009}' <= c <= '\U{000D}') || ('\U{001C}' <= c <= '\U{001F}') || c == ' '
    || c == '\U{00A0}' || c == '\U{1680}' || ('\U{2000}' <= c <= '\U{200A}')
    || c == '\U{2028}' || c == '\U{2029}' || c == '\U{202F}' || c == '\U{205F}' || c == '\U{3000}'
    || c == '\U{FEFF}' || c == '\U{202A}' || c == '\U{0000}'
  }

  /** hutool `StrUtil.isBlank` for a non-null string: empty or only blank characters. */
  predicate IsBlank(s: string) {
    forall i :: 0 <= i < |s| ==> IsBlankChar(s[i])
  }
}
