/**
 * The little string handling the 3D view relies on: the decimal text that
 * a template literal `${n}` produces for an integer, the decimal part of
 * `parseInt`, and `String.prototype.split` with a non-empty separator.
 */
module Text {
  import opened Wrappers

  predicate IsDigit(c: char) {
    '0' <= c <= '9'
  }

  predicate AllDigits(s: string) {
    forall i :: 0 <= i < |s| ==> IsDigit(s[i])
  }

  /** The characters `parseInt` skips before the number. */
  predicate IsWhitespace(c: char) {
    c == ' ' || c == '\t' || c == '\n' || c == '\r'
    || c == 11 as char || c == 12 as char || c == 0xA0 as char || c == 0xFEFF as char
  }

  function DigitChar(d: nat): (c: char)
    requires d < 10
    ensures IsDigit(c)
  {
    ('0' as int + d) as char
  }

  function DigitValue(c: char): (d: nat)
    requires IsDigit(c)
    ensures d < 10 && DigitChar(d) == c
  {
    c as int - '0' as int
  }

  /** Decimal text of a natural number, most significant digit first, no leading zeros. */
  function NatToString(n: nat): (s: string)
    ensures |s| > 0 && AllDigits(s)
    ensures |s| > 1 ==> s[0] != '0'
  {
    if n < 10 then [DigitChar(n)]
    else NatToString(n / 10) + [DigitChar(n % 10)]
  }

  /** What `${n}` renders for an integer `n`. */
  function IntToString(n: int): (s: string)
    ensures |s| > 0
  {
    if n < 0 then "-" + NatToString(-n) else NatToString(n)
  }

  /** The number a string of decimal digits denotes. */
  function DigitsValue(ds: string): nat
    requires AllDigits(ds)
  {
    if ds == [] then 0
    else DigitsValue(ds[..|ds| - 1]) * 10 + DigitValue(ds[|ds| - 1])
  }

  /** The longest prefix of `s` made of decimal digits. */
  function DigitPrefix(s: string): string {
    if s == [] || !IsDigit(s[0]) then []
    else [s[0]] + DigitPrefix(s[1..])
  }

  /** `DigitPrefix` is a prefix, made of digits, that stops at the first non-digit. */
  lemma {:induction false} DigitPrefixIsLongest(s: string)
    ensures DigitPrefix(s) <= s && AllDigits(DigitPrefix(s))
    ensures |DigitPrefix(s)| < |s| ==> !IsDigit(s[|DigitPrefix(s)|])
  {
    if s != [] && IsDigit(s[0]) {
      DigitPrefixIsLongest(s[1..]);
    }
  }

  /** `s` without its leading white space. */
  function TrimStart(s: string): string {
    if s != [] && IsWhitespace(s[0]) then TrimStart(s[1..]) else s
  }

  /** `TrimStart` leaves a suffix that does not start with white space. */
  lemma {:induction false} TrimStartIsSuffix(s: string)
    ensures |TrimStart(s)| <= |s| && TrimStart(s) == s[|s| - |TrimStart(s)|..]
    ensures TrimStart(s) != [] ==> !IsWhitespace(TrimStart(s)[0])
  {
    if s != [] && IsWhitespace(s[0]) {
      TrimStartIsSuffix(s[1..]);
    }
  }

  /**
   * `parseInt(s)` with radix 10: skip leading white space, read one
   * optional sign, then the longest run of digits; `None` stands for NaN,
   * the result when no digit follows.
   */
  function ParseInt(s: string): Option<int> {
    var t := TrimStart(s);
    var negative := |t| > 0 && t[0] == '-';
    var unsigned := if |t| > 0 && (t[0] == '-' || t[0] == '+') then t[1..] else t;
    var ds := DigitPrefix(unsigned);
    var magnitude: int := if ds == [] then 0 else (DigitPrefixIsLongest(unsigned); DigitsValue(ds));
    if ds == [] then None
    else Some(if negative then -magnitude else magnitude)
  }

  /** `s.split(sep)` for a non-empty separator, scanning left to right. */
  function Split(s: string, sep: string): (parts: seq<string>)
    requires |sep| > 0
    ensures |parts| > 0
  {
    SplitFrom(s, sep, "")
  }

  /** Split the rest `s` when `cur` has been read since the last separator. */
  function SplitFrom(s: string, sep: string, cur: string): (parts: seq<string>)
    requires |sep| > 0
    ensures |parts| > 0
    decreases |s|
  {
    if s == [] then [cur]
    else if sep <= s then [cur] + SplitFrom(s[|sep|..], sep, "")
    else SplitFrom(s[1..], sep, cur + [s[0]])
  }

  /** Reading a natural number's decimal text gives the number back. */
  lemma {:induction false} DigitsValueOfNatToString(n: nat)
    ensures DigitsValue(NatToString(n)) == n
  {
    if n >= 10 {
      var s := NatToString(n);
      var front := NatToString(n / 10);
      assert s[..|s| - 1] == front;
      DigitsValueOfNatToString(n / 10);
    }
  }

  /** A string of digits is its own longest digit prefix. */
  lemma {:induction false} DigitPrefixOfDigits(s: string)
    requires AllDigits(s)
    ensures DigitPrefix(s) == s
  {
    if s != [] {
      DigitPrefixOfDigits(s[1..]);
    }
  }

  /** `parseInt` inverts the decimal rendering of every integer. */
  lemma ParseIntOfIntToString(n: int)
    ensures ParseInt(IntToString(n)) == Some(n)
  {
    if n < 0 {
      DigitsValueOfNatToString(-n);
      ParseNegativeDigits(NatToString(-n));
    } else {
      DigitsValueOfNatToString(n);
      ParseDigits(NatToString(n));
    }
  }

  /** `parseInt` of a non-empty digit string is the number it denotes. */
  lemma ParseDigits(ds: string)
    requires ds != [] && AllDigits(ds)
    ensures ParseInt(ds) == Some(DigitsValue(ds))
  {
    assert IsDigit(ds[0]);
    assert TrimStart(ds) == ds;
    DigitPrefixOfDigits(ds);
  }

  /** `parseInt` of a minus sign and a non-empty digit string is the negated number. */
  lemma ParseNegativeDigits(ds: string)
    requires ds != [] && AllDigits(ds)
    ensures ParseInt("-" + ds) == Some(-(DigitsValue(ds) as int))
  {
    var s := "-" + ds;
    assert s[0] == '-' && s[1..] == ds;
    assert TrimStart(s) == s;
    DigitPrefixOfDigits(ds);
  }

  /** A stretch without the separator's first character is copied into the current part. */
  lemma {:induction false} SplitFromSkips(w: string, rest: string, sep: string, cur: string)
    requires |sep| > 0
    requires forall i :: 0 <= i < |w| ==> w[i] != sep[0]
    ensures SplitFrom(w + rest, sep, cur) == SplitFrom(rest, sep, cur + w)
  {
    if w != [] {
      var s := w + rest;
      assert s[0] == w[0] != sep[0];
      assert s[1..] == w[1..] + rest;
      SplitFromSkips(w[1..], rest, sep, cur + [w[0]]);
      assert cur + [w[0]] + w[1..] == cur + w;
    } else {
      assert w + rest == rest;
      assert cur + w == cur;
    }
  }

  /** Reaching the separator closes the current part. */
  lemma SplitFromAtSeparator(sep: string, rest: string, cur: string)
    requires |sep| > 0
    ensures SplitFrom(sep + rest, sep, cur) == [cur] + SplitFrom(rest, sep, "")
  {
    var s := sep + rest;
    assert sep <= s && s[|sep|..] == rest;
  }

  /** Two separator-free pieces joined by the separator split back into those two pieces. */
  lemma SplitTwo(a: string, b: string, sep: string)
    requires |sep| > 0
    requires forall i :: 0 <= i < |a| ==> a[i] != sep[0]
    requires forall i :: 0 <= i < |b| ==> b[i] != sep[0]
    ensures Split(a + sep + b, sep) == [a, b]
  {
    assert a + sep + b == a + (sep + b);
    SplitFromSkips(a, sep + b, sep, "");
    assert "" + a == a;
    SplitFromAtSeparator(sep, b, a);
    assert b + [] == b;
    SplitFromSkips(b, [], sep, "");
    assert "" + b == b;
  }
}
