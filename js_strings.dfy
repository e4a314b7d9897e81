/**
 * String operations of JavaScript used by the handlers: `trim`,
 * `startsWith`, `includes`, `split(sep)[1]`, `parseInt(s, 10)` and `String(n)`.
 * Strings are sequences of characters; JavaScript's UTF-16 code units are not modelled.
 */
module JsStrings {
  import opened JsValues

  /** WhiteSpace and LineTerminator characters of ECMAScript, which `trim` and `parseInt` skip. */
  predicate IsWhitespace(c: char) {
    c == '\t' || c == '\n' || c == '\U{B}' || c == '\U{C}' || c == '\r' || c == ' '
    || c == '\U{A0}' || c == '\U{1680}' || ('\U{2000}' <= c <= '\U{200A}')
    || c == '\U{2028}' || c == '\U{2029}' || c == '\U{202F}' || c == '\U{205F}'
    || c == '\U{3000}' || c == '\U{FEFF}'
  }

  predicate AllWhitespace(s: string) {
    forall k :: 0 <= k < |s| ==> IsWhitespace(s[k])
  }

  /** `s.trimStart()`: the suffix of `s` after its leading whitespace. */
  function TrimStart(s: string): (r: string)
    ensures |r| <= |s| && r == s[|s| - |r|..]
  {
    if |s| > 0 && IsWhitespace(s[0]) then TrimStart(s[1..]) else s
  }

  /** `trimStart` stops at a character that is not whitespace. */
  lemma {:induction false} TrimStartStops(s: string)
    ensures TrimStart(s) == "" || !IsWhitespace(TrimStart(s)[0])
    decreases |s|
  {
    if |s| > 0 && IsWhitespace(s[0]) {
      TrimStartStops(s[1..]);
    }
  }

  /** What `trimStart` removes is whitespace. */
  lemma TrimStartSkipsWhitespace(s: string)
    ensures forall k :: 0 <= k < |s| - |TrimStart(s)| ==> IsWhitespace(s[k])
  {
    forall k | 0 <= k < |s| - |TrimStart(s)|
      ensures IsWhitespace(s[k])
    {
      TrimStartSkipped(s, k);
    }
  }

  lemma {:induction false} TrimStartSkipped(s: string, k: nat)
    requires k < |s| - |TrimStart(s)|
    ensures IsWhitespace(s[k])
    decreases k
  {
    assert IsWhitespace(s[0]);
    if k > 0 {
      var tail := s[1..];
      assert TrimStart(s) == TrimStart(tail);
      TrimStartSkipped(tail, k - 1);
      assert tail[k - 1] == s[k];
    }
  }

  /** `s.trimEnd()`: the prefix of `s` before its trailing whitespace. */
  function TrimEnd(s: string): (r: string)
    ensures |r| <= |s| && r == s[..|r|]
  {
    if |s| > 0 && IsWhitespace(s[|s| - 1]) then TrimEnd(s[..|s| - 1]) else s
  }

  /** `trimEnd` stops at a character that is not whitespace. */
  lemma {:induction false} TrimEndStops(s: string)
    ensures TrimEnd(s) == "" || !IsWhitespace(TrimEnd(s)[|TrimEnd(s)| - 1])
    decreases |s|
  {
    if |s| > 0 && IsWhitespace(s[|s| - 1]) {
      TrimEndStops(s[..|s| - 1]);
    }
  }

  /** What `trimEnd` removes is whitespace. */
  lemma TrimEndSkipsWhitespace(s: string)
    ensures forall k :: |TrimEnd(s)| <= k < |s| ==> IsWhitespace(s[k])
  {
    forall k | |TrimEnd(s)| <= k < |s|
      ensures IsWhitespace(s[k])
    {
      TrimEndSkipped(s, k);
    }
  }

  lemma {:induction false} TrimEndSkipped(s: string, k: nat)
    requires |TrimEnd(s)| <= k < |s|
    ensures IsWhitespace(s[k])
    decreases |s| - k
  {
    assert IsWhitespace(s[|s| - 1]);
    if k < |s| - 1 {
      var init := s[..|s| - 1];
      assert TrimEnd(s) == TrimEnd(init);
      TrimEndSkipped(init, k);
      assert init[k] == s[k];
    }
  }

  /** `s.trim()` */
  function Trim(s: string): string {
    TrimEnd(TrimStart(s))
  }

  /** `s.trim()` is empty exactly when every character of `s` is whitespace. */
  lemma TrimEmptyIffBlank(s: string)
    ensures Trim(s) == "" <==> AllWhitespace(s)
  {
    var t := TrimStart(s);
    var n := |s| - |t|;
    TrimStartSkipsWhitespace(s);
    if t != "" {
      TrimStartStops(s);
      TrimEndSkipsWhitespace(t);
      assert t[0] == s[n] && !IsWhitespace(t[0]);
    }
  }

  /** A trimmed string has no whitespace at either end. */
  lemma TrimEnds(s: string)
    ensures var r := Trim(s); r == "" || (!IsWhitespace(r[0]) && !IsWhitespace(r[|r| - 1]))
  {
    var t := TrimStart(s);
    var r := TrimEnd(t);
    TrimStartStops(s);
    TrimEndStops(t);
    if r != "" {
      assert r[0] == t[0];
    }
  }

  predicate StartsWith(s: string, prefix: string) {
    |prefix| <= |s| && s[..|prefix|] == prefix
  }

  /** `s.includes(sub)` */
  predicate Contains(s: string, sub: string)
    decreases |s|
  {
    StartsWith(s, sub) || (|s| > 0 && Contains(s[1..], sub))
  }

  /** `sub` occurs in `s` exactly when some position of `s` starts an occurrence. */
  lemma {:induction false} ContainsAt(s: string, sub: string, i: nat)
    requires i + |sub| <= |s| && s[i..i + |sub|] == sub
    ensures Contains(s, sub)
    decreases i
  {
    if i > 0 {
      assert s[1..][i - 1..i - 1 + |sub|] == s[i..i + |sub|];
      ContainsAt(s[1..], sub, i - 1);
    }
  }

  /**
   * The text of `s` before the first occurrence of `sep` (all of `s` if none):
   * the element that `split(sep)` yields first.
   */
  function UpTo(s: string, sep: string): (r: string)
    requires sep != ""
    ensures |r| <= |s| && r == s[..|r|]
    ensures forall i :: 0 <= i < |r| ==> !StartsWith(s[i..], sep)
    ensures |r| < |s| ==> StartsWith(s[|r|..], sep)
    decreases |s|
  {
    if |s| == 0 || StartsWith(s, sep) then ""
    else
      var rest := UpTo(s[1..], sep);
      assert forall i :: 1 <= i <= |s| ==> s[i..] == s[1..][i - 1..];
      [s[0]] + rest
  }

  predicate IsDigit(c: char) {
    '0' <= c <= '9'
  }

  predicate AllDigits(s: string) {
    forall k :: 0 <= k < |s| ==> IsDigit(s[k])
  }

  /** The longest prefix of `s` made of decimal digits. */
  function DigitPrefix(s: string): (r: string)
    ensures |r| <= |s| && r == s[..|r|] && AllDigits(r)
    ensures |r| < |s| ==> !IsDigit(s[|r|])
  {
    if |s| > 0 && IsDigit(s[0]) then [s[0]] + DigitPrefix(s[1..]) else ""
  }

  /** The number that a string of decimal digits denotes. */
  function DigitsValue(ds: string): nat
    requires AllDigits(ds)
  {
    if ds == "" then 0
    else DigitsValue(ds[..|ds| - 1]) * 10 + (ds[|ds| - 1] as int - '0' as int)
  }

  /**
   * `parseInt(s, 10)`: leading whitespace skipped, an optional sign, then the
   * longest run of decimal digits; `None` is NaN (no digit after the sign).
   */
  function ParseInt(s: string): Option<int> {
    ParseSigned(TrimStart(s))
  }

  function ParseSigned(t: string): Option<int> {
    if |t| > 0 && t[0] == '-' then
      match ParseDigits(t[1..])
      case None => None
      case Some(v) => Some(-v)
    else if |t| > 0 && t[0] == '+' then ParseDigits(t[1..])
    else ParseDigits(t)
  }

  function ParseDigits(body: string): Option<int> {
    var ds := DigitPrefix(body);
    if ds == "" then None else Some(DigitsValue(ds))
  }

  function DigitChar(d: nat): (c: char)
    requires d < 10
    ensures IsDigit(c) && c as int - '0' as int == d
  {
    ('0' as int + d) as char
  }

  /** `String(n)` for a non-negative integer: its decimal digits, no leading zero. */
  function NatToString(n: nat): (r: string)
    ensures r != "" && AllDigits(r)
  {
    if n < 10 then [DigitChar(n)] else NatToString(n / 10) + [DigitChar(n % 10)]
  }

  /** `String(n)` for an integer. */
  function IntToString(n: int): string {
    if n < 0 then "-" + NatToString(-n) else NatToString(n)
  }

  /** The digits that `NatToString` writes denote `n` again. */
  lemma {:induction false} NatToStringValue(n: nat)
    ensures DigitsValue(NatToString(n)) == n
  {
    if n >= 10 {
      var s := NatToString(n);
      var prefix := NatToString(n / 10);
      assert s[..|s| - 1] == prefix;
      NatToStringValue(n / 10);
    }
  }

  /** The digit prefix of a digit string followed by a non-digit is that digit string. */
  lemma {:induction false} DigitPrefixOfDigits(ds: string, tail: string)
    requires AllDigits(ds)
    requires tail == "" || !IsDigit(tail[0])
    ensures DigitPrefix(ds + tail) == ds
  {
    if ds != "" {
      assert (ds + tail)[1..] == ds[1..] + tail;
      DigitPrefixOfDigits(ds[1..], tail);
    }
  }

  /** `parseInt(String(n), 10) == n` */
  lemma ParseIntOfString(n: int)
    ensures ParseInt(IntToString(n)) == Some(n)
  {
    if n < 0 {
      var m: nat := -n;
      NegativeToString(m);
      assert -(m as int) == n;
    } else {
      NaturalToString(n);
    }
  }

  lemma NaturalToString(m: nat)
    ensures ParseInt(IntToString(m)) == Some(m)
  {
    ParseIntOfNatural(m, "");
    assert IntToString(m) == NatToString(m) + "";
  }

  lemma NegativeToString(m: nat)
    requires m > 0
    ensures ParseInt(IntToString(-(m as int))) == Some(-(m as int))
  {
    ParseIntOfNegative(m, "");
    assert IntToString(-(m as int)) == "-" + NatToString(m) + "";
  }

  /**
   * `parseInt` reads back what `String` writes for a natural number, and
   * ignores whatever follows it when that does not start with a digit
   * (`"2000kcal"` reads as 2000).
   */
  lemma ParseIntOfNatural(m: nat, tail: string)
    requires tail == "" || !IsDigit(tail[0])
    ensures ParseInt(NatToString(m) + tail) == Some(m)
  {
    var s := NatToString(m) + tail;
    ParseDigitsOfNatural(m, tail);
    ParseIntOfDigits(s);
  }

  lemma ParseIntOfNegative(m: nat, tail: string)
    requires tail == "" || !IsDigit(tail[0])
    ensures ParseInt("-" + NatToString(m) + tail) == Some(-(m as int))
  {
    var body := NatToString(m) + tail;
    var s := "-" + body;
    assert s == "-" + NatToString(m) + tail;
    ParseDigitsOfNatural(m, tail);
    NoLeadingSpace(s);
    assert s[1..] == body;
    assert ParseSigned(s) == Some(-(m as int));
  }

  /** A text starting with a digit reads as its leading digits. */
  lemma ParseIntOfDigits(s: string)
    requires s != [] && IsDigit(s[0])
    ensures ParseInt(s) == ParseDigits(s)
  {
    NoLeadingSpace(s);
    assert s[0] != '-' && s[0] != '+';
  }

  /** The digits of `String(m)` followed by a non-digit read as `m`. */
  lemma ParseDigitsOfNatural(m: nat, tail: string)
    requires tail == "" || !IsDigit(tail[0])
    ensures var s := NatToString(m) + tail; s != [] && IsDigit(s[0]) && ParseDigits(s) == Some(m)
  {
    DigitPrefixOfDigits(NatToString(m), tail);
    NatToStringValue(m);
  }

  /** A text whose first character is not whitespace is its own `trimStart`. */
  lemma NoLeadingSpace(s: string)
    requires s != [] && (s[0] == '-' || IsDigit(s[0]))
    ensures TrimStart(s) == s
  {
    assert !IsWhitespace(s[0]);
  }
}
