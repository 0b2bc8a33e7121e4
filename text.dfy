/** String helpers shared by the catalogue normaliser and the product grid: the character classes
    the JavaScript regular expressions use, `String.prototype.trim`, decimal values of digit runs,
    the price-cleaning replacement and the link-protocol fix. */
module Text {
  import opened Wrappers

  predicate IsDigit(c: char) { '0' <= c <= '9' }

  function DigitValue(c: char): nat
    requires IsDigit(c)
  {
    c as int - '0' as int
  }

  /** `s.replace(/[^0-9]/g, '')`. */
  function KeepDigits(s: string): (r: string)
    ensures forall i :: 0 <= i < |r| ==> IsDigit(r[i])
    ensures |r| <= |s|
  {
    if s == [] then []
    else if IsDigit(s[0]) then [s[0]] + KeepDigits(s[1..])
    else KeepDigits(s[1..])
  }

  /** A string of digits is kept whole, and a string without any digit leaves nothing. */
  lemma {:induction false} KeepDigitsCases(s: string)
    ensures AllDigits(s) ==> KeepDigits(s) == s
    ensures NoDigits(s) ==> KeepDigits(s) == []
  {
    if s != [] {
      KeepDigitsCases(s[1..]);
    }
  }

  /** Filtering works piece by piece: the digits of a concatenation are the digits of each part.
      With `KeepDigitsCases` for a string of digits and for one without any, this pins the
      result down: every digit is kept, in order, and nothing else. */
  lemma {:induction false} KeepDigitsSplits(a: string, b: string)
    ensures KeepDigits(a + b) == KeepDigits(a) + KeepDigits(b)
  {
    if a == [] {
      assert a + b == b;
    } else {
      var ab := a + b;
      assert ab[0] == a[0] && ab[1..] == a[1..] + b;
      KeepDigitsSplits(a[1..], b);
    }
  }

  predicate AllDigits(s: string) {
    forall i :: 0 <= i < |s| ==> IsDigit(s[i])
  }

  predicate NoDigits(s: string) {
    forall i :: 0 <= i < |s| ==> !IsDigit(s[i])
  }

  /** The value of a run of decimal digits read as an integer (`parseInt(s, 10)`). */
  function NatValue(s: string): nat
    requires AllDigits(s)
  {
    if s == [] then 0 else NatValue(s[..|s| - 1]) * 10 + DigitValue(s[|s| - 1])
  }

  /** The value of the digits after a decimal point: "25" is 0.25. */
  function FracValue(s: string): real
    requires AllDigits(s)
  {
    if s == [] then 0.0 else (DigitValue(s[0]) as real + FracValue(s[1..])) / 10.0
  }

  /** The longest prefix of `s` made of digits. */
  function LeadingDigits(s: string): (r: string)
    ensures AllDigits(r) && r <= s
    ensures |r| < |s| ==> !IsDigit(s[|r|])
  {
    if s != [] && IsDigit(s[0]) then [s[0]] + LeadingDigits(s[1..]) else []
  }

  /** A run of digits is its own leading digit run. */
  lemma {:induction false} LeadingDigitsOfDigits(s: string)
    ensures AllDigits(s) ==> LeadingDigits(s) == s
  {
    if s != [] {
      LeadingDigitsOfDigits(s[1..]);
    }
  }

  /** `parseFloat` of a string whose characters are digits and dots: the decimal literal at its
      start (digits, an optional point, digits), or None (NaN) when that literal has no digit. */
  function ParseFloat(s: string): Option<real> {
    var intPart := LeadingDigits(s);
    var rest := s[|intPart|..];
    var fracPart := if rest != [] && rest[0] == '.' then LeadingDigits(rest[1..]) else [];
    if intPart == [] && fracPart == [] then None
    else Some(NatValue(intPart) as real + FracValue(fracPart))
  }

  /** `parseFloat` is NaN exactly when the text starts with neither a digit nor a point followed
      by a digit. */
  lemma ParseFloatNaN(s: string)
    ensures ParseFloat(s).None? <==> LeadingDigits(s) == [] && !(|s| > 1 && s[0] == '.' && IsDigit(s[1]))
  {
    if LeadingDigits(s) == [] && |s| > 1 && s[0] == '.' {
      assert s[|LeadingDigits(s)|..][1..] == s[1..];
      assert IsDigit(s[1]) <==> LeadingDigits(s[1..]) != [];
    }
  }

  /** A run of digits reads as its integer value. */
  lemma ParseFloatOfDigits(s: string)
    requires s != [] && AllDigits(s)
    ensures ParseFloat(s) == Some(NatValue(s) as real)
  {
    LeadingDigitsOfDigits(s);
    assert s[|s|..] == [];
  }

  /** A whole string that is a plain decimal literal: digits, optionally a point and more digits,
      with at least one digit in all. */
  function DecimalLiteral(s: string): Option<real> {
    var intPart := LeadingDigits(s);
    var rest := s[|intPart|..];
    if rest == [] then
      (if intPart == [] then None else Some(NatValue(intPart) as real))
    else if rest[0] == '.' && AllDigits(rest[1..]) && (intPart != [] || |rest| > 1) then
      Some(NatValue(intPart) as real + FracValue(rest[1..]))
    else None
  }

  /** The white-space and line-terminator characters `String.prototype.trim` removes. */
  predicate IsJsWhitespace(c: char) {
    || c == ' ' || c == '\t' || c == '\n' || c == '\U{000B}' || c == '\U{000C}' || c == '\r'
    || c == '\U{00A0}' || c == '\U{1680}' || ('\U{2000}' <= c <= '\U{200A}')
    || c == '\U{2028}' || c == '\U{2029}' || c == '\U{202F}' || c == '\U{205F}'
    || c == '\U{3000}' || c == '\U{FEFF}'
  }

  /** `r` is `s` after some leading white space. */
  predicate LeadingSpaceRemoved(s: string, r: string) {
    |r| <= |s| && r == s[|s| - |r|..] && forall i :: 0 <= i < |s| - |r| ==> IsJsWhitespace(s[i])
  }

  /** `r` is `s` before some trailing white space. */
  predicate TrailingSpaceRemoved(s: string, r: string) {
    |r| <= |s| && r == s[..|r|] && forall i :: |r| <= i < |s| ==> IsJsWhitespace(s[i])
  }

  /** `s.trimStart()`: the result does not start with white space. */
  function TrimStart(s: string): (r: string)
    ensures r != [] ==> !IsJsWhitespace(r[0])
    ensures |r| <= |s|
  {
    if s != [] && IsJsWhitespace(s[0]) then TrimStart(s[1..]) else s
  }

  /** Only leading white space is removed: what is left is a suffix of `s` and everything before
      it is white space. */
  lemma {:induction false} TrimStartRemovesLeadingSpace(s: string)
    ensures LeadingSpaceRemoved(s, TrimStart(s))
  {
    if s != [] && IsJsWhitespace(s[0]) {
      TrimStartRemovesLeadingSpace(s[1..]);
    }
  }

  /** `s.trimEnd()`: the result does not end with white space. */
  function TrimEnd(s: string): (r: string)
    ensures r != [] ==> !IsJsWhitespace(r[|r| - 1])
    ensures |r| <= |s|
  {
    if s != [] && IsJsWhitespace(s[|s| - 1]) then TrimEnd(s[..|s| - 1]) else s
  }

  /** Only trailing white space is removed: what is left is a prefix of `s` and everything after
      it is white space. */
  lemma {:induction false} TrimEndRemovesTrailingSpace(s: string)
    ensures TrailingSpaceRemoved(s, TrimEnd(s))
  {
    if s != [] && IsJsWhitespace(s[|s| - 1]) {
      TrimEndRemovesTrailingSpace(s[..|s| - 1]);
    }
  }

  /** `s.trim()`. */
  function Trim(s: string): string {
    TrimEnd(TrimStart(s))
  }

  lemma {:induction false} TrimEndKeepsStart(s: string)
    requires s != [] && !IsJsWhitespace(s[0])
    ensures TrimEnd(s) != [] && TrimEnd(s)[0] == s[0]
  {
    if IsJsWhitespace(s[|s| - 1]) {
      TrimEndKeepsStart(s[..|s| - 1]);
    }
  }

  /** A trimmed string neither starts nor ends with white space, so trimming it again changes nothing. */
  lemma TrimIdempotent(s: string)
    ensures var t := Trim(s);
      (t != [] ==> !IsJsWhitespace(t[0]) && !IsJsWhitespace(t[|t| - 1])) && Trim(t) == t
  {
    var u := TrimStart(s);
    if u != [] {
      TrimEndKeepsStart(u);
    }
  }

  /** `parseInt(s, 10)`: leading white space is skipped, then an optional sign and the longest run
      of decimal digits; None (NaN) when there is no digit. */
  function ParseInt(s: string): (r: Option<int>)
    ensures var t := TrimStart(s); t != [] && IsDigit(t[0]) ==> r == Some(NatValue(LeadingDigits(t)) as int)
    ensures var t := TrimStart(s); t == [] || (!IsDigit(t[0]) && t[0] != '-' && t[0] != '+') ==> r.None?
    ensures r.Some? && r.value < 0 ==> TrimStart(s) != [] && TrimStart(s)[0] == '-'
  {
    var t := TrimStart(s);
    var negative := t != [] && t[0] == '-';
    var body := if t != [] && (t[0] == '-' || t[0] == '+') then t[1..] else t;
    var digits := LeadingDigits(body);
    if digits == [] then None
    else if negative then Some(-(NatValue(digits) as int))
    else Some(NatValue(digits))
  }

  /** A sign after the leading white space: the digits that follow it, negated for a minus, or
      none when no digit follows. */
  lemma ParseIntSigned(s: string)
    requires var t := TrimStart(s); t != [] && (t[0] == '-' || t[0] == '+')
    ensures var t := TrimStart(s); var digits := LeadingDigits(t[1..]);
      ParseInt(s) == if digits == [] then None
                     else if t[0] == '-' then Some(-(NatValue(digits) as int))
                     else Some(NatValue(digits) as int)
  {
  }

  /** A run of digits with nothing around it parses to its value. */
  lemma ParseIntOfDigits(s: string)
    requires s != [] && AllDigits(s)
    ensures ParseInt(s) == Some(NatValue(s) as int)
  {
    assert IsDigit(s[0]);
    assert !IsJsWhitespace(s[0]);
    assert TrimStart(s) == s;
    LeadingDigitsOfDigits(s);
  }

  /** `Number(s)` for a string: surrounding white space is ignored, the empty string is 0, a plain
      decimal literal is its value, and None stands for NaN. */
  function NumberOfString(s: string): (r: Option<real>)
    ensures Trim(s) == "" ==> r == Some(0.0)
    ensures s != [] && AllDigits(s) ==> r == Some(NatValue(s) as real)
  {
    TrimOfDigits(s);
    LeadingDigitsOfDigits(s);
    var t := Trim(s);
    if t == "" then Some(0.0) else DecimalLiteral(t)
  }

  /** A run of digits has no white space to trim. */
  lemma TrimOfDigits(s: string)
    ensures s != [] && AllDigits(s) ==> Trim(s) == s
  {
    if s != [] && AllDigits(s) {
      assert !IsJsWhitespace(s[0]) && !IsJsWhitespace(s[|s| - 1]);
    }
  }

  /** `Number(v)`, with None for NaN: `undefined` and objects are NaN, `null` is 0 and a boolean
      is 0 or 1. */
  function NumberOf(v: JsValue): (r: Option<real>)
    ensures v.Number? ==> r == Some(v.n)
    ensures v.Undefined? || v.Object? ==> r.None?
    ensures v.Str? && Trim(v.s) == "" ==> r == Some(0.0)
    ensures v.Str? && v.s != [] && AllDigits(v.s) ==> r == Some(NatValue(v.s) as real)
  {
    match v
    case Undefined => None
    case Null => Some(0.0)
    case Bool(b) => Some(if b then 1.0 else 0.0)
    case Number(n) => Some(n)
    case Str(s) => NumberOfString(s)
    case Object => None
  }

  /** `Number(v) || 0`: the numeric value of `v`, with NaN (and 0) read as 0. */
  function NumberOrZero(v: JsValue): real {
    NumberOf(v).GetOr(0.0)
  }

  function LowerAscii(c: char): char {
    if 'A' <= c <= 'Z' then (c as int + 32) as char else c
  }

  /** `s` starts with `prefix` when ASCII letters are compared without regard to case, as a
      regular expression with the `i` flag (and no `u` flag) compares them. */
  predicate StartsWithIgnoringCase(s: string, prefix: string) {
    |s| >= |prefix| && forall i :: 0 <= i < |prefix| ==> LowerAscii(s[i]) == prefix[i]
  }

  /** `/^https?:\/\//i.test(s)`. */
  predicate HasHttpScheme(s: string) {
    StartsWithIgnoringCase(s, "http://") || StartsWithIgnoringCase(s, "https://")
  }

  /** `r` is `s` after some leading slashes. */
  predicate LeadingSlashesRemoved(s: string, r: string) {
    |r| <= |s| && r == s[|s| - |r|..] && forall i :: 0 <= i < |s| - |r| ==> s[i] == '/'
  }

  /** `s.replace(/^\/+/, '')`: what is left does not start with a slash. */
  function StripLeadingSlashes(s: string): (r: string)
    ensures r == [] || r[0] != '/'
    ensures |r| <= |s|
  {
    if s != [] && s[0] == '/' then StripLeadingSlashes(s[1..]) else s
  }

  /** Only the leading slashes go: what is left is a suffix of `s` and everything before it is a
      slash. */
  lemma {:induction false} StripLeadingSlashesRemovesOnlySlashes(s: string)
    ensures LeadingSlashesRemoved(s, StripLeadingSlashes(s))
  {
    if s != [] && s[0] == '/' {
      StripLeadingSlashesRemovesOnlySlashes(s[1..]);
    }
  }

  /** The link fix shared by the catalogue normaliser and the product grid: a link without an
      http(s) scheme becomes "https://" followed by the link with its leading slashes removed. */
  function FixLinkProtocol(s: string): (r: string)
    ensures HasHttpScheme(r)
    ensures HasHttpScheme(s) ==> r == s
    ensures !HasHttpScheme(s) ==> r == "https://" + StripLeadingSlashes(s)
  {
    HttpsPrefixHasScheme(StripLeadingSlashes(s));
    if HasHttpScheme(s) then s else "https://" + StripLeadingSlashes(s)
  }

  /** Any text after "https://" makes a link with an http(s) scheme. */
  lemma HttpsPrefixHasScheme(rest: string)
    ensures HasHttpScheme("https://" + rest)
  {
    assert forall i :: 0 <= i < 8 ==> ("https://" + rest)[i] == "https://"[i];
  }

  lemma FixLinkProtocolIdempotent(s: string)
    ensures FixLinkProtocol(FixLinkProtocol(s)) == FixLinkProtocol(s)
    ensures !HasHttpScheme(s) ==> FixLinkProtocol(s) != s
  {
  }

  predicate DigitsAndDots(s: string) {
    forall i :: 0 <= i < |s| ==> IsDigit(s[i]) || s[i] == '.'
  }

  predicate NoDigitsOrDots(s: string) {
    forall i :: 0 <= i < |s| ==> !IsDigit(s[i]) && s[i] != '.'
  }

  /** `s.replace(/[^0-9.]/g, '')`. */
  function KeepDigitsAndDots(s: string): (r: string)
    ensures forall i :: 0 <= i < |r| ==> IsDigit(r[i]) || r[i] == '.'
  {
    if s == [] then []
    else if IsDigit(s[0]) || s[0] == '.' then [s[0]] + KeepDigitsAndDots(s[1..])
    else KeepDigitsAndDots(s[1..])
  }

  /** A string of digits and points is kept whole, and one with neither leaves nothing. */
  lemma {:induction false} KeepDigitsAndDotsCases(s: string)
    ensures DigitsAndDots(s) ==> KeepDigitsAndDots(s) == s
    ensures NoDigitsOrDots(s) ==> KeepDigitsAndDots(s) == []
  {
    if s != [] {
      KeepDigitsAndDotsCases(s[1..]);
    }
  }

  /** The digits and points of a concatenation are those of each part; with the two cases of
      `KeepDigitsAndDotsCases`, every digit and every point is kept, in order, and nothing else. */
  lemma {:induction false} KeepDigitsAndDotsSplits(a: string, b: string)
    ensures KeepDigitsAndDots(a + b) == KeepDigitsAndDots(a) + KeepDigitsAndDots(b)
  {
    if a == [] {
      assert a + b == b;
    } else {
      var ab := a + b;
      assert ab[0] == a[0] && ab[1..] == a[1..] + b;
      KeepDigitsAndDotsSplits(a[1..], b);
    }
  }

  /** `s.replace(/\.(?=.*\.)/g, '')`: every '.' that has another '.' after it is dropped. */
  function DropEarlierDots(s: string): string {
    if s == [] then []
    else if s[0] == '.' && '.' in s[1..] then DropEarlierDots(s[1..])
    else [s[0]] + DropEarlierDots(s[1..])
  }

  /** Text without a dot is left as it is. */
  lemma {:induction false} DropEarlierDotsNoDot(s: string)
    requires '.' !in s
    ensures DropEarlierDots(s) == s
  {
    if s != [] {
      assert s[0] in s;
      assert forall c :: c in s[1..] ==> c in s;
      DropEarlierDotsNoDot(s[1..]);
    }
  }

  /** The dot that survives is the last one: in text of digits and dots whose last dot is at `k`,
      every dot before `k` is dropped and everything from `k` on is kept. */
  lemma {:induction false} DropEarlierDotsKeepsLast(s: string, k: nat)
    requires DigitsAndDots(s)
    requires k < |s| && s[k] == '.' && '.' !in s[k + 1..]
    ensures DropEarlierDots(s) == KeepDigits(s[..k]) + s[k..]
  {
    if k == 0 {
      assert s[1..] == s[k + 1..];
      DropEarlierDotsNoDot(s[1..]);
      assert s == [s[0]] + s[1..];
    } else {
      var t := s[1..];
      assert t[k - 1] == '.' && t[k..] == s[k + 1..];
      assert DigitsAndDots(t);
      DropEarlierDotsKeepsLast(t, k - 1);
      assert t[..k - 1] == s[1..k] && t[k - 1..] == s[k..];
      assert s[..k][1..] == s[1..k];
      assert '.' in t by { assert t[k - 1] == '.'; }
    }
  }

  /** The price cleaning used by the catalogue normaliser and the product grid. */
  function CleanPrice(s: string): string {
    DropEarlierDots(KeepDigitsAndDots(s))
  }

  function DotCount(s: string): nat {
    if s == [] then 0 else (if s[0] == '.' then 1 else 0) + DotCount(s[1..])
  }

  lemma {:induction false} DropEarlierDotsShape(s: string)
    ensures ('.' in DropEarlierDots(s)) <==> ('.' in s)
    ensures DotCount(DropEarlierDots(s)) <= 1
    ensures KeepDigits(DropEarlierDots(s)) == KeepDigits(s)
    ensures forall c :: c in DropEarlierDots(s) ==> c in s
  {
    if s != [] {
      DropEarlierDotsShape(s[1..]);
      assert s == [s[0]] + s[1..];
      if s[0] == '.' && '.' in s[1..] {
      } else {
        var r := [s[0]] + DropEarlierDots(s[1..]);
        assert r[1..] == DropEarlierDots(s[1..]);
        if s[0] == '.' {
          NoDotZeroCount(DropEarlierDots(s[1..]));
        }
      }
    }
  }

  lemma {:induction false} NoDotZeroCount(s: string)
    requires '.' !in s
    ensures DotCount(s) == 0
  {
    if s != [] {
      NoDotZeroCount(s[1..]);
    }
  }

  /** A cleaned price string keeps only digits and dots, at most one dot, the original's digits in
      their order, and a dot exactly when the original had one. */
  lemma CleanPriceShape(s: string)
    ensures var c := CleanPrice(s);
      && (forall i :: 0 <= i < |c| ==> IsDigit(c[i]) || c[i] == '.')
      && DotCount(c) <= 1
      && KeepDigits(c) == KeepDigits(s)
      && (('.' in c) <==> ('.' in s))
  {
    var k := KeepDigitsAndDots(s);
    DropEarlierDotsShape(k);
    KeepDigitsAndDotsShape(s);
    var c := CleanPrice(s);
    forall i | 0 <= i < |c| ensures IsDigit(c[i]) || c[i] == '.' {
      assert c[i] in k;
    }
  }

  lemma {:induction false} KeepDigitsAndDotsShape(s: string)
    ensures KeepDigits(KeepDigitsAndDots(s)) == KeepDigits(s)
    ensures ('.' in KeepDigitsAndDots(s)) <==> ('.' in s)
    ensures DotCount(KeepDigitsAndDots(s)) == DotCount(s)
  {
    if s != [] {
      KeepDigitsAndDotsShape(s[1..]);
      assert s == [s[0]] + s[1..];
      if IsDigit(s[0]) || s[0] == '.' {
        var r := [s[0]] + KeepDigitsAndDots(s[1..]);
        assert r[1..] == KeepDigitsAndDots(s[1..]);
      }
    }
  }
}
