/** The few pieces of JavaScript string semantics the service relies on: truthiness,
    `||` and `??` on optional values, `startsWith`, `includes`, the `\s` class of
    regular expressions, `toUpperCase`, `Array.prototype.join` and the decimal
    rendering of integers in template literals.

    Strings are sequences of Unicode scalar values. JavaScript measures and slices
    strings in UTF-16 code units; the two agree for text inside the Basic
    Multilingual Plane. */
module JsText {
  import opened Wrappers

  /** JavaScript truthiness of an optional string: `undefined` and `''` are falsy. */
  predicate Truthy(s: Option<string>) {
    s.Some? && s.value != ""
  }

  /** `a || b` for an optional string and a string fallback. */
  function Or(a: Option<string>, b: string): string {
    if Truthy(a) then a.value else b
  }

  /** `a || b` when the fallback may itself be `undefined`. */
  function OrElse(a: Option<string>, b: Option<string>): Option<string> {
    if Truthy(a) then a else b
  }

  /** `a ?? b`: only `undefined`/`null` fall through, the empty string does not. */
  function Coalesce<T>(a: Option<T>, b: Option<T>): Option<T> {
    if a.Some? then a else b
  }

  predicate StartsWith(s: string, prefix: string) {
    |prefix| <= |s| && s[..|prefix|] == prefix
  }

  /** `s.includes(sub)` */
  predicate Includes(s: string, sub: string)
    decreases |s|
  {
    StartsWith(s, sub) || (|s| > 0 && Includes(s[1..], sub))
  }

  /** The characters matched by `\s` in a JavaScript regular expression. */
  predicate IsWhitespace(c: char) {
    c == '\t' || c == '\n' || c == '\U{000B}' || c == '\U{000C}' || c == '\r' || c == ' '
    || c == '\U{00A0}' || c == '\U{1680}' || ('\U{2000}' <= c <= '\U{200A}')
    || c == '\U{2028}' || c == '\U{2029}' || c == '\U{202F}' || c == '\U{205F}'
    || c == '\U{3000}' || c == '\U{FEFF}'
  }

  predicate IsAsciiUpper(c: char) { 'A' <= c <= 'Z' }
  predicate IsAsciiLower(c: char) { 'a' <= c <= 'z' }
  predicate IsDigit(c: char) { '0' <= c <= '9' }

  /** The upper-case form of one character, exact for every character whose
      JavaScript upper-case form contains an ASCII letter: `a`-`z`, dotless i,
      long s, sharp s, the Latin ligatures, and the letters that upper-case to an
      ASCII capital followed by a modifier or a combining mark (n preceded by an
      apostrophe, j with caron, h with line below, t with diaeresis, w and y with
      ring above, a with right half ring). Any other character is kept as it is;
      its real upper-case form contains no ASCII letter either, so the result
      compares with an ASCII word exactly as JavaScript's does. */
  function UpperChar(c: char): (r: string)
    ensures |r| >= 1
    ensures IsAsciiLower(c) ==> r == [(c as int - 32) as char]
  {
    if IsAsciiLower(c) then [(c as int - 32) as char]
    else if c == '\U{0131}' then "I"
    else if c == '\U{017F}' then "S"
    else if c == '\U{00DF}' then "SS"
    else if c == '\U{FB00}' then "FF"
    else if c == '\U{FB01}' then "FI"
    else if c == '\U{FB02}' then "FL"
    else if c == '\U{FB03}' then "FFI"
    else if c == '\U{FB04}' then "FFL"
    else if c == '\U{FB05}' || c == '\U{FB06}' then "ST"
    else if c == '\U{0149}' then "\U{02BC}N"
    else if c == '\U{01F0}' then "J\U{030C}"
    else if c == '\U{1E96}' then "H\U{0331}"
    else if c == '\U{1E97}' then "T\U{0308}"
    else if c == '\U{1E98}' then "W\U{030A}"
    else if c == '\U{1E99}' then "Y\U{030A}"
    else if c == '\U{1E9A}' then "A\U{02BE}"
    else [c]
  }

  /** `s.toUpperCase()` (see UpperChar for how far it is exact). */
  function ToUpperCase(s: string): string
    decreases |s|
  {
    if s == [] then [] else UpperChar(s[0]) + ToUpperCase(s[1..])
  }

  /** Upper-casing distributes over concatenation. */
  lemma {:induction false} ToUpperCaseConcat(a: string, b: string)
    ensures ToUpperCase(a + b) == ToUpperCase(a) + ToUpperCase(b)
    decreases |a|
  {
    if a != [] {
      assert (a + b)[0] == a[0];
      assert (a + b)[1..] == a[1..] + b;
      ToUpperCaseConcat(a[1..], b);
    } else {
      assert a + b == b;
    }
  }

  /** Text already in upper case (ASCII letters, digits and the like) is unchanged. */
  lemma {:induction false} ToUpperCaseOfUpper(s: string)
    requires forall i :: 0 <= i < |s| ==> !IsAsciiLower(s[i]) && s[i] < '\U{0080}'
    ensures ToUpperCase(s) == s
    decreases |s|
  {
    if s != [] {
      ToUpperCaseOfUpper(s[1..]);
    }
  }

  /** Text made of characters that upper-case to themselves is unchanged. */
  lemma {:induction false} ToUpperCaseFixed(s: string)
    requires forall i :: 0 <= i < |s| ==> UpperChar(s[i]) == [s[i]]
    ensures ToUpperCase(s) == s
    decreases |s|
  {
    if s != [] {
      assert forall i :: 0 <= i < |s[1..]| ==> s[1..][i] == s[i + 1];
      ToUpperCaseFixed(s[1..]);
      assert s == [s[0]] + s[1..];
    }
  }

  /** The upper-case form of a character is already in upper case. */
  lemma UpperCharUpper(c: char)
    ensures ToUpperCase(UpperChar(c)) == UpperChar(c)
  {
    var r := UpperChar(c);
    assert forall i :: 0 <= i < |r| ==> UpperChar(r[i]) == [r[i]];
    ToUpperCaseFixed(r);
  }

  /** Upper-casing twice is upper-casing once. */
  lemma {:induction false} ToUpperCaseIdempotent(s: string)
    ensures ToUpperCase(ToUpperCase(s)) == ToUpperCase(s)
    decreases |s|
  {
    if s != [] {
      ToUpperCaseIdempotent(s[1..]);
      ToUpperCaseConcat(UpperChar(s[0]), ToUpperCase(s[1..]));
      UpperCharUpper(s[0]);
    }
  }

  /** On ASCII text each lower-case letter is replaced by its capital and every
      other character is kept, position by position. */
  lemma {:induction false} ToUpperCaseAscii(s: string)
    requires forall i :: 0 <= i < |s| ==> s[i] < '\U{0080}'
    ensures |ToUpperCase(s)| == |s|
    ensures forall i :: 0 <= i < |s| ==>
      ToUpperCase(s)[i] == if IsAsciiLower(s[i]) then (s[i] as int - 32) as char else s[i]
    decreases |s|
  {
    if s != [] {
      ToUpperCaseAscii(s[1..]);
      var head := UpperChar(s[0]);
      assert |head| == 1;
      assert ToUpperCase(s) == head + ToUpperCase(s[1..]);
    }
  }

  /** `s.toLowerCase()` on ASCII text (header names, status words): each
      capital is replaced by its lower-case letter. */
  function LowerAscii(s: string): (r: string)
    ensures |r| == |s|
    ensures forall i :: 0 <= i < |s| ==> r[i] == if IsAsciiUpper(s[i]) then (s[i] as int + 32) as char else s[i]
  {
    seq(|s|, i requires 0 <= i < |s| => if IsAsciiUpper(s[i]) then (s[i] as int + 32) as char else s[i])
  }

  /** Upper-casing the lower-case form of ASCII text without small letters gives
      the text back. */
  lemma ToUpperCaseOfLower(s: string)
    requires forall i :: 0 <= i < |s| ==> !IsAsciiLower(s[i]) && s[i] < '\U{0080}'
    ensures ToUpperCase(LowerAscii(s)) == s
  {
    var l := LowerAscii(s);
    ToUpperCaseAscii(l);
    assert forall i :: 0 <= i < |s| ==> ToUpperCase(l)[i] == s[i];
  }

  /** `parts.join(sep)` */
  function Join(parts: seq<string>, sep: string): string
    decreases |parts|
  {
    if |parts| == 0 then ""
    else if |parts| == 1 then parts[0]
    else parts[0] + sep + Join(parts[1..], sep)
  }

  function DigitChar(d: nat): (c: char)
    requires d < 10
    ensures IsDigit(c)
  {
    ('0' as int + d) as char
  }

  function DigitValue(c: char): nat
    requires IsDigit(c)
  {
    (c as int - '0' as int) as nat
  }

  /** The decimal digits of a natural number, as `String(n)` writes them. */
  function NatToString(n: nat): (r: string)
    ensures |r| >= 1
    ensures forall i :: 0 <= i < |r| ==> IsDigit(r[i])
    ensures r[0] == '0' ==> n == 0
    decreases n
  {
    if n < 10 then [DigitChar(n)] else NatToString(n / 10) + [DigitChar(n % 10)]
  }

  /** `String(i)` for an integer. */
  function IntToString(i: int): string {
    if i < 0 then "-" + NatToString(-i) else NatToString(i)
  }

  /** The value of a string of decimal digits. */
  function DecimalValue(s: string): nat
    requires forall i :: 0 <= i < |s| ==> IsDigit(s[i])
    decreases |s|
  {
    if s == [] then 0 else DecimalValue(s[..|s| - 1]) * 10 + DigitValue(s[|s| - 1])
  }

  /** Reading back the digits NatToString writes gives the number again. */
  lemma {:induction false} NatToStringRoundTrip(n: nat)
    ensures DecimalValue(NatToString(n)) == n
    decreases n
  {
    if n >= 10 {
      var prefix := NatToString(n / 10);
      var s := prefix + [DigitChar(n % 10)];
      assert s[..|s| - 1] == prefix;
      NatToStringRoundTrip(n / 10);
    }
  }

  /** Distinct numbers are written differently. */
  lemma NatToStringInjective(m: nat, n: nat)
    requires NatToString(m) == NatToString(n)
    ensures m == n
  {
    NatToStringRoundTrip(m);
    NatToStringRoundTrip(n);
  }
}
