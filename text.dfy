/** String primitives of the JavaScript and Kotlin runtimes that the validated,
    formatted and parsed values go through: the `\d`/`\s` character classes,
    `replace(/\D/g, '')`, `replace(/\s/g, '')`, `parseInt(s, 10)`, `split`,
    `trim`, `startsWith`, `toUpperCase` and the decimal rendering of a number. */
module Text {
  import opened Wrappers

  /** JavaScript `\d`: only the ASCII digits. */
  predicate IsDigit(c: char) {
    '0' <= c <= '9'
  }

  /** JavaScript `\s`, which is also the set `parseInt` and `trim` skip:
      the ECMAScript WhiteSpace and LineTerminator characters. */
  predicate IsJsSpace(c: char) {
    || c == ' ' || c == '\t' || c == '\n' || c == '\r'
    || c == '\U{B}' || c == '\U{C}' || c == '\U{A0}' || c == '\U{1680}'
    || ('\U{2000}' <= c <= '\U{200A}')
    || c == '\U{2028}' || c == '\U{2029}' || c == '\U{202F}' || c == '\U{205F}'
    || c == '\U{3000}' || c == '\U{FEFF}'
  }

  predicate AllDigits(s: string) {
    forall i :: 0 <= i < |s| ==> IsDigit(s[i])
  }

  /** `s.replace(/\D/g, '')`: the digits of `s`, in order. */
  function Digits(s: string): (d: string)
    ensures AllDigits(d)
    ensures |d| <= |s|
  {
    if s == [] then []
    else (if IsDigit(s[0]) then [s[0]] else []) + Digits(s[1..])
  }

  /** `s.replace(/\s/g, '')`: `s` without its whitespace, in order. */
  function StripWhitespace(s: string): (t: string)
    ensures forall i :: 0 <= i < |t| ==> !IsJsSpace(t[i])
    ensures |t| <= |s|
  {
    if s == [] then []
    else (if IsJsSpace(s[0]) then [] else [s[0]]) + StripWhitespace(s[1..])
  }

  /** Stripping a concatenation strips each part. */
  lemma {:induction false} StripWhitespaceAppend(a: string, b: string)
    ensures StripWhitespace(a + b) == StripWhitespace(a) + StripWhitespace(b)
  {
    if a != [] {
      assert (a + b)[0] == a[0];
      assert (a + b)[1..] == a[1..] + b;
      StripWhitespaceAppend(a[1..], b);
    } else {
      assert a + b == b;
    }
  }

  /** A single character is dropped when it is whitespace and kept otherwise. */
  lemma StripWhitespaceChar(c: char)
    ensures StripWhitespace([c]) == if IsJsSpace(c) then [] else [c]
  {
    assert [c][1..] == [];
  }

  /** A run of whitespace strips to nothing. */
  lemma {:induction false} StripWhitespaceOfSpaces(s: string)
    requires forall i :: 0 <= i < |s| ==> IsJsSpace(s[i])
    ensures StripWhitespace(s) == []
  {
    if s != [] {
      StripWhitespaceOfSpaces(s[1..]);
    }
  }

  lemma {:induction false} DigitsAppend(a: string, b: string)
    ensures Digits(a + b) == Digits(a) + Digits(b)
  {
    if a != [] {
      var head := if IsDigit(a[0]) then [a[0]] else [];
      assert (a + b)[0] == a[0];
      assert (a + b)[1..] == a[1..] + b;
      DigitsAppend(a[1..], b);
      assert Digits(a + b) == head + Digits(a[1..] + b);
      assert Digits(a) == head + Digits(a[1..]);
    } else {
      assert a + b == b;
    }
  }

  /** Removing the non-digits of a string made only of digits changes nothing. */
  lemma {:induction false} DigitsOfDigits(s: string)
    requires AllDigits(s)
    ensures Digits(s) == s
  {
    if s != [] {
      DigitsOfDigits(s[1..]);
    }
  }

  /** Filtering twice is filtering once. */
  lemma DigitsIdempotent(s: string)
    ensures Digits(Digits(s)) == Digits(s)
  {
    DigitsOfDigits(Digits(s));
  }

  function DigitValue(c: char): (v: nat)
    requires IsDigit(c)
    ensures v <= 9
  {
    (c as int) - ('0' as int)
  }

  function DigitChar(v: nat): (c: char)
    requires v <= 9
    ensures IsDigit(c) && DigitValue(c) == v
  {
    (('0' as int) + v) as char
  }

  /** The number a non-empty run of decimal digits denotes. */
  function DecimalValue(ds: string): nat
    requires AllDigits(ds)
  {
    if ds == [] then 0
    else 10 * DecimalValue(ds[..|ds| - 1]) + DigitValue(ds[|ds| - 1])
  }

  /** Appending a digit multiplies the value by ten and adds the digit. */
  lemma DecimalValueSnoc(ds: string, c: char)
    requires AllDigits(ds) && IsDigit(c)
    ensures AllDigits(ds + [c])
    ensures DecimalValue(ds + [c]) == 10 * DecimalValue(ds) + DigitValue(c)
  {
    assert (ds + [c])[..|ds|] == ds;
  }

  /** `String(n)` for a non-negative integer: its shortest decimal form. */
  function NatToDecimal(n: nat): (s: string)
    ensures s != [] && AllDigits(s)
    ensures DecimalValue(s) == n
    ensures |s| > 1 ==> s[0] != '0'
  {
    if n < 10 then [DigitChar(n)]
    else
      var prefix := NatToDecimal(n / 10);
      var s := prefix + [DigitChar(n % 10)];
      assert s[..|s| - 1] == prefix;
      s
  }

  /** The longest prefix of `s` made of digits. */
  function DigitPrefix(s: string): (p: string)
    ensures AllDigits(p) && |p| <= |s| && p == s[..|p|]
    ensures |p| < |s| ==> !IsDigit(s[|p|])
  {
    if s == [] || !IsDigit(s[0]) then []
    else [s[0]] + DigitPrefix(s[1..])
  }

  function TrimStart(s: string): (t: string)
    ensures |t| <= |s| && t == s[|s| - |t|..]
    ensures t != [] ==> !IsJsSpace(t[0])
  {
    if s != [] && IsJsSpace(s[0]) then TrimStart(s[1..]) else s
  }

  function TrimEnd(s: string): (t: string)
    ensures |t| <= |s| && t == s[..|t|]
    ensures t != [] ==> !IsJsSpace(t[|t| - 1])
  {
    if s != [] && IsJsSpace(s[|s| - 1]) then TrimEnd(s[..|s| - 1]) else s
  }

  /** `s.trim()`. */
  function Trim(s: string): string {
    TrimEnd(TrimStart(s))
  }

  /** `parseInt(s, 10)`: skip leading whitespace, read an optional sign, then
      the longest run of digits; `None` stands for `NaN` (no digit at all).
      Trailing characters after the digits are ignored. */
  function ParseInt(s: string): (r: Option<int>)
    ensures r.None? <==> DigitPrefix(SignedBody(TrimStart(s))) == []
  {
    var t := TrimStart(s);
    var digits := DigitPrefix(SignedBody(t));
    if digits == [] then None
    else
      var magnitude: int := DecimalValue(digits);
      if t != [] && t[0] == '-' then Some(-magnitude) else Some(magnitude)
  }

  /** What follows an optional leading sign. */
  function SignedBody(t: string): string {
    if t != [] && (t[0] == '-' || t[0] == '+') then t[1..] else t
  }

  /** `parseInt` of a string that starts with a digit is the value of its
      leading run of digits, whatever follows. */
  lemma ParseIntDigitsFirst(s: string)
    requires s != [] && IsDigit(s[0])
    ensures ParseInt(s) == Some(DecimalValue(DigitPrefix(s)))
  {
    assert TrimStart(s) == s;
    assert SignedBody(s) == s;
  }

  /** `parseInt` of a run of digits is the number it denotes. */
  lemma ParseIntOfDigits(s: string)
    requires s != [] && AllDigits(s)
    ensures ParseInt(s) == Some(DecimalValue(s))
  {
    DigitPrefixOfDigits(s);
    ParseIntDigitsFirst(s);
  }

  /** `parseInt` reads back the decimal form of every natural number. */
  lemma {:induction false} ParseIntNatToDecimal(n: nat)
    ensures ParseInt(NatToDecimal(n)) == Some(n)
  {
    ParseIntOfDigits(NatToDecimal(n));
  }

  lemma {:induction false} DigitPrefixOfDigits(s: string)
    requires AllDigits(s)
    ensures DigitPrefix(s) == s
  {
    if s != [] {
      DigitPrefixOfDigits(s[1..]);
    }
  }

  /** `s.split(sep)` in JavaScript and in Kotlin (no limit): the maximal pieces
      between separators, keeping empty pieces; there is always at least one. */
  function Split(s: string, sep: char): (parts: seq<string>)
    ensures |parts| >= 1
    ensures forall i :: 0 <= i < |parts| ==> sep !in parts[i]
  {
    if s == [] then [""]
    else
      var rest := Split(s[1..], sep);
      if s[0] == sep then [""] + rest
      else [[s[0]] + rest[0]] + rest[1..]
  }

  /** Joining the pieces with the separator gives back the string. */
  function Join(parts: seq<string>, sep: char): string
    requires |parts| >= 1
  {
    if |parts| == 1 then parts[0] else parts[0] + [sep] + Join(parts[1..], sep)
  }

  lemma {:induction false} SplitJoin(s: string, sep: char)
    ensures Join(Split(s, sep), sep) == s
  {
    if s != [] {
      var rest := Split(s[1..], sep);
      SplitJoin(s[1..], sep);
      if s[0] != sep {
        var parts := Split(s, sep);
        if |rest| == 1 {
          assert parts == [[s[0]] + rest[0]];
        } else {
          assert parts[1..] == rest[1..];
          assert Join(parts, sep) == [s[0]] + rest[0] + [sep] + Join(rest[1..], sep);
        }
      }
    }
  }

  /** A string without the separator is a single piece. */
  lemma {:induction false} SplitNoSeparator(s: string, sep: char)
    requires sep !in s
    ensures Split(s, sep) == [s]
  {
    if s != [] {
      assert s[0] != sep && sep !in s[1..];
      SplitNoSeparator(s[1..], sep);
      assert [s[0]] + s[1..] == s;
    }
  }

  /** A separator-free prefix becomes the start of the first piece. */
  lemma {:induction false} SplitPrefix(a: string, rest: string, sep: char)
    requires sep !in a
    ensures Split(a + rest, sep) == [a + Split(rest, sep)[0]] + Split(rest, sep)[1..]
  {
    if a != [] {
      var r := Split(rest, sep);
      var x := a + rest;
      assert x[0] == a[0] != sep;
      assert x[1..] == a[1..] + rest;
      SplitPrefix(a[1..], rest, sep);
      var big := Split(x[1..], sep);
      assert big[0] == a[1..] + r[0];
      assert big[1..] == r[1..];
      assert Split(x, sep) == [[x[0]] + big[0]] + big[1..];
      assert [a[0]] + (a[1..] + r[0]) == a + r[0];
    } else {
      var r := Split(rest, sep);
      assert a + rest == rest;
      assert a + r[0] == r[0];
      assert [r[0]] + r[1..] == r;
    }
  }

  /** `(a + sep + b).split(sep)` is `[a, b]` when neither side holds `sep`. */
  lemma SplitTwo(a: string, b: string, sep: char)
    requires sep !in a && sep !in b
    ensures Split(a + [sep] + b, sep) == [a, b]
  {
    var tail := [sep] + b;
    SplitNoSeparator(b, sep);
    assert tail[1..] == b;
    assert Split(tail, sep) == [""] + [b];
    assert a + [sep] + b == a + tail;
    SplitPrefix(a, tail, sep);
    assert a + "" == a;
  }

  predicate StartsWith(s: string, prefix: string) {
    |prefix| <= |s| && s[..|prefix|] == prefix
  }

  /** `s.includes(part)`: `part` occurs somewhere in `s`. */
  predicate Contains(s: string, part: string) {
    StartsWith(s, part) || (s != [] && Contains(s[1..], part))
  }

  function UpperAscii(c: char): char {
    if 'a' <= c <= 'z' then (c as int - 32) as char else c
  }

  /** `toUpperCase`, for the ASCII letters. */
  function ToUpperAscii(s: string): (t: string)
    ensures |t| == |s|
    ensures forall i :: 0 <= i < |s| ==> t[i] == UpperAscii(s[i])
  {
    if s == [] then [] else [UpperAscii(s[0])] + ToUpperAscii(s[1..])
  }
}
