/** String helpers shared by the client and the server models: the JavaScript
    `String.prototype.split` on one separator character, its inverse `Join`,
    `parseFloat` restricted to unsigned whole numbers, and the JavaScript
    white-space set that `String.prototype.trim` removes. */
module Text {

  /** Number of occurrences of `c` in `s`. */
  function Count(s: string, c: char): (n: nat)
    ensures n <= |s|
  {
    if s == [] then 0 else (if s[0] == c then 1 else 0) + Count(s[1..], c)
  }

  /** No occurrence is counted exactly when the character does not occur. */
  lemma {:induction false} CountAbsent(s: string, c: char)
    ensures Count(s, c) == 0 <==> c !in s
  {
    if s != [] {
      CountAbsent(s[1..], c);
      assert s == [s[0]] + s[1..];
    }
  }

  /** Inverse of `Split`: the parts glued back with the separator between them. */
  function Join(parts: seq<string>, sep: char): string
    requires |parts| >= 1
  {
    if |parts| == 1 then parts[0] else parts[0] + [sep] + Join(parts[1..], sep)
  }

  /** `s.split(sep)` for a one-character separator: the maximal runs between
      separators, empty runs included, so there is always at least one part.
      `Join` undoes it. */
  function Split(s: string, sep: char): (parts: seq<string>)
    ensures |parts| == Count(s, sep) + 1
    ensures forall i :: 0 <= i < |parts| ==> sep !in parts[i]
    ensures Join(parts, sep) == s
  {
    if s == [] then [[]]
    else
      var rest := Split(s[1..], sep);
      if s[0] == sep then
        assert ([[]] + rest)[1..] == rest;
        [[]] + rest
      else
        var parts := [[s[0]] + rest[0]] + rest[1..];
        assert Join(parts, sep) == s by {
          if |rest| == 1 {
            assert parts == [[s[0]] + rest[0]];
          } else {
            assert parts[1..] == rest[1..];
          }
        }
        parts
  }

  /** Splitting a text whose first part is free of the separator peels that part off. */
  lemma {:induction false} SplitAfterPart(a: string, b: string, sep: char)
    requires sep !in a
    ensures Split(a + [sep] + b, sep) == [a] + Split(b, sep)
  {
    if a == [] {
      assert a + [sep] + b == [sep] + b;
      assert ([sep] + b)[1..] == b;
    } else {
      assert (a + [sep] + b)[1..] == a[1..] + [sep] + b;
      SplitAfterPart(a[1..], b, sep);
      assert [a[0]] + a[1..] == a;
    }
  }

  /** A text free of the separator splits into itself alone. */
  lemma {:induction false} SplitWithoutSeparator(a: string, sep: char)
    requires sep !in a
    ensures Split(a, sep) == [a]
  {
    if a != [] {
      SplitWithoutSeparator(a[1..], sep);
      assert [a[0]] + a[1..] == a;
    }
  }

  predicate IsDigit(c: char)
  {
    '0' <= c <= '9'
  }

  function DigitValue(c: char): nat
    requires IsDigit(c)
  {
    c as int - '0' as int
  }

  predicate AllDigits(s: string)
  {
    forall i :: 0 <= i < |s| ==> IsDigit(s[i])
  }

  /** Value of a run of decimal digits, most significant first. */
  function DigitsValue(s: string): nat
    requires AllDigits(s)
  {
    if s == [] then 0 else 10 * DigitsValue(s[..|s| - 1]) + DigitValue(s[|s| - 1])
  }

  /** The longest prefix of `s` made of decimal digits. */
  function LeadingDigits(s: string): (d: string)
    ensures AllDigits(d) && d <= s
    ensures |d| < |s| ==> !IsDigit(s[|d|])
  {
    if s == [] || !IsDigit(s[0]) then [] else [s[0]] + LeadingDigits(s[1..])
  }

  /** A JavaScript number as far as `parseFloat` of a whole number can produce one. */
  datatype Number = Num(value: nat) | NaN

  /** The characters `String.prototype.trim` and `parseFloat` skip: the
      ECMAScript WhiteSpace (tab, vertical tab, form feed, space, no-break
      space, byte-order mark, the Zs category) and LineTerminator code points. */
  predicate IsJsWhitespace(c: char)
  {
    c == '\t' || c == '\n' || c == '\U{000B}' || c == '\U{000C}' || c == '\r' || c == ' ' ||
    c == '\U{00A0}' || c == '\U{1680}' || ('\U{2000}' <= c <= '\U{200A}') ||
    c == '\U{2028}' || c == '\U{2029}' || c == '\U{202F}' || c == '\U{205F}' ||
    c == '\U{3000}' || c == '\U{FEFF}'
  }

  /** `s.trim()` is the empty string. */
  predicate IsBlank(s: string)
  {
    forall i :: 0 <= i < |s| ==> IsJsWhitespace(s[i])
  }

  /** `parseFloat(s)` for texts whose numeric prefix is an unsigned whole number:
      leading white space is skipped, then the longest run of digits is read;
      no digit at all gives NaN. */
  function ParseFloat(s: string): (n: Number)
    ensures n == NaN <==> SkipWhitespace(s) == [] || !IsDigit(SkipWhitespace(s)[0])
  {
    var d := LeadingDigits(SkipWhitespace(s));
    if d == [] then NaN else Num(DigitsValue(d))
  }

  /** `s` with its leading JavaScript white space removed. */
  function SkipWhitespace(s: string): (t: string)
    ensures |t| <= |s| && t == s[|s| - |t|..]
    ensures t != [] ==> !IsJsWhitespace(t[0])
    ensures IsBlank(s[..|s| - |t|])
  {
    if s != [] && IsJsWhitespace(s[0]) then SkipWhitespace(s[1..]) else s
  }

  /** A run of digits reads back as its value. */
  lemma {:induction false} ParseFloatOfDigits(d: string)
    requires d != [] && AllDigits(d)
    ensures ParseFloat(d) == Num(DigitsValue(d))
  {
    assert SkipWhitespace(d) == d;
    LeadingDigitsOfDigits(d);
  }

  lemma {:induction false} LeadingDigitsOfDigits(d: string)
    requires AllDigits(d)
    ensures LeadingDigits(d) == d
  {
    if d != [] {
      LeadingDigitsOfDigits(d[1..]);
      assert [d[0]] + d[1..] == d;
    }
  }

  /** The digit character for a value below ten. */
  function DigitChar(d: nat): (c: char)
    requires d < 10
    ensures IsDigit(c) && DigitValue(c) == d
  {
    ('0' as int + d) as char
  }

  /** The decimal text of `n`, without leading zeros (as `String(n)` writes it). */
  function DecimalText(n: nat): (t: string)
    ensures t != [] && AllDigits(t)
  {
    if n < 10 then [DigitChar(n)] else DecimalText(n / 10) + [DigitChar(n % 10)]
  }

  /** Reading the decimal text of `n` gives `n` back. */
  lemma {:induction false} DecimalTextValue(n: nat)
    ensures DigitsValue(DecimalText(n)) == n
  {
    var t := DecimalText(n);
    if n < 10 {
      assert t[..0] == [];
    } else {
      DecimalTextValue(n / 10);
      assert t[..|t| - 1] == DecimalText(n / 10);
    }
  }

  /** Python's `sep.join(parts)`: the parts with `sep` between neighbours;
      no parts give the empty text. */
  function JoinWith(parts: seq<string>, sep: string): (r: string)
    ensures |parts| == 1 ==> r == parts[0]
    ensures forall c :: c !in sep && (forall i :: 0 <= i < |parts| ==> c !in parts[i]) ==> c !in r
  {
    if parts == [] then []
    else if |parts| == 1 then parts[0]
    else parts[0] + sep + JoinWith(parts[1..], sep)
  }

  /** The texts of `lines`, each followed by a line break. */
  function Lines(lines: seq<string>): (r: string)
    ensures |r| >= |lines|
    ensures r == [] <==> lines == []
    ensures r != [] ==> r[|r| - 1] == '\n'
  {
    if lines == [] then [] else lines[0] + "\n" + Lines(lines[1..])
  }

  /** Splitting text made of lines free of line breaks gives the lines back,
      followed by the empty text after the last break. */
  lemma {:induction false} SplitLines(lines: seq<string>)
    requires forall i :: 0 <= i < |lines| ==> '\n' !in lines[i]
    ensures Split(Lines(lines), '\n') == lines + [[]]
  {
    if lines == [] {
    } else {
      SplitLines(lines[1..]);
      SplitAfterPart(lines[0], Lines(lines[1..]), '\n');
      assert [lines[0]] + (lines[1..] + [[]]) == lines + [[]];
    }
  }
}
