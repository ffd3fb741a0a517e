/**
  The Python string operations the generator relies on: `str.strip`,
  `str.split` with a one-character separator, line splitting as a text-mode
  file yields lines, the `{n:0Wd}` zero-padded integer format and the base-10
  `int(str)` parser.
*/
module Text {
  import opened Wrappers

  /** The characters for which Python's `str.isspace()` holds. */
  predicate IsPythonSpace(c: char) {
    || c == ' '
    || '\U{9}' <= c <= '\U{D}'
    || '\U{1C}' <= c <= '\U{1F}'
    || c == '\U{85}' || c == '\U{A0}' || c == '\U{1680}'
    || '\U{2000}' <= c <= '\U{200A}'
    || c == '\U{2028}' || c == '\U{2029}' || c == '\U{202F}' || c == '\U{205F}' || c == '\U{3000}'
  }

  /** `str.lstrip`: drop leading characters satisfying `drop`. */
  function LStrip(s: string, drop: char -> bool): (r: string)
    ensures |r| <= |s| && r == s[|s| - |r|..]
    ensures |r| > 0 ==> !drop(r[0])
    ensures forall i :: 0 <= i < |s| - |r| ==> drop(s[i])
    decreases |s|
  {
    if |s| > 0 && drop(s[0]) then
      var r := LStrip(s[1..], drop);
      assert forall i :: 1 <= i < |s| - |r| ==> s[i] == s[1..][i - 1];
      r
    else s
  }

  /** `str.rstrip`: drop trailing characters satisfying `drop`. */
  function RStrip(s: string, drop: char -> bool): (r: string)
    ensures |r| <= |s| && r == s[..|r|]
    ensures |r| > 0 ==> !drop(r[|r| - 1])
    ensures forall i :: |r| <= i < |s| ==> drop(s[i])
    decreases |s|
  {
    if |s| > 0 && drop(s[|s| - 1]) then
      var r := RStrip(s[..|s| - 1], drop);
      assert forall i :: |r| <= i < |s| - 1 ==> s[i] == s[..|s| - 1][i];
      r
    else s
  }

  /**
    `str.strip`: the longest middle slice whose first and last characters are
    kept, every character outside it being dropped.
  */
  function Strip(s: string, drop: char -> bool): (r: string)
    ensures |r| <= |s|
    ensures |r| > 0 ==> !drop(r[0]) && !drop(r[|r| - 1])
  {
    RStrip(LStrip(s, drop), drop)
  }

  /** `strip` leaves nothing exactly when every character is one it drops. */
  lemma StripEmpty(s: string, drop: char -> bool)
    ensures |Strip(s, drop)| == 0 <==> forall i :: 0 <= i < |s| ==> drop(s[i])
  {
    var left := LStrip(s, drop);
    assert |RStrip(left, drop)| == 0 ==> |left| == 0;
  }

  /** A string whose ends are kept is its own strip. */
  lemma StripUnchanged(s: string, drop: char -> bool)
    requires |s| > 0 ==> !drop(s[0]) && !drop(s[|s| - 1])
    ensures Strip(s, drop) == s
  {
    assert LStrip(s, drop) == s;
    assert RStrip(s, drop) == s;
  }

  /** A string whose first character is kept is its own left strip. */
  lemma StripUnchangedLeft(s: string, drop: char -> bool)
    requires |s| > 0 && !drop(s[0])
    ensures LStrip(s, drop) == s
  {
  }

  /** A string whose last character is kept is its own right strip. */
  lemma StripUnchangedRight(s: string, drop: char -> bool)
    requires |s| > 0 && !drop(s[|s| - 1])
    ensures RStrip(s, drop) == s
  {
  }

  /** Stripping a stripped string changes nothing. */
  lemma StripIdempotent(s: string, drop: char -> bool)
    ensures Strip(Strip(s, drop), drop) == Strip(s, drop)
  {
    StripUnchanged(Strip(s, drop), drop);
  }

  /** What follows a prefix is the rest. */
  lemma DropPrefix(x: string, y: string)
    ensures (x + y)[|x|..] == y
  {
  }

  /** Python's `key in s` on strings: `key` occurs somewhere in `s`. */
  predicate InString(key: string, s: string)
    decreases |s|
  {
    |key| <= |s| && (s[..|key|] == key || InString(key, s[1..]))
  }

  /** An occurrence of `key` at any position of `s` makes `key in s` hold. */
  lemma {:induction false} InStringAt(key: string, s: string, i: nat)
    requires i + |key| <= |s|
    ensures s[i..i + |key|] == key ==> InString(key, s)
    decreases i
  {
    if i > 0 {
      assert s[1..][i - 1..i - 1 + |key|] == s[i..i + |key|];
      InStringAt(key, s[1..], i - 1);
    }
  }

  /** `sep.join(parts)` for a one-character separator. */
  function JoinWith(parts: seq<string>, sep: char): string
    requires |parts| >= 1
    decreases |parts|
  {
    if |parts| == 1 then parts[0] else parts[0] + [sep] + JoinWith(parts[1..], sep)
  }

  /**
    `s.split(sep)` for a one-character separator: the pieces between
    separators, empty pieces included, one more piece than separators.
  */
  function SplitOn(s: string, sep: char): (parts: seq<string>)
    ensures |parts| >= 1
    ensures forall i :: 0 <= i < |parts| ==> sep !in parts[i]
    decreases |s|
  {
    if |s| == 0 then
      [""]
    else
      var rest := SplitOn(s[1..], sep);
      if s[0] == sep then
        [""] + rest
      else
        [[s[0]] + rest[0]] + rest[1..]
  }

  /** Strings equal around a common prefix and suffix are equal in the middle. */
  lemma CancelAround(p: string, x: string, y: string, q: string)
    requires p + x + q == p + y + q
    ensures x == y
  {
    var l := p + x + q;
    assert |x| == |y|;
    assert x == l[|p|..|p| + |x|];
    assert y == (p + y + q)[|p|..|p| + |y|];
  }

  lemma Assoc(a: string, b: string, c: string)
    ensures a + b + c == a + (b + c)
  {
  }

  /** Concatenation regroups to the left. */
  lemma Regroup(a: string, b: string, c: string, d: string)
    ensures a + ((b + c) + d) == a + b + c + d
  {
  }

  /** The number of occurrences of `c` in `s`. */
  function Count(s: string, c: char): nat {
    multiset(s)[c]
  }

  /** A split has one more piece than the string has separators. */
  lemma {:induction false} SplitOnCount(s: string, sep: char)
    ensures |SplitOn(s, sep)| == Count(s, sep) + 1
    decreases |s|
  {
    if |s| > 0 {
      assert s == [s[0]] + s[1..];
      SplitOnCount(s[1..], sep);
    }
  }

  /** One step of `SplitOn`, stated for a string written as a head and a tail. */
  lemma SplitOnCons(c: char, x: string, sep: char)
    ensures var rest := SplitOn(x, sep);
            SplitOn([c] + x, sep) == if c == sep then [""] + rest else [[c] + rest[0]] + rest[1..]
  {
    assert ([c] + x)[1..] == x;
  }

  /** A leading empty piece joins to a leading separator. */
  lemma JoinEmptyHead(parts: seq<string>, sep: char)
    requires |parts| >= 1
    ensures JoinWith([""] + parts, sep) == [sep] + JoinWith(parts, sep)
  {
    assert ([""] + parts)[1..] == parts;
  }

  /** A character put in front of the first piece is in front of the join. */
  lemma JoinPrepend(c: char, parts: seq<string>, sep: char)
    requires |parts| >= 1
    ensures JoinWith([[c] + parts[0]] + parts[1..], sep) == [c] + JoinWith(parts, sep)
  {
    var longer := [[c] + parts[0]] + parts[1..];
    if |parts| > 1 {
      assert longer[1..] == parts[1..];
    }
  }

  /** Joining the pieces of a split gives back the string. */
  lemma {:induction false} JoinSplit(s: string, sep: char)
    ensures JoinWith(SplitOn(s, sep), sep) == s
    decreases |s|
  {
    if |s| > 0 {
      var x := s[1..];
      assert s == [s[0]] + x;
      SplitOnCons(s[0], x, sep);
      JoinSplit(x, sep);
      if s[0] == sep {
        JoinEmptyHead(SplitOn(x, sep), sep);
      } else {
        JoinPrepend(s[0], SplitOn(x, sep), sep);
      }
    }
  }

  /** Splitting a join of separator-free pieces gives back the pieces. */
  lemma {:induction false} SplitJoin(parts: seq<string>, sep: char)
    requires |parts| >= 1
    requires forall i :: 0 <= i < |parts| ==> sep !in parts[i]
    ensures SplitOn(JoinWith(parts, sep), sep) == parts
    decreases |parts|, |parts[0]|
  {
    var head := parts[0];
    if |head| > 0 {
      var shorter := [head[1..]] + parts[1..];
      assert head[0] in head;
      assert forall i :: 0 <= i < |shorter| ==> sep !in shorter[i] by {
        forall i | 0 <= i < |shorter|
          ensures sep !in shorter[i]
        {
          if i == 0 {
            assert head == [head[0]] + head[1..];
          } else {
            assert shorter[i] == parts[i];
          }
        }
      }
      SplitJoin(shorter, sep);
      assert parts == [[head[0]] + shorter[0]] + shorter[1..] by {
        assert head == [head[0]] + head[1..];
      }
      JoinPrepend(head[0], shorter, sep);
      SplitOnCons(head[0], JoinWith(shorter, sep), sep);
    } else if |parts| > 1 {
      SplitJoin(parts[1..], sep);
      assert parts == [""] + parts[1..];
      JoinEmptyHead(parts[1..], sep);
      SplitOnCons(sep, JoinWith(parts[1..], sep), sep);
    }
  }

  /** Joining one more piece adds a separator and that piece. */
  lemma {:induction false} JoinWithAppend(parts: seq<string>, piece: string, sep: char)
    requires |parts| >= 1
    ensures JoinWith(parts + [piece], sep) == JoinWith(parts, sep) + [sep] + piece
    decreases |parts|
  {
    var all := parts + [piece];
    assert all[0] == parts[0] && all[1..] == parts[1..] + [piece];
    if |parts| > 1 {
      JoinWithAppend(parts[1..], piece, sep);
    }
  }

  /** A separator and a separator-free piece at the end split off as one more piece. */
  lemma SplitAppend(s: string, piece: string, sep: char)
    requires sep !in piece
    ensures SplitOn(s + [sep] + piece, sep) == SplitOn(s, sep) + [piece]
  {
    var parts := SplitOn(s, sep) + [piece];
    JoinSplit(s, sep);
    JoinWithAppend(SplitOn(s, sep), piece, sep);
    assert forall i :: 0 <= i < |parts| ==> sep !in parts[i] by {
      forall i | 0 <= i < |parts|
        ensures sep !in parts[i]
      {
        if i < |parts| - 1 {
          assert parts[i] == SplitOn(s, sep)[i];
        }
      }
    }
    SplitJoin(parts, sep);
  }

  /** A piece without the separator splits as itself. */
  lemma SplitOne(a: string, sep: char)
    requires sep !in a
    ensures SplitOn(a, sep) == [a]
  {
    SplitJoin([a], sep);
  }

  lemma SplitTwo(a: string, b: string, sep: char)
    requires sep !in a && sep !in b
    ensures SplitOn(a + [sep] + b, sep) == [a, b]
  {
    SplitAppend(a, b, sep);
    SplitOne(a, sep);
  }

  lemma SplitThree(a: string, b: string, c: string, sep: char)
    requires sep !in a && sep !in b && sep !in c
    ensures SplitOn(a + [sep] + b + [sep] + c, sep) == [a, b, c]
  {
    SplitAppend(a + [sep] + b, c, sep);
    SplitTwo(a, b, sep);
  }

  /**
    Text-mode reading with universal newlines: "\r\n" and a lone "\r" both
    become "\n".
  */
  function TranslateNewlines(s: string): (r: string)
    ensures '\r' !in r
    decreases |s|
  {
    if |s| == 0 then ""
    else if s[0] == '\r' && |s| > 1 && s[1] == '\n' then "\n" + TranslateNewlines(s[2..])
    else if s[0] == '\r' then "\n" + TranslateNewlines(s[1..])
    else [s[0]] + TranslateNewlines(s[1..])
  }

  /** Text without a carriage return passes universal-newline translation unchanged. */
  lemma {:induction false} TranslateNewlinesPlain(s: string)
    requires '\r' !in s
    ensures TranslateNewlines(s) == s
    decreases |s|
  {
    if |s| > 0 {
      assert s[0] in s;
      assert forall c :: c in s[1..] ==> c in s;
      TranslateNewlinesPlain(s[1..]);
      assert s == [s[0]] + s[1..];
    }
  }

  /**
    The lines of a text file, without their terminators. Python's file
    iterator yields each line with its "\n"; it yields no final empty line,
    which a caller that skips blank lines cannot tell apart.
  */
  function Lines(text: string): (lines: seq<string>)
    ensures |lines| >= 1
    ensures forall i :: 0 <= i < |lines| ==> '\n' !in lines[i] && '\r' !in lines[i]
  {
    var translated := TranslateNewlines(text);
    var lines := SplitOn(translated, '\n');
    assert forall i :: 0 <= i < |lines| ==> '\r' !in lines[i] by {
      JoinSplit(translated, '\n');
      forall i | 0 <= i < |lines|
        ensures '\r' !in lines[i]
      {
        JoinContainsPart(lines, '\n', i);
      }
    }
    lines
  }

  /** Every piece of a join occurs inside the joined string. */
  lemma {:induction false} JoinContainsPart(parts: seq<string>, sep: char, i: nat)
    requires |parts| >= 1 && i < |parts|
    ensures forall c :: c in parts[i] ==> c in JoinWith(parts, sep)
    decreases |parts|
  {
    if |parts| > 1 {
      var rest := JoinWith(parts[1..], sep);
      assert JoinWith(parts, sep) == parts[0] + [sep] + rest;
      if i > 0 {
        JoinContainsPart(parts[1..], sep, i - 1);
        assert parts[1..][i - 1] == parts[i];
      }
    }
  }

  predicate IsDigit(c: char) {
    '0' <= c <= '9'
  }

  predicate AllDigits(s: string) {
    forall i :: 0 <= i < |s| ==> IsDigit(s[i])
  }

  function DigitChar(d: nat): (c: char)
    requires d < 10
    ensures IsDigit(c)
  {
    (48 + d) as char
  }

  function DigitValue(c: char): (d: nat)
    requires IsDigit(c)
    ensures d < 10 && DigitChar(d) == c
  {
    (c as int - 48) as nat
  }

  /** The value of a string of decimal digits; the empty string is 0. */
  function DigitsValue(s: string): nat
    requires AllDigits(s)
    decreases |s|
  {
    if |s| == 0 then 0 else DigitsValue(s[..|s| - 1]) * 10 + DigitValue(s[|s| - 1])
  }

  /** `str(n)` for a natural number: decimal digits, no leading zero. */
  function NatToString(n: nat): (s: string)
    ensures |s| >= 1 && AllDigits(s)
    ensures |s| > 1 ==> s[0] != '0'
    decreases n
  {
    if n < 10 then [DigitChar(n)] else NatToString(n / 10) + [DigitChar(n % 10)]
  }

  /** Reading the digits of `str(n)` gives back `n`. */
  lemma {:induction false} NatToStringValue(n: nat)
    ensures DigitsValue(NatToString(n)) == n
    decreases n
  {
    if n >= 10 {
      NatToStringValue(n / 10);
      var s := NatToString(n);
      assert s[..|s| - 1] == NatToString(n / 10);
    }
  }

  function Zeros(k: nat): (z: string)
    ensures |z| == k && AllDigits(z)
    ensures forall i :: 0 <= i < k ==> z[i] == '0'
  {
    seq(k, i => '0')
  }

  /** Leading zeros do not change the value of a digit string. */
  lemma {:induction false} LeadingZerosValue(k: nat, s: string)
    requires AllDigits(s)
    ensures DigitsValue(Zeros(k) + s) == DigitsValue(s)
    decreases |s|
  {
    var t := Zeros(k) + s;
    if |s| == 0 {
      assert t == Zeros(k);
      ZerosValue(k);
    } else {
      assert t[..|t| - 1] == Zeros(k) + s[..|s| - 1];
      LeadingZerosValue(k, s[..|s| - 1]);
    }
  }

  lemma {:induction false} ZerosValue(k: nat)
    ensures DigitsValue(Zeros(k)) == 0
  {
    if k > 0 {
      assert Zeros(k)[..k - 1] == Zeros(k - 1);
      ZerosValue(k - 1);
    }
  }

  /** `s` left-padded with '0' to at least `width` characters. */
  function ZeroPad(s: string, width: nat): (r: string)
    ensures |r| == if |s| < width then width else |s|
    ensures r == Zeros(|r| - |s|) + s
  {
    if |s| < width then Zeros(width - |s|) + s else s
  }

  /**
    Python's `format(n, '0{width}d')`: the decimal digits of |n|, a '-' in
    front of negatives, zero-padded after the sign to at least `width`
    characters in all. Longer numbers are never truncated.
  */
  function FormatInt(n: int, width: nat): (s: string)
    ensures |s| >= width
    ensures n >= 0 <==> AllDigits(s)
    ensures n < 0 <==> |s| > 0 && s[0] == '-'
    ensures |s| > 0 && IsDigit(s[|s| - 1])
  {
    var magnitude: nat := if n >= 0 then n else -n;
    var digits := NatToString(magnitude);
    var body := ZeroPad(digits, if n >= 0 then width else if width > 0 then width - 1 else 0);
    assert body[|body| - 1] == digits[|digits| - 1];
    if n >= 0 then
      body
    else
      assert !IsDigit(("-" + body)[0]);
      assert ("-" + body)[|body|] == body[|body| - 1];
      "-" + body
  }

  /** `format(n, '0{width}d')` has exactly `width` characters when `n` fits. */
  lemma FormatIntWidth(n: nat, width: nat)
    requires 1 <= width && n < Pow10(width)
    ensures |FormatInt(n, width)| == width
  {
    NatToStringLength(n, width);
  }

  function Pow10(k: nat): (p: nat)
    ensures p >= 1
  {
    if k == 0 then 1 else 10 * Pow10(k - 1)
  }

  /** A number below 10^k has at most k digits. */
  lemma {:induction false} NatToStringLength(n: nat, k: nat)
    requires 1 <= k && n < Pow10(k)
    ensures |NatToString(n)| <= k
    decreases k
  {
    if n >= 10 {
      NatToStringLength(n / 10, k - 1);
    }
  }

  /** Digits with single underscores between them, as Python's `int()` accepts. */
  predicate UnderscoredDigits(s: string) {
    && |s| > 0
    && IsDigit(s[0]) && IsDigit(s[|s| - 1])
    && (forall i :: 0 <= i < |s| ==> IsDigit(s[i]) || s[i] == '_')
    && (forall i :: 0 <= i < |s| - 1 ==> !(s[i] == '_' && s[i + 1] == '_'))
  }

  function RemoveUnderscores(s: string): (r: string)
    requires forall i :: 0 <= i < |s| ==> IsDigit(s[i]) || s[i] == '_'
    ensures AllDigits(r)
    ensures AllDigits(s) ==> r == s
    decreases |s|
  {
    if |s| == 0 then ""
    else if s[0] == '_' then RemoveUnderscores(s[1..])
    else [s[0]] + RemoveUnderscores(s[1..])
  }

  /**
    Python's `int(s)` for a string in base 10: surrounding whitespace is
    ignored, one optional sign, then digits with single underscores between
    them. `None` where Python raises ValueError.
  */
  function ParseInt(s: string): (r: Option<int>)
    ensures r.Some? ==> |Strip(s, IsPythonSpace)| > 0
  {
    ParseSigned(Strip(s, IsPythonSpace))
  }

  /** `int()` on a string without surrounding whitespace. */
  function ParseSigned(t: string): (r: Option<int>)
    ensures r.Some? ==> |t| > 0
    ensures r.Some? && r.value < 0 ==> t[0] == '-'
  {
    var negative := |t| > 0 && t[0] == '-';
    var body := if |t| > 0 && (t[0] == '-' || t[0] == '+') then t[1..] else t;
    if UnderscoredDigits(body) then
      var magnitude: int := DigitsValue(RemoveUnderscores(body));
      Some(if negative then -magnitude else magnitude)
    else
      None
  }

  /** A digit string, possibly zero-padded, reads as its value. */
  lemma ParseDigits(d: string)
    requires |d| > 0 && AllDigits(d)
    ensures ParseSigned(d) == Some(DigitsValue(d))
    ensures ParseSigned("-" + d) == Some(-(DigitsValue(d) as int))
  {
    ParsePlainDigits(d);
    ParseNegatedDigits(d);
  }

  lemma ParsePlainDigits(d: string)
    requires |d| > 0 && AllDigits(d)
    ensures ParseSigned(d) == Some(DigitsValue(d))
  {
    DigitsUnderscored(d);
    assert d[0] != '-' && d[0] != '+' by {
      assert IsDigit(d[0]);
    }
  }

  lemma ParseNegatedDigits(d: string)
    requires |d| > 0 && AllDigits(d)
    ensures ParseSigned("-" + d) == Some(-(DigitsValue(d) as int))
  {
    var t := "-" + d;
    assert t[0] == '-' && t[1..] == d;
    ParseNegativeBody(t, d);
  }

  /** A '-' followed by plain digits reads as the negated digits. */
  lemma ParseNegativeBody(t: string, d: string)
    requires |d| > 0 && AllDigits(d)
    requires |t| > 0 && t[0] == '-' && t[1..] == d
    ensures ParseSigned(t) == Some(-(DigitsValue(d) as int))
  {
    DigitsUnderscored(d);
  }

  /** Plain digits are underscored digits with no underscore to remove. */
  lemma DigitsUnderscored(d: string)
    requires |d| > 0 && AllDigits(d)
    ensures UnderscoredDigits(d) && RemoveUnderscores(d) == d
  {
    assert IsDigit(d[0]) && IsDigit(d[|d| - 1]);
    assert forall i :: 0 <= i < |d| - 1 ==> IsDigit(d[i]);
  }

  /** The digits `format(n, '0{width}d')` writes after any sign: they read as |n|. */
  lemma PaddedDigitsValue(magnitude: nat, width: nat)
    ensures var digits := ZeroPad(NatToString(magnitude), width);
            |digits| > 0 && AllDigits(digits) && DigitsValue(digits) == magnitude
  {
    var plain := NatToString(magnitude);
    LeadingZerosValue(|ZeroPad(plain, width)| - |plain|, plain);
    NatToStringValue(magnitude);
  }

  /** A string without surrounding whitespace goes to `int()` as it is. */
  lemma ParseIntTrimmed(s: string)
    requires |s| > 0 ==> !IsPythonSpace(s[0]) && !IsPythonSpace(s[|s| - 1])
    ensures ParseInt(s) == ParseSigned(s)
  {
    StripUnchanged(s, IsPythonSpace);
  }

  /** The digits `format(n, '0{width}d')` writes for `n >= 0` read back as `n`. */
  lemma ParseSignedFormatNat(n: nat, width: nat)
    ensures ParseSigned(FormatInt(n, width)) == Some(n)
  {
    PaddedDigitsValue(n, width);
    ParseDigits(FormatInt(n, width));
  }

  /** The '-' and digits `format(n, '0{width}d')` writes for `n < 0` read back as `n`. */
  lemma ParseSignedFormatNegative(n: int, width: nat)
    requires n < 0
    ensures ParseSigned(FormatInt(n, width)) == Some(n)
  {
    var magnitude: nat := -n;
    var rest: nat := if width > 0 then width - 1 else 0;
    var digits := ZeroPad(NatToString(magnitude), rest);
    FormatNegative(n, width, magnitude, rest);
    PaddedDigitsValue(magnitude, rest);
    ParseNegatedDigits(digits);
  }

  /** `format(n, '0{width}d')` for `n < 0` is '-' and the magnitude padded to one less. */
  lemma FormatNegative(n: int, width: nat, magnitude: nat, rest: nat)
    requires n < 0 && magnitude == -n && rest == if width > 0 then width - 1 else 0
    ensures FormatInt(n, width) == "-" + ZeroPad(NatToString(magnitude), rest)
  {
    assert (if n >= 0 then n else -n) == magnitude;
    assert (if n >= 0 then width else if width > 0 then width - 1 else 0) == rest;
  }

  /** Reading back `format(n, '0{width}d')` with `int()` gives `n`. */
  lemma FormatIntRoundTrip(n: int, width: nat)
    ensures ParseInt(FormatInt(n, width)) == Some(n)
  {
    ParseIntTrimmed(FormatInt(n, width));
    if n >= 0 {
      ParseSignedFormatNat(n, width);
    } else {
      ParseSignedFormatNegative(n, width);
    }
  }

  /** Different numbers have different padded forms. */
  lemma FormatIntInjective(a: int, b: int, width: nat)
    requires FormatInt(a, width) == FormatInt(b, width)
    ensures a == b
  {
    FormatIntRoundTrip(a, width);
    FormatIntRoundTrip(b, width);
  }

  /** `int("2")` is 2. */
  lemma ParseIntDigit()
    ensures ParseInt("2") == Some(2)
  {
    var d := "2";
    ParseIntDigits(d);
    assert d[..0] == "";
  }

  /** A plain digit string reads as its value. */
  lemma ParseIntDigits(d: string)
    requires |d| > 0 && AllDigits(d)
    ensures ParseInt(d) == Some(DigitsValue(d))
  {
    assert IsDigit(d[0]) && IsDigit(d[|d| - 1]);
    ParseIntTrimmed(d);
    ParsePlainDigits(d);
  }

  /** `int("blah")` raises ValueError. */
  lemma ParseIntRejectsWord()
    ensures ParseInt("blah") == None
  {
    var s := "blah";
    RejectsStrayCharacter(s, 0);
  }

  /** `int("2.1")` raises ValueError: a decimal point is not a digit. */
  lemma ParseIntRejectsDecimal()
    ensures ParseInt("2.1") == None
  {
    var s := "2.1";
    RejectsStrayCharacter(s, 1);
  }

  /**
    A string without surrounding whitespace that holds a character other than
    a digit or an underscore, past any leading sign, is not an integer.
  */
  lemma RejectsStrayCharacter(s: string, i: nat)
    requires i < |s| && !IsPythonSpace(s[0]) && !IsPythonSpace(s[|s| - 1])
    requires !IsDigit(s[i]) && s[i] != '_'
    requires i == 0 ==> s[0] != '-' && s[0] != '+'
    ensures ParseInt(s) == None
  {
    ParseIntTrimmed(s);
    if s[0] == '-' || s[0] == '+' {
      assert s[1..][i - 1] == s[i];
    }
  }

  /** A character that is neither the separator nor in any part is not in the join. */
  lemma {:induction false} JoinWithAvoids(parts: seq<string>, sep: char, c: char)
    requires |parts| >= 1 && c != sep
    requires forall i :: 0 <= i < |parts| ==> c !in parts[i]
    ensures c !in JoinWith(parts, sep)
    decreases |parts|
  {
    if |parts| > 1 {
      assert forall i :: 0 <= i < |parts| - 1 ==> parts[1..][i] == parts[i + 1];
      JoinWithAvoids(parts[1..], sep, c);
    }
  }

  /** Stripping a string whose ends are kept, followed by one dropped space, removes just that space. */
  lemma StripTrailingSpace(t: string, drop: char -> bool)
    requires |t| > 0 && !drop(t[0]) && !drop(t[|t| - 1]) && drop(' ')
    ensures Strip(t + " ", drop) == t
  {
    var s := t + " ";
    assert LStrip(s, drop) == s;
    assert s[..|s| - 1] == t;
    StripUnchangedRight(t, drop);
  }

  /**
    Newline-terminated lines: one more line at the end of a join that ends
    with an empty part is that line and a newline.
  */
  lemma JoinLinesAppend(lines: seq<string>, line: string, sep: char)
    ensures JoinWith(lines + [line] + [""], sep) == JoinWith(lines + [""], sep) + line + [sep]
  {
    JoinWithAppend(lines + [line], "", sep);
    if |lines| == 0 {
      assert lines + [line] == [line];
      assert lines + [""] == [""];
    } else {
      JoinWithAppend(lines, line, sep);
      JoinWithAppend(lines, "", sep);
    }
  }
}
