/** The parts of Python's `str` and `int` that the bot and its scrape tasks rely on:
    `strip`, `isdigit`, `in`, `endswith`, `replace(" ", "_")`, `split(sep)`, `str(n)`
    and `int(s)`. Only ASCII digits are digits here (see the README). */
module Text {
  import opened Wrappers

  // ---------------------------------------------------------------- whitespace

  /** The characters for which Python's `str.isspace()` holds, that is, what `str.strip()` removes. */
  predicate IsSpace(c: char) {
    || c == ' '
    || ('\t' <= c <= '\r')
    || ('\U{1C}' <= c <= '\U{1F}')
    || c == '\U{85}' || c == '\U{A0}' || c == '\U{1680}'
    || ('\U{2000}' <= c <= '\U{200A}')
    || c == '\U{2028}' || c == '\U{2029}' || c == '\U{202F}' || c == '\U{205F}' || c == '\U{3000}'
  }

  /** `s.lstrip()`. */
  function TrimStart(s: string): string {
    if s != [] && IsSpace(s[0]) then TrimStart(s[1..]) else s
  }

  /** `s.rstrip()`. */
  function TrimEnd(s: string): string {
    if s != [] && IsSpace(s[|s| - 1]) then TrimEnd(s[..|s| - 1]) else s
  }

  /** `lstrip()` drops the leading whitespace and nothing else. */
  lemma {:induction false} TrimStartDrops(s: string)
    ensures var r := TrimStart(s);
      && |r| <= |s| && r == s[|s| - |r|..]
      && (r == [] || !IsSpace(r[0]))
      && forall i :: 0 <= i < |s| - |r| ==> IsSpace(s[i])
  {
    if s != [] && IsSpace(s[0]) {
      var t := s[1..];
      TrimStartDrops(t);
      var r := TrimStart(t);
      assert t[|t| - |r|..] == s[|s| - |r|..];
      forall i | 0 <= i < |s| - |r| ensures IsSpace(s[i]) {
        if i > 0 { assert s[i] == t[i - 1]; }
      }
    }
  }

  /** `rstrip()` drops the trailing whitespace and nothing else. */
  lemma {:induction false} TrimEndDrops(s: string)
    ensures var r := TrimEnd(s);
      && |r| <= |s| && r == s[..|r|]
      && (r == [] || !IsSpace(r[|r| - 1]))
      && forall i :: |r| <= i < |s| ==> IsSpace(s[i])
  {
    if s != [] && IsSpace(s[|s| - 1]) {
      var t := s[..|s| - 1];
      TrimEndDrops(t);
      var r := TrimEnd(t);
      assert t[..|r|] == s[..|r|];
      forall i | |r| <= i < |s| ensures IsSpace(s[i]) {
        if i < |t| { assert s[i] == t[i]; }
      }
    }
  }

  /** `s.strip()`. */
  function Strip(s: string): string {
    TrimEnd(TrimStart(s))
  }

  /** A string without whitespace at either end is its own `strip()`. */
  lemma StripKeeps(s: string)
    requires s == [] || (!IsSpace(s[0]) && !IsSpace(s[|s| - 1]))
    ensures Strip(s) == s
  {
  }

  // ---------------------------------------------------------------- digits

  predicate IsDigit(c: char) {
    '0' <= c <= '9'
  }

  predicate AllDigits(s: string) {
    forall i :: 0 <= i < |s| ==> IsDigit(s[i])
  }

  /** `s.isdigit()`: false for the empty string. */
  predicate IsDecimal(s: string) {
    |s| > 0 && AllDigits(s)
  }

  function DigitValue(c: char): nat
    requires IsDigit(c)
  {
    c as int - '0' as int
  }

  function DigitChar(d: nat): (c: char)
    requires d < 10
    ensures IsDigit(c) && DigitValue(c) == d
  {
    ('0' as int + d) as char
  }

  /** The number a string of decimal digits denotes. */
  function DigitsValue(s: string): nat
    requires AllDigits(s)
    decreases |s|
  {
    if s == [] then 0 else DigitsValue(s[..|s| - 1]) * 10 + DigitValue(s[|s| - 1])
  }

  function Pow10(n: nat): nat {
    if n == 0 then 1 else 10 * Pow10(n - 1)
  }

  /** The decimal digits of `n`, padded on the left with '0' to at least `width` characters:
      strftime's `%02d`/`%04d`, and `str(n)` when `width` is 1. */
  function ZeroPad(n: nat, width: nat): (r: string)
    ensures AllDigits(r)
    decreases n + width
  {
    if n == 0 && width == 0 then ""
    else ZeroPad(n / 10, if width == 0 then 0 else width - 1) + [DigitChar(n % 10)]
  }

  /** Reading back a padded number gives the number. */
  lemma {:induction false} ZeroPadValue(n: nat, width: nat)
    ensures DigitsValue(ZeroPad(n, width)) == n
    decreases n + width
  {
    if !(n == 0 && width == 0) {
      var w' := if width == 0 then 0 else width - 1;
      var p := ZeroPad(n / 10, w');
      ZeroPadValue(n / 10, w');
      assert ZeroPad(n, width) == p + [DigitChar(n % 10)];
      assert (p + [DigitChar(n % 10)])[..|p|] == p;
    }
  }

  /** The padding reaches the requested width, and no further while the number fits. */
  lemma {:induction false} ZeroPadLength(n: nat, width: nat)
    ensures |ZeroPad(n, width)| >= width
    ensures n < Pow10(width) ==> |ZeroPad(n, width)| == width
    decreases n + width
  {
    if !(n == 0 && width == 0) {
      var w' := if width == 0 then 0 else width - 1;
      ZeroPadLength(n / 10, w');
      if width > 0 && n < Pow10(width) {
        assert n / 10 < Pow10(w');
      }
    }
  }

  /** Python's `str(n)` for an int. */
  function IntToDecimal(n: int): string {
    if n < 0 then "-" + ZeroPad(-n, 1) else ZeroPad(n, 1)
  }

  // ---------------------------------------------------------------- substrings

  predicate StartsWith(s: string, prefix: string) {
    |prefix| <= |s| && s[..|prefix|] == prefix
  }

  /** `s.endswith(suffix)`. */
  predicate EndsWith(s: string, suffix: string) {
    |suffix| <= |s| && s[|s| - |suffix|..] == suffix
  }

  /** `part in s`: `part` occurs somewhere in `s` (the empty string occurs in every string). */
  predicate Contains(s: string, part: string)
    decreases |s|
  {
    StartsWith(s, part) || (s != [] && Contains(s[1..], part))
  }

  /** A string that contains `part` is at least as long as `part`. */
  lemma {:induction false} ContainsLength(s: string, part: string)
    requires Contains(s, part)
    ensures |part| <= |s|
    decreases |s|
  {
    if !StartsWith(s, part) {
      ContainsLength(s[1..], part);
    }
  }

  // ---------------------------------------------------------------- replace

  /** `s.replace(" ", "_")`: every space becomes an underscore, everything else is kept in place. */
  function ReplaceSpaces(s: string): (r: string)
    ensures |r| == |s|
    ensures forall i :: 0 <= i < |s| ==> r[i] == if s[i] == ' ' then '_' else s[i]
  {
    if s == [] then [] else [if s[0] == ' ' then '_' else s[0]] + ReplaceSpaces(s[1..])
  }

  /** Replacing a second time changes nothing: the first pass leaves no space behind. */
  lemma ReplaceSpacesIdempotent(s: string)
    ensures ' ' !in ReplaceSpaces(s)
    ensures ReplaceSpaces(ReplaceSpaces(s)) == ReplaceSpaces(s)
  {
    var r := ReplaceSpaces(s);
    assert forall i :: 0 <= i < |r| ==> r[i] != ' ';
    assert ReplaceSpaces(r) == r;
  }

  // ---------------------------------------------------------------- split

  /** `s.split(sep)` with an explicit one-character separator: the fields between separators,
      empty fields included; never an empty list. */
  function Split(s: string, sep: char): (r: seq<string>)
    ensures |r| >= 1
    ensures forall i :: 0 <= i < |r| ==> sep !in r[i]
    decreases |s|
  {
    if s == [] then [""]
    else
      var rest := Split(s[1..], sep);
      if s[0] == sep then [""] + rest else [[s[0]] + rest[0]] + rest[1..]
  }

  /** `sep.join(parts)`. */
  function JoinWith(parts: seq<string>, sep: char): string
    decreases |parts|
  {
    if parts == [] then ""
    else if |parts| == 1 then parts[0]
    else parts[0] + [sep] + JoinWith(parts[1..], sep)
  }

  /** Joining the fields with the separator gives back the string that was split. */
  lemma {:induction false} JoinSplit(s: string, sep: char)
    ensures JoinWith(Split(s, sep), sep) == s
    decreases |s|
  {
    if s != [] {
      var rest := Split(s[1..], sep);
      JoinSplit(s[1..], sep);
      if s[0] == sep {
        assert ([""] + rest)[1..] == rest;
      } else {
        var head := [s[0]] + rest[0];
        if |rest| > 1 {
          assert ([head] + rest[1..])[1..] == rest[1..];
          assert JoinWith(rest, sep) == rest[0] + [sep] + JoinWith(rest[1..], sep);
        }
      }
    }
  }

  /** A field without the separator, followed by anything, opens the first field of the split. */
  lemma {:induction false} SplitAfterField(a: string, t: string, sep: char)
    requires sep !in a
    ensures Split(a + t, sep) == [a + Split(t, sep)[0]] + Split(t, sep)[1..]
    decreases |a|
  {
    if a != [] {
      assert (a + t)[0] == a[0] && (a + t)[1..] == a[1..] + t;
      SplitAfterField(a[1..], t, sep);
      assert [a[0]] + (a[1..] + Split(t, sep)[0]) == a + Split(t, sep)[0];
    } else {
      var r := Split(t, sep);
      assert a + t == t;
      assert a + r[0] == r[0];
      assert r == [r[0]] + r[1..];
    }
  }

  /** Splitting fields joined with a separator they do not contain gives back the fields. */
  lemma {:induction false} SplitJoin(parts: seq<string>, sep: char)
    requires |parts| >= 1
    requires forall i :: 0 <= i < |parts| ==> sep !in parts[i]
    ensures Split(JoinWith(parts, sep), sep) == parts
    decreases |parts|
  {
    if |parts| == 1 {
      SplitAfterField(parts[0], "", sep);
      assert parts[0] + "" == parts[0];
    } else {
      var tail := JoinWith(parts[1..], sep);
      SplitJoin(parts[1..], sep);
      assert parts[0] + [sep] + tail == parts[0] + ([sep] + tail);
      var rest := [sep] + tail;
      assert rest[0] == sep && rest[1..] == tail;
      assert Split(rest, sep) == [""] + parts[1..];
      SplitAfterField(parts[0], rest, sep);
      assert parts[0] + "" == parts[0];
      assert ([""] + parts[1..])[1..] == parts[1..];
      assert parts == [parts[0]] + parts[1..];
    }
  }

  // ---------------------------------------------------------------- int()

  /** The digits of an `int()` literal: ASCII digits, with single underscores allowed between digits. */
  predicate IsIntBody(b: string) {
    && |b| > 0 && IsDigit(b[0]) && IsDigit(b[|b| - 1])
    && (forall i :: 0 <= i < |b| ==> IsDigit(b[i]) || b[i] == '_')
    && (forall i :: 0 <= i < |b| - 1 ==> !(b[i] == '_' && b[i + 1] == '_'))
  }

  function RemoveUnderscores(b: string): (r: string)
    ensures (forall i :: 0 <= i < |b| ==> IsDigit(b[i]) || b[i] == '_') ==> AllDigits(r)
    ensures AllDigits(b) ==> r == b
  {
    if b == [] then [] else (if b[0] == '_' then [] else [b[0]]) + RemoveUnderscores(b[1..])
  }

  function BodyValue(b: string): nat
    requires IsIntBody(b)
  {
    DigitsValue(RemoveUnderscores(b))
  }

  /** An already stripped `int()` argument: an optional sign, then the digits. */
  function ParseStripped(t: string): Option<int> {
    if |t| > 0 && (t[0] == '-' || t[0] == '+') then
      if IsIntBody(t[1..]) then
        var v: int := BodyValue(t[1..]);
        Some(if t[0] == '-' then -v else v)
      else None
    else if IsIntBody(t) then Some(BodyValue(t))
    else None
  }

  /** Python's `int(s)`: `None` stands for the `ValueError` it raises. */
  function ParseInt(s: string): Option<int> {
    ParseStripped(Strip(s))
  }

  /** `int()` of a blank string fails. */
  lemma ParseIntBlank(s: string)
    requires forall i :: 0 <= i < |s| ==> IsSpace(s[i])
    ensures ParseInt(s) == None
  {
    TrimStartDrops(s);
    assert TrimStart(s) == [];
  }

  /** The padded digits of a number are an `int()` literal for it. */
  lemma ZeroPadIsBody(m: nat)
    ensures IsIntBody(ZeroPad(m, 1)) && BodyValue(ZeroPad(m, 1)) == m
  {
    var d := ZeroPad(m, 1);
    ZeroPadLength(m, 1);
    ZeroPadValue(m, 1);
    assert RemoveUnderscores(d) == d;
  }

  /** `str(n)` has nothing for `strip()` to remove. */
  lemma StripDecimal(n: int)
    ensures Strip(IntToDecimal(n)) == IntToDecimal(n)
  {
    var m: nat := if n < 0 then -n else n;
    ZeroPadLength(m, 1);
    var s := IntToDecimal(n);
    assert !IsSpace(s[0]) && !IsSpace(s[|s| - 1]);
    StripKeeps(s);
  }

  /** A minus sign before a literal negates it. */
  lemma ParseNegative(d: string)
    requires IsIntBody(d)
    ensures ParseStripped("-" + d) == Some(-(BodyValue(d) as int))
  {
    assert ("-" + d)[1..] == d;
  }

  /** A literal without a sign reads as its digits. */
  lemma ParseUnsigned(d: string)
    requires IsIntBody(d)
    ensures ParseStripped(d) == Some(BodyValue(d))
  {
  }

  /** The stripped form of `str(n)` reads back as `n`. */
  lemma ParseStrippedDecimal(n: int)
    ensures ParseStripped(IntToDecimal(n)) == Some(n)
  {
    var m: nat := if n < 0 then -n else n;
    var d := ZeroPad(m, 1);
    ZeroPadIsBody(m);
    if n < 0 {
      assert IntToDecimal(n) == "-" + d;
      ParseNegative(d);
    } else {
      assert IntToDecimal(n) == d;
      ParseUnsigned(d);
    }
  }

  /** `int(str(n)) == n`. */
  lemma ParseIntDecimal(n: int)
    ensures ParseInt(IntToDecimal(n)) == Some(n)
  {
    StripDecimal(n);
    ParseStrippedDecimal(n);
  }

  /** `str` is injective on ints. */
  lemma IntToDecimalInjective(a: int, b: int)
    requires IntToDecimal(a) == IntToDecimal(b)
    ensures a == b
  {
    ParseIntDecimal(a);
    ParseIntDecimal(b);
  }

  /** `str(n)` contains no separator characters other than digits and a leading minus sign. */
  lemma IntToDecimalChars(n: int)
    ensures forall i :: 0 <= i < |IntToDecimal(n)| ==> IsDigit(IntToDecimal(n)[i]) || IntToDecimal(n)[i] == '-'
  {
  }

  // ---------------------------------------------------------------- sequences

  lemma AppendAssoc<T>(a: seq<T>, b: seq<T>, c: seq<T>)
    ensures a + (b + c) == (a + b) + c
  {
  }

  lemma PrefixSnoc<T>(s: seq<T>, i: nat)
    requires i < |s|
    ensures s[..i + 1] == s[..i] + [s[i]]
  { }
}
