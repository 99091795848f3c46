/** The Python `str` operations the assistant relies on (`lower`, `title`,
    `strip`, `split`, `in`, `int(...)`, `f"{n:03d}"`, string comparison),
    stated over `seq<char>`. Case mapping covers the ASCII letters only. */
module Strings {
  import opened Common
  import opened Seqs

  // ---------------------------------------------------------------- characters

  predicate IsUpperAscii(c: char) { 'A' <= c <= 'Z' }
  predicate IsLowerAscii(c: char) { 'a' <= c <= 'z' }
  predicate IsLetter(c: char) { IsUpperAscii(c) || IsLowerAscii(c) }
  predicate IsDigit(c: char) { '0' <= c <= '9' }

  function LowerChar(c: char): (r: char)
    ensures !IsUpperAscii(r)
    ensures IsLetter(r) <==> IsLetter(c)
    ensures !IsUpperAscii(c) ==> r == c
  {
    if IsUpperAscii(c) then (c as int + 32) as char else c
  }

  function UpperChar(c: char): (r: char)
    ensures !IsLowerAscii(r)
    ensures IsLetter(r) <==> IsLetter(c)
    ensures !IsLowerAscii(c) ==> r == c
  {
    if IsLowerAscii(c) then (c as int - 32) as char else c
  }

  /** The characters that `str.strip()` and `str.split()` treat as whitespace. */
  predicate IsSpace(c: char) {
    (c <= ' ' && (c == ' ' || ('\t' <= c <= '\r') || ('\U{1c}' <= c <= '\U{1f}')))
    || ('\U{85}' <= c && (c == '\U{85}' || c == '\U{a0}'
      || c == '\U{1680}' || ('\U{2000}' <= c <= '\U{200a}') || c == '\U{2028}' || c == '\U{2029}'
      || c == '\U{202f}' || c == '\U{205f}' || c == '\U{3000}'))
  }

  // ---------------------------------------------------------------- case mapping

  /** `s.lower()`. */
  function Lower(s: string): (r: string)
    ensures |r| == |s|
    ensures forall i :: 0 <= i < |s| ==> r[i] == LowerChar(s[i])
  {
    seq(|s|, i requires 0 <= i < |s| => LowerChar(s[i]))
  }

  /** A string that `lower()` leaves unchanged. */
  predicate IsLowered(s: string) {
    forall i :: 0 <= i < |s| ==> !IsUpperAscii(s[i])
  }

  lemma LowerIsLowered(s: string)
    ensures IsLowered(Lower(s))
    ensures IsLowered(s) ==> Lower(s) == s
  {
  }

  /** `s.title()`: a letter is upper-cased when it starts a run of letters and
      lower-cased otherwise; other characters are unchanged. */
  function Title(s: string): (r: string)
    ensures |r| == |s|
  {
    seq(|s|, i requires 0 <= i < |s| =>
      if i == 0 || !IsLetter(s[i - 1]) then UpperChar(s[i]) else LowerChar(s[i]))
  }

  // ---------------------------------------------------------------- strip

  /** `s.lstrip()`. */
  function StripLeft(s: string): (r: string)
    ensures |r| <= |s|
    ensures r == [] || !IsSpace(r[0])
  {
    if |s| > 0 && IsSpace(s[0]) then StripLeft(s[1..]) else s
  }

  /** Everything `lstrip()` removes is whitespace. */
  lemma {:induction false} StripLeftRemovesSpaces(s: string)
    ensures forall i :: 0 <= i < |s| - |StripLeft(s)| ==> IsSpace(s[i])
  {
    if |s| > 0 && IsSpace(s[0]) {
      StripLeftRemovesSpaces(s[1..]);
    }
  }

  /** `s.rstrip()`. */
  function StripRight(s: string): (r: string)
    ensures |r| <= |s|
    ensures r == [] || !IsSpace(r[|r| - 1])
  {
    if |s| > 0 && IsSpace(s[|s| - 1]) then StripRight(s[..|s| - 1]) else s
  }

  /** Everything `rstrip()` removes is whitespace. */
  lemma {:induction false} StripRightRemovesSpaces(s: string)
    ensures forall i :: |StripRight(s)| <= i < |s| ==> IsSpace(s[i])
  {
    if |s| > 0 && IsSpace(s[|s| - 1]) {
      StripRightRemovesSpaces(s[..|s| - 1]);
    }
  }

  /** `lstrip()` keeps a suffix of the string. */
  lemma {:induction false} StripLeftSuffix(s: string)
    ensures StripLeft(s) == s[|s| - |StripLeft(s)|..]
  {
    if |s| > 0 && IsSpace(s[0]) {
      StripLeftSuffix(s[1..]);
    }
  }

  /** `rstrip()` keeps a prefix of the string. */
  lemma {:induction false} StripRightPrefix(s: string)
    ensures StripRight(s) == s[..|StripRight(s)|]
  {
    if |s| > 0 && IsSpace(s[|s| - 1]) {
      StripRightPrefix(s[..|s| - 1]);
    }
  }

  /** `s.strip()`. */
  function Strip(s: string): (r: string)
    ensures |r| <= |s|
    ensures r == [] || (!IsSpace(r[0]) && !IsSpace(r[|r| - 1]))
  {
    StripRightPrefix(StripLeft(s));
    StripRight(StripLeft(s))
  }

  /** A string with no whitespace at either end is its own `strip()`. */
  lemma StripTrimmed(s: string)
    requires s == [] || (!IsSpace(s[0]) && !IsSpace(s[|s| - 1]))
    ensures Strip(s) == s
  {
  }

  /** `(" " + s).strip() == s` for a string with no whitespace at either end. */
  lemma StripLeadingSpace(s: string)
    requires s == [] || (!IsSpace(s[0]) && !IsSpace(s[|s| - 1]))
    ensures Strip(" " + s) == s
  {
    assert (" " + s)[1..] == s;
    assert StripLeft(" " + s) == StripLeft(s);
  }

  // ---------------------------------------------------------------- substring

  predicate OccursAt(s: string, w: string, i: int) {
    0 <= i && i + |w| <= |s| && s[i..i + |w|] == w
  }

  /** Python's `w in s` on strings. */
  predicate Contains(s: string, w: string) {
    exists i :: 0 <= i <= |s| && OccursAt(s, w, i)
  }

  /** `any(w in s for w in words)`. */
  predicate AnyIn(s: string, words: seq<string>) {
    exists j :: 0 <= j < |words| && Contains(s, words[j])
  }

  lemma ContainsAt(s: string, w: string, i: int)
    requires OccursAt(s, w, i)
    ensures Contains(s, w)
  {
  }

  lemma ContainsInside(a: string, w: string, b: string)
    ensures Contains(a + w + b, w)
  {
    assert (a + w + b)[|a|..|a| + |w|] == w;
    ContainsAt(a + w + b, w, |a|);
  }

  /** `ContainsInside` for a word built from two parts `x + y`. */
  lemma ContainsJoinedInside(a: string, x: string, y: string, b: string)
    ensures Contains(a + x + y + b, x + y)
  {
    assert a + x + y + b == a + (x + y) + b;
    ContainsInside(a, x + y, b);
  }

  lemma AnyInAt(s: string, words: seq<string>, j: int)
    requires 0 <= j < |words| && Contains(s, words[j])
    ensures AnyIn(s, words)
  {
  }

  /** A substring of a text is a substring of any longer text it starts. */
  lemma ContainsExtend(s: string, t: string, w: string)
    requires Contains(s, w)
    ensures Contains(s + t, w)
  {
    var i :| 0 <= i <= |s| && OccursAt(s, w, i);
    assert (s + t)[i..i + |w|] == s[i..i + |w|];
    ContainsAt(s + t, w, i);
  }

  /** Being a substring is transitive. */
  lemma ContainsTrans(s: string, u: string, w: string)
    requires Contains(s, u) && Contains(u, w)
    ensures Contains(s, w)
  {
    var i :| 0 <= i <= |s| && OccursAt(s, u, i);
    var j :| 0 <= j <= |u| && OccursAt(u, w, j);
    assert u == s[i..i + |u|];
    forall k | 0 <= k < |w|
      ensures s[i + j + k] == w[k]
    {
      assert w[k] == u[j..j + |w|][k] == u[j + k] == s[i..i + |u|][j + k];
    }
    assert s[i + j..i + j + |w|] == w;
    assert OccursAt(s, w, i + j);
  }

  /** If some character of `w` is missing from `s`, `w` is not a substring of `s`. */
  lemma NotContainsMissingChar(s: string, w: string, k: int)
    requires 0 <= k < |w| && w[k] !in s
    ensures !Contains(s, w)
  {
    forall i | 0 <= i <= |s| && i + |w| <= |s|
      ensures !OccursAt(s, w, i)
    {
      assert s[i..i + |w|][k] == s[i + k] && s[i + k] in s;
    }
  }

  /** If two adjacent characters of `w` are never adjacent in `s`, `w` is not a
      substring of `s`. */
  lemma NotContainsMissingPair(s: string, w: string, k: int)
    requires 0 <= k && k + 1 < |w|
    requires forall i :: 0 <= i && i + 1 < |s| ==> !(s[i] == w[k] && s[i + 1] == w[k + 1])
    ensures !Contains(s, w)
  {
    forall i | 0 <= i <= |s| && i + |w| <= |s|
      ensures !OccursAt(s, w, i)
    {
      assert s[i..i + |w|][k] == s[i + k] && s[i..i + |w|][k + 1] == s[i + k + 1];
    }
  }

  /** A character of `s.lower()` that is neither `c` nor upper-case `c` in `s`. */
  lemma LowerAvoids(s: string, c: char)
    requires !IsUpperAscii(c) && c !in s && UpperChar(c) !in s
    ensures c !in Lower(s)
  {
    forall i | 0 <= i < |s|
      ensures Lower(s)[i] != c
    {
      assert s[i] in s;
    }
  }

  // ---------------------------------------------------------------- split and join

  /** `s.split(d)` for a one-character separator: never empty, and no piece
      holds the separator. */
  function Split(s: string, d: char): (r: seq<string>)
    ensures |r| >= 1
    ensures forall k :: 0 <= k < |r| ==> d !in r[k]
  {
    if |s| == 0 then [""]
    else
      var rest := Split(s[1..], d);
      if s[0] == d then [""] + rest else [[s[0]] + rest[0]] + rest[1..]
  }

  /** `d.join(parts)`. */
  function Join(parts: seq<string>, d: string): string {
    if |parts| == 0 then ""
    else if |parts| == 1 then parts[0]
    else parts[0] + d + Join(parts[1..], d)
  }

  /** A join starts where its first piece starts. */
  lemma JoinFirst(parts: seq<string>, d: string)
    requires |parts| >= 1 && |parts[0]| > 0
    ensures |Join(parts, d)| > 0 && Join(parts, d)[0] == parts[0][0]
  {
  }

  /** A join ends where its last piece ends. */
  lemma {:induction false} JoinLast(parts: seq<string>, d: string)
    requires |parts| >= 1 && |parts[|parts| - 1]| > 0
    ensures |Join(parts, d)| > 0
    ensures Join(parts, d)[|Join(parts, d)| - 1] == parts[|parts| - 1][|parts[|parts| - 1]| - 1]
  {
    if |parts| > 1 {
      JoinLast(parts[1..], d);
    }
  }

  /** Joining with one more piece adds the separator and the piece. */
  lemma {:induction false} JoinAppend(a: seq<string>, x: string, d: string)
    requires |a| >= 1
    ensures Join(a + [x], d) == Join(a, d) + d + x
  {
    if |a| > 1 {
      assert (a + [x])[1..] == a[1..] + [x];
      JoinAppend(a[1..], x, d);
    } else {
      assert a + [x] == [a[0], x];
    }
  }

  /** `"".join(parts)`, built from the left as a loop with `+=` builds it. */
  function Concat(parts: seq<string>): string
    decreases |parts|
  {
    if |parts| == 0 then "" else Concat(parts[..|parts| - 1]) + parts[|parts| - 1]
  }

  /** One more piece extends the concatenation of a prefix by that piece. */
  lemma ConcatStep(parts: seq<string>, i: nat)
    requires i < |parts|
    ensures Concat(parts[..i + 1]) == Concat(parts[..i]) + parts[i]
  {
    assert parts[..i + 1][..i] == parts[..i];
  }

  /** Every piece occurs in the concatenation. */
  lemma {:induction false} ConcatContains(parts: seq<string>, k: nat)
    requires k < |parts|
    ensures Contains(Concat(parts), parts[k])
    decreases |parts|
  {
    var front := parts[..|parts| - 1];
    if k == |parts| - 1 {
      ContainsInside(Concat(front), parts[k], "");
      assert Concat(front) + parts[k] + "" == Concat(parts);
    } else {
      assert front[k] == parts[k];
      ConcatContains(front, k);
      ContainsInside("", Concat(front), parts[|parts| - 1]);
      assert "" + Concat(front) + parts[|parts| - 1] == Concat(parts);
      ContainsTrans(Concat(parts), Concat(front), parts[k]);
    }
  }

  /** A listed piece occurs in a text that wraps the listing. */
  lemma ListedInside(head: string, parts: seq<string>, k: nat, tail: string)
    requires k < |parts|
    ensures Contains(head + Concat(parts) + tail, parts[k])
  {
    ConcatContains(parts, k);
    ContainsInside(head, Concat(parts), tail);
    ContainsTrans(head + Concat(parts) + tail, Concat(parts), parts[k]);
  }

  /** The loop `for x in xs: text += render(x)` that renders a listing. */
  method AppendEach<T>(xs: seq<T>, render: T -> string) returns (text: string)
    ensures text == Concat(Map(xs, render))
  {
    ghost var parts := Map(xs, render);
    text := "";
    var i := 0;
    while i < |xs|
      invariant 0 <= i <= |xs|
      invariant text == Concat(parts[..i])
    {
      ConcatStep(parts, i);
      text := text + render(xs[i]);
      i := i + 1;
    }
    assert parts[..i] == parts;
  }

  /** Each piece followed by a newline, as a loop that appends `line + "\n"` builds it. */
  function Lines(lines: seq<string>): string
    decreases |lines|
  {
    if |lines| == 0 then "" else Lines(lines[..|lines| - 1]) + lines[|lines| - 1] + "\n"
  }

  /** Newline-terminated lines are the lines joined by newlines, plus an empty last piece. */
  lemma {:induction false} LinesJoin(lines: seq<string>)
    ensures Lines(lines) == Join(lines + [""], "\n")
    decreases |lines|
  {
    if |lines| > 0 {
      var p := lines[..|lines| - 1];
      var l := lines[|lines| - 1];
      LinesJoin(p);
      assert lines == p + [l];
      assert lines + [""] == (p + [l]) + [""];
      JoinAppend(p + [l], "", "\n");
      if |p| > 0 {
        JoinAppend(p, l, "\n");
        JoinAppend(p, "", "\n");
      } else {
        assert p + [l] == [l];
      }
    }
  }

  /** Lines rendered by `render` hold no newline when no rendered item does. */
  lemma RenderedWithoutNewline<T>(xs: seq<T>, render: T -> string)
    requires forall k :: 0 <= k < |xs| ==> '\n' !in render(xs[k])
    ensures forall k :: 0 <= k < |Map(xs, render)| ==> '\n' !in Map(xs, render)[k]
  {
  }

  /** Splitting newline-terminated lines that hold no newline gives them back,
      followed by the empty piece after the last newline. */
  lemma LinesSplit(lines: seq<string>)
    requires forall k :: 0 <= k < |lines| ==> '\n' !in lines[k]
    ensures Split(Lines(lines), '\n') == lines + [""]
  {
    LinesJoin(lines);
    SplitJoin(lines + [""], '\n');
  }

  /** Joining the pieces of `s.split(d)` with `d` gives back `s`. */
  lemma {:induction false} JoinSplit(s: string, d: char)
    ensures Join(Split(s, d), [d]) == s
  {
    if |s| > 0 {
      var rest := Split(s[1..], d);
      JoinSplit(s[1..], d);
      if s[0] == d {
        assert Split(s, d) == [""] + rest;
        assert s == [d] + s[1..];
      } else {
        var r := [[s[0]] + rest[0]] + rest[1..];
        assert Split(s, d) == r;
        if |rest| == 1 {
          assert Join(r, [d]) == [s[0]] + rest[0];
        } else {
          assert rest == [rest[0]] + rest[1..];
          assert Join(rest, [d]) == rest[0] + [d] + Join(rest[1..], [d]);
          assert Join(r, [d]) == [s[0]] + rest[0] + [d] + Join(rest[1..], [d]);
        }
        assert s == [s[0]] + s[1..];
      }
    }
  }

  /** Splitting a join of separator-free pieces gives back the pieces. */
  lemma {:induction false} SplitJoin(parts: seq<string>, d: char)
    requires |parts| >= 1
    requires forall k :: 0 <= k < |parts| ==> d !in parts[k]
    ensures Split(Join(parts, [d]), d) == parts
  {
    if |parts| == 1 {
      SplitNoSeparator(parts[0], d);
    } else {
      SplitJoin(parts[1..], d);
      SplitPrefix(parts[0], Join(parts[1..], [d]), d);
    }
  }

  lemma {:induction false} SplitNoSeparator(s: string, d: char)
    requires d !in s
    ensures Split(s, d) == [s]
  {
    if |s| > 0 {
      SplitNoSeparator(s[1..], d);
      assert s[0] != d by { assert s[0] in s; }
      assert [s[0]] + s[1..] == s;
    }
  }

  lemma {:induction false} SplitPrefix(p: string, t: string, d: char)
    requires d !in p
    ensures Split(p + [d] + t, d) == [p] + Split(t, d)
  {
    if |p| == 0 {
      assert p + [d] + t == [d] + t;
      assert ([d] + t)[1..] == t;
    } else {
      assert (p + [d] + t)[1..] == p[1..] + [d] + t;
      SplitPrefix(p[1..], t, d);
      assert [p[0]] + p[1..] == p;
    }
  }

  /** The first `|w|` characters of `s` that are not whitespace. */
  function TakeWord(s: string): (w: string)
    ensures |w| <= |s| && w == s[..|w|]
    ensures forall c :: c in w ==> !IsSpace(c)
    ensures |w| < |s| ==> IsSpace(s[|w|])
  {
    if |s| == 0 || IsSpace(s[0]) then [] else [s[0]] + TakeWord(s[1..])
  }

  /** `s.split()`: the maximal runs of non-whitespace characters, in order. */
  function Words(s: string): (r: seq<string>)
    ensures forall k :: 0 <= k < |r| ==> |r[k]| > 0 && forall c :: c in r[k] ==> !IsSpace(c)
    decreases |s|
  {
    if |s| == 0 then []
    else if IsSpace(s[0]) then Words(s[1..])
    else
      var w := TakeWord(s);
      [w] + Words(s[|w|..])
  }

  // ---------------------------------------------------------------- integers

  function DigitChar(d: nat): (c: char)
    requires d < 10
    ensures IsDigit(c)
  {
    ('0' as int + d) as char
  }

  function DigitValue(c: char): (d: nat)
    requires IsDigit(c)
    ensures d < 10 && DigitChar(d) == c
  {
    c as int - '0' as int
  }

  predicate AllDigits(s: string) {
    forall i :: 0 <= i < |s| ==> IsDigit(s[i])
  }

  /** `str(n)` for a non-negative `n`. */
  function NatToString(n: nat): (r: string)
    ensures |r| > 0 && AllDigits(r)
    ensures n > 0 ==> r[0] != '0'
    decreases n
  {
    if n < 10 then [DigitChar(n)] else NatToString(n / 10) + [DigitChar(n % 10)]
  }

  /** `str(i)`. */
  function IntToString(i: int): (r: string)
    ensures |r| > 0 && !IsSpace(r[0]) && IsDigit(r[|r| - 1])
  {
    if i < 0 then "-" + NatToString(-i) else NatToString(i)
  }

  /** The value of a string of decimal digits. */
  function DigitsValue(s: string): nat
    requires AllDigits(s)
  {
    if |s| == 0 then 0 else DigitsValue(s[..|s| - 1]) * 10 + DigitValue(s[|s| - 1])
  }

  lemma {:induction false} DigitsValueOfNatToString(n: nat)
    ensures DigitsValue(NatToString(n)) == n
  {
    if n >= 10 {
      var s := NatToString(n);
      assert s[..|s| - 1] == NatToString(n / 10);
      DigitsValueOfNatToString(n / 10);
    }
  }

  /** Leading zeros do not change the value of a digit string. */
  lemma {:induction false} DigitsValueLeadingZeros(z: string, s: string)
    requires AllDigits(s) && forall i :: 0 <= i < |z| ==> z[i] == '0'
    ensures AllDigits(z + s) && DigitsValue(z + s) == DigitsValue(s)
  {
    if |s| == 0 {
      assert z + s == z;
      AllZerosValue(z);
    } else {
      var p := s[..|s| - 1];
      assert (z + s)[..|z + s| - 1] == z + p;
      DigitsValueLeadingZeros(z, p);
    }
  }

  lemma {:induction false} AllZerosValue(z: string)
    requires forall i :: 0 <= i < |z| ==> z[i] == '0'
    ensures AllDigits(z) && DigitsValue(z) == 0
  {
    if |z| > 0 {
      AllZerosValue(z[..|z| - 1]);
    }
  }

  /** Digits with single underscores between them, as `int()` accepts. */
  predicate ValidDigitGroups(s: string) {
    |s| > 0 && IsDigit(s[0]) && IsDigit(s[|s| - 1])
    && (forall i :: 0 <= i < |s| ==> IsDigit(s[i]) || s[i] == '_')
    && !Contains(s, "__")
  }

  function RemoveUnderscores(s: string): (r: string)
    requires forall i :: 0 <= i < |s| ==> IsDigit(s[i]) || s[i] == '_'
    ensures AllDigits(r)
    ensures AllDigits(s) ==> r == s
  {
    if |s| == 0 then []
    else if s[0] == '_' then RemoveUnderscores(s[1..])
    else [s[0]] + RemoveUnderscores(s[1..])
  }

  /** The value of digit groups, or `None` when `s` is not one. */
  function DigitGroupsValue(s: string): Option<int> {
    if ValidDigitGroups(s) then Some(DigitsValue(RemoveUnderscores(s))) else None
  }

  /** `int()` after stripping: an optional sign, then digit groups. */
  function ParseSigned(t: string): Option<int> {
    if |t| == 0 then None
    else if t[0] == '-' then
      match DigitGroupsValue(t[1..])
      case None => None
      case Some(v) => Some(-v)
    else if t[0] == '+' then DigitGroupsValue(t[1..])
    else DigitGroupsValue(t)
  }

  /** `int(s)` for base 10: surrounding whitespace is ignored, then an optional
      sign and digit groups; `None` where Python raises `ValueError`. */
  function ParseInt(s: string): (r: Option<int>)
  {
    ParseSigned(Strip(s))
  }

  lemma NoUnderscoreAt(d: string, i: int)
    requires AllDigits(d) && 0 <= i <= |d|
    ensures !OccursAt(d, "__", i)
  {
    if i + 2 <= |d| {
      var w := d[i..i + 2];
      assert w[0] == d[i] && IsDigit(w[0]);
    }
  }

  /** A non-empty run of digits is one digit group, with nothing to remove. */
  lemma DigitsAreGroups(d: string)
    requires |d| > 0 && AllDigits(d)
    ensures DigitGroupsValue(d) == Some(DigitsValue(d))
  {
    assert IsDigit(d[0]) && IsDigit(d[|d| - 1]);
    forall i | 0 <= i <= |d| ensures !OccursAt(d, "__", i) {
      NoUnderscoreAt(d, i);
    }
  }

  /** `int(d)` for a non-empty run of digits is its value. */
  lemma ParseIntOfDigits(d: string)
    requires |d| > 0 && AllDigits(d)
    ensures ParseInt(d) == Some(DigitsValue(d))
  {
    assert IsDigit(d[0]) && IsDigit(d[|d| - 1]);
    StripTrimmed(d);
    DigitsAreGroups(d);
  }

  /** `int(t)` for a minus sign followed by a non-empty run of digits is minus their value. */
  lemma ParseIntOfNegatedDigits(t: string)
    requires |t| > 1 && t[0] == '-' && AllDigits(t[1..])
    ensures ParseInt(t) == Some(-(DigitsValue(t[1..]) as int))
  {
    assert IsDigit(t[1..][|t| - 2]);
    StripTrimmed(t);
    DigitsAreGroups(t[1..]);
  }

  /** `int(str(i)) == i`. */
  lemma ParseIntOfIntToString(i: int)
    ensures ParseInt(IntToString(i)) == Some(i)
  {
    if i < 0 {
      ParseIntOfNegative(i);
    } else {
      DigitsValueOfNatToString(i);
      ParseIntOfDigits(NatToString(i));
    }
  }

  /** `int(str(i)) == i` for a negative `i`. */
  lemma ParseIntOfNegative(i: int)
    requires i < 0
    ensures ParseInt("-" + NatToString(-i)) == Some(i)
  {
    var t := "-" + NatToString(-i);
    assert t[1..] == NatToString(-i);
    DigitsValueOfNatToString(-i);
    ParseIntOfNegatedDigits(t);
  }

  /** A run of `k` copies of `c`. */
  function Repeat(c: char, k: nat): (r: string)
    ensures |r| == k && forall i :: 0 <= i < k ==> r[i] == c
  {
    if k == 0 then [] else [c] + Repeat(c, k - 1)
  }

  /** `f"{n:0{width}d}"` for a non-negative `n`. */
  function ZeroPad(n: nat, width: nat): (r: string)
  {
    var d := NatToString(n);
    if |d| < width then Repeat('0', width - |d|) + d else d
  }

  /** A zero-padded number is at least `width` digits long and reads back as `n`. */
  lemma ZeroPadReadsBack(n: nat, width: nat)
    ensures var r := ZeroPad(n, width);
      |r| >= width && AllDigits(r) && DigitsValue(r) == n && ParseInt(r) == Some(n)
  {
    var d := NatToString(n);
    var r := ZeroPad(n, width);
    DigitsValueOfNatToString(n);
    if |d| < width {
      DigitsValueLeadingZeros(Repeat('0', width - |d|), d);
    }
    ParseIntOfDigits(r);
  }

  // ---------------------------------------------------------------- comparison

  /** Python's `a <= b` on strings: lexicographic by code point. */
  predicate LexLe(a: string, b: string)
    decreases |a|
  {
    |a| == 0 || (|b| > 0 && (a[0] < b[0] || (a[0] == b[0] && LexLe(a[1..], b[1..]))))
  }

  lemma {:induction false} LexLeTotal(a: string, b: string)
    ensures LexLe(a, b) || LexLe(b, a)
    decreases |a|
  {
    if |a| > 0 && |b| > 0 && a[0] == b[0] {
      LexLeTotal(a[1..], b[1..]);
    }
  }

  lemma {:induction false} LexLeTrans(a: string, b: string, c: string)
    requires LexLe(a, b) && LexLe(b, c)
    ensures LexLe(a, c)
    decreases |a|
  {
    if |a| > 0 && a[0] == b[0] && b[0] == c[0] {
      LexLeTrans(a[1..], b[1..], c[1..]);
    }
  }

  lemma {:induction false} LexLeAntisym(a: string, b: string)
    requires LexLe(a, b) && LexLe(b, a)
    ensures a == b
    decreases |a|
  {
    if |a| > 0 {
      LexLeAntisym(a[1..], b[1..]);
      assert a == [a[0]] + a[1..] && b == [b[0]] + b[1..];
    }
  }

  lemma {:induction false} LexLeRefl(a: string)
    ensures LexLe(a, a)
  {
    if |a| > 0 {
      LexLeRefl(a[1..]);
    }
  }
}
