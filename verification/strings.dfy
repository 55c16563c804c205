/** The JavaScript string operations the screen relies on: `trim`, splitting on line feeds, and the
    decimal form of a non-negative number. Strings are sequences of Unicode scalar values; every
    character these operations look at lies in the Basic Multilingual Plane, where that agrees
    with JavaScript's UTF-16 code units. */
module Strings {

  /** The line separator the response is split on. */
  const NL: char := '\n'

  /** The characters `String.prototype.trim` removes and the regular-expression class `\s`
      matches: ECMAScript's WhiteSpace (tab, vertical tab, form feed, space, no-break space,
      byte-order mark and every other space separator) and LineTerminator (line feed, carriage
      return, line and paragraph separators). */
  predicate IsSpace(c: char) {
    || c == '\t' || c == '\n' || c == '\U{000B}' || c == '\U{000C}' || c == '\r' || c == ' '
    || c == '\U{00A0}' || c == '\U{1680}' || ('\U{2000}' <= c <= '\U{200A}')
    || c == '\U{2028}' || c == '\U{2029}' || c == '\U{202F}' || c == '\U{205F}'
    || c == '\U{3000}' || c == '\U{FEFF}'
  }

  predicate AllSpace(s: string) {
    forall k | 0 <= k < |s| :: IsSpace(s[k])
  }

  /** Space on both sides of a join is space throughout. */
  lemma AllSpaceConcat(a: string, b: string)
    ensures AllSpace(a + b) <==> AllSpace(a) && AllSpace(b)
  {
    if AllSpace(a + b) {
      forall k | 0 <= k < |a| ensures IsSpace(a[k]) {
        assert (a + b)[k] == a[k];
      }
      forall k | 0 <= k < |b| ensures IsSpace(b[k]) {
        assert (a + b)[|a| + k] == b[k];
      }
    }
  }

  /** `r` is `s[i..j]` and only space lies outside it. */
  ghost predicate CutBetweenSpaces(r: string, s: string, i: int, j: int) {
    0 <= i <= j <= |s| && s[i..j] == r && AllSpace(s[..i]) && AllSpace(s[j..])
  }

  /** `r` is what is left of `s` once some space is cut from each end. */
  ghost predicate IsInfixBetweenSpaces(r: string, s: string) {
    exists i, j :: CutBetweenSpaces(r, s, i, j)
  }

  /** `r` neither starts nor ends with a space. */
  predicate Tight(r: string) {
    r == [] || (!IsSpace(r[0]) && !IsSpace(r[|r| - 1]))
  }

  function TrimStart(s: string): (r: string)
    ensures |r| <= |s| && r == s[|s| - |r|..]
    ensures AllSpace(s[..|s| - |r|])
    ensures r == [] || !IsSpace(r[0])
  {
    if |s| > 0 && IsSpace(s[0]) then
      var r := TrimStart(s[1..]);
      assert s[..|s| - |r|] == [s[0]] + s[1..][..|s| - 1 - |r|];
      r
    else
      s
  }

  function TrimEnd(s: string): (r: string)
    ensures |r| <= |s| && r == s[..|r|]
    ensures AllSpace(s[|r|..])
    ensures r == [] || !IsSpace(r[|r| - 1])
  {
    if |s| > 0 && IsSpace(s[|s| - 1]) then
      var r := TrimEnd(s[..|s| - 1]);
      assert s[|r|..] == s[..|s| - 1][|r|..] + [s[|s| - 1]];
      r
    else
      s
  }

  /** `String.prototype.trim`: `s` without its leading and trailing space. */
  function Trim(s: string): (r: string)
    ensures IsInfixBetweenSpaces(r, s)
    ensures Tight(r)
  {
    var a := TrimStart(s);
    var r := TrimEnd(a);
    CutOfTrims(s, a, r);
    r
  }

  /** A space prefix cut from `s`, then a space suffix cut from what is left, leave a cut of `s`
      between spaces; when neither cut stopped at a space, the cut is tight. */
  lemma CutOfTrims(s: string, a: string, r: string)
    requires |a| <= |s| && a == s[|s| - |a|..] && AllSpace(s[..|s| - |a|])
    requires a == [] || !IsSpace(a[0])
    requires |r| <= |a| && r == a[..|r|] && AllSpace(a[|r|..])
    requires r == [] || !IsSpace(r[|r| - 1])
    ensures CutBetweenSpaces(r, s, |s| - |a|, |s| - |a| + |r|)
    ensures IsInfixBetweenSpaces(r, s) && Tight(r)
  {
    var i := |s| - |a|;
    assert s[i..i + |r|] == r;
    assert s[i + |r|..] == a[|r|..];
    assert CutBetweenSpaces(r, s, i, i + |r|);
    assert r != [] ==> r[0] == a[0];
  }

  /** The screen's test for an empty input: nothing but space, which is the same
      as trimming to the empty string (`BlankIffTrimmedEmpty`). */
  predicate IsBlank(s: string) {
    AllSpace(s)
  }

  /** A space prefix of `s` ends at or before the first character that is not a space. */
  lemma SpacePrefixEndsBefore(s: string, p: nat, i: nat)
    requires p <= |s| && AllSpace(s[..p])
    requires i < |s| && !IsSpace(s[i])
    ensures p <= i
  {
    forall k | 0 <= k < p ensures IsSpace(s[k]) {
      assert s[..p][k] == s[k];
    }
  }

  /** A space suffix of `s` starts after the last character that is not a space. */
  lemma SpaceSuffixStartsAfter(s: string, q: nat, i: nat)
    requires q <= |s| && AllSpace(s[q..])
    requires i < |s| && !IsSpace(s[i])
    ensures i < q
  {
    forall k | q <= k < |s| ensures IsSpace(s[k]) {
      assert s[q..][k - q] == s[k];
    }
  }

  /** A tight cut of `s` is empty exactly when `s` is all space. */
  lemma TightCutEmptyIff(r: string, s: string, i: int, j: int)
    requires CutBetweenSpaces(r, s, i, j) && Tight(r)
    ensures r == [] <==> AllSpace(s)
  {
    if r == [] {
      forall k | 0 <= k < |s| ensures IsSpace(s[k]) {
        if k < i {
          assert s[..i][k] == s[k];
        } else {
          assert s[j..][k - j] == s[k];
        }
      }
    } else {
      assert s[i] == r[0];
    }
  }

  /** Two tight cuts of the same string are the same string. */
  lemma TightCutsAgree(r: string, t: string, s: string, i: int, j: int, i': int, j': int)
    requires CutBetweenSpaces(r, s, i, j) && Tight(r)
    requires CutBetweenSpaces(t, s, i', j') && Tight(t)
    ensures r == t
  {
    TightCutEmptyIff(r, s, i, j);
    TightCutEmptyIff(t, s, i', j');
    if r != [] {
      assert s[i] == r[0] && s[j - 1] == r[|r| - 1];
      assert s[i'] == t[0] && s[j' - 1] == t[|t| - 1];
      SpacePrefixEndsBefore(s, i', i);
      SpacePrefixEndsBefore(s, i, i');
      SpaceSuffixStartsAfter(s, j', j - 1);
      SpaceSuffixStartsAfter(s, j, j' - 1);
      assert i == i' && j == j';
    }
  }

  /** Trim is the only tight string left by cutting space from both ends. */
  lemma TrimUnique(r: string, s: string)
    requires IsInfixBetweenSpaces(r, s) && Tight(r)
    ensures r == Trim(s)
  {
    var t := Trim(s);
    var i, j :| CutBetweenSpaces(r, s, i, j);
    var i', j' :| CutBetweenSpaces(t, s, i', j');
    TightCutsAgree(r, t, s, i, j, i', j');
  }

  lemma TrimIdempotent(s: string)
    ensures Trim(Trim(s)) == Trim(s)
  {
    var t := Trim(s);
    assert t[0..|t|] == t && t[..0] == [] && t[|t|..] == [];
    assert CutBetweenSpaces(t, t, 0, |t|);
    TrimUnique(t, t);
  }

  /** A string is blank exactly when trimming leaves nothing of it. */
  lemma BlankIffTrimmedEmpty(s: string)
    ensures IsBlank(s) <==> Trim(s) == []
  {
    var i, j :| CutBetweenSpaces(Trim(s), s, i, j);
    TightCutEmptyIff(Trim(s), s, i, j);
  }

  /** The inverse of `Split`: the pieces glued back with line feeds. */
  function Join(parts: seq<string>): string {
    if |parts| == 0 then []
    else if |parts| == 1 then parts[0]
    else parts[0] + [NL] + Join(parts[1..])
  }

  /** Lines glued with line feeds are all space exactly when every line is. */
  lemma {:induction false} JoinAllSpace(parts: seq<string>)
    ensures AllSpace(Join(parts)) <==> forall k | 0 <= k < |parts| :: AllSpace(parts[k])
  {
    if |parts| > 1 {
      var rest := parts[1..];
      JoinAllSpace(rest);
      AllSpaceConcat(parts[0] + [NL], Join(rest));
      AllSpaceConcat(parts[0], [NL]);
      assert forall k | 1 <= k < |parts| :: parts[k] == rest[k - 1];
    }
  }

  /** Splitting on line feeds: the pieces between line feeds, in order; at least one piece, and none
      holds a line feed. */
  function Split(s: string): (r: seq<string>)
    ensures |r| >= 1
    ensures forall k | 0 <= k < |r| :: NL !in r[k]
  {
    if s == [] then [""]
    else
      var rest := Split(s[1..]);
      if s[0] == NL then
        [""] + rest
      else
        var r := [[s[0]] + rest[0]] + rest[1..];
        assert forall k | 1 <= k < |r| :: r[k] == rest[k];
        r
  }

  /** Joining the pieces gives back the text. */
  lemma {:induction false} JoinSplit(s: string)
    ensures Join(Split(s)) == s
  {
    if s != [] {
      var rest := Split(s[1..]);
      JoinSplit(s[1..]);
      if s[0] != NL {
        var r := Split(s);
        assert r[1..] == rest[1..];
        assert s == [s[0]] + s[1..];
      }
    }
  }

  /** A piece without a line feed splits to itself. */
  lemma {:induction false} SplitPlain(x: string, t: string)
    requires NL !in x
    ensures Split(x) == [x]
    ensures Split(x + [NL] + t) == [x] + Split(t)
  {
    if x != [] {
      assert (x + [NL] + t)[1..] == x[1..] + [NL] + t;
      assert x[1..] == x[1..];
      SplitPlain(x[1..], t);
      assert x == [x[0]] + x[1..];
    } else {
      assert x + [NL] + t == [NL] + t;
    }
  }

  /** Splitting undoes joining when no piece holds a line feed. */
  lemma {:induction false} SplitJoin(parts: seq<string>)
    requires |parts| >= 1
    requires forall k | 0 <= k < |parts| :: NL !in parts[k]
    ensures Split(Join(parts)) == parts
  {
    if |parts| == 1 {
      SplitPlain(parts[0], []);
    } else {
      SplitJoin(parts[1..]);
      SplitPlain(parts[0], Join(parts[1..]));
      assert parts == [parts[0]] + parts[1..];
    }
  }

  lemma {:induction false} JoinAppend(a: seq<string>, b: seq<string>)
    requires |a| >= 1 && |b| >= 1
    ensures Join(a + b) == Join(a) + [NL] + Join(b)
  {
    if |a| == 1 {
      assert (a + b)[1..] == b;
    } else {
      assert (a + b)[1..] == a[1..] + b;
      JoinAppend(a[1..], b);
    }
  }

  /** The pieces of two texts joined by a line feed are the pieces of each, in order. */
  lemma SplitConcat(a: string, b: string)
    ensures Split(a + [NL] + b) == Split(a) + Split(b)
  {
    var p := Split(a) + Split(b);
    JoinAppend(Split(a), Split(b));
    JoinSplit(a);
    JoinSplit(b);
    forall k | 0 <= k < |p| ensures NL !in p[k] {
      if k >= |Split(a)| {
        assert p[k] == Split(b)[k - |Split(a)|];
      }
    }
    SplitJoin(p);
  }

  predicate IsDigit(c: char) {
    '0' <= c <= '9'
  }

  predicate AllDigits(s: string) {
    forall k | 0 <= k < |s| :: IsDigit(s[k])
  }

  function DigitChar(d: nat): (c: char)
    requires d < 10
    ensures IsDigit(c)
  {
    ('0' as int + d) as char
  }

  /** The number a string of decimal digits denotes. */
  function DigitsValue(s: string): nat
    requires AllDigits(s)
  {
    if s == [] then 0
    else DigitsValue(s[..|s| - 1]) * 10 + (s[|s| - 1] as int - '0' as int)
  }

  /** The decimal form of a non-negative integer, as a template string writes it: digits only, never empty,
      and no leading zero. */
  function Decimal(n: nat): (r: string)
    ensures |r| >= 1 && AllDigits(r)
    ensures r[0] == '0' ==> n == 0
  {
    if n < 10 then [DigitChar(n)]
    else Decimal(n / 10) + [DigitChar(n % 10)]
  }

  /** Reading the decimal form back gives the number. */
  lemma {:induction false} DecimalRoundTrip(n: nat)
    ensures DigitsValue(Decimal(n)) == n
  {
    if n >= 10 {
      var d := Decimal(n);
      assert d[..|d| - 1] == Decimal(n / 10);
      DecimalRoundTrip(n / 10);
    }
  }
}
