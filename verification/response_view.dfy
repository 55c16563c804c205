/** How the response panel lays out the model's answer: the answer is split into lines, each line
    is trimmed, blank lines are dropped, and every other line is shown either as a list item or as
    a paragraph. */
module ResponseView {
  import opened Options
  import opened Strings

  /** One rendered line, holding the trimmed text of its source line. */
  datatype Block = ListItem(text: string) | Paragraph(text: string)

  /** The length of the run of decimal digits that opens `t`. */
  function DigitRun(t: string): (n: nat)
    ensures n <= |t| && AllDigits(t[..n])
    ensures n < |t| ==> !IsDigit(t[n])
  {
    if |t| > 0 && IsDigit(t[0]) then
      var n := 1 + DigitRun(t[1..]);
      assert t[..n] == [t[0]] + t[1..][..n - 1];
      n
    else
      0
  }

  /** Every digit prefix of `t` lies inside the opening digit run. */
  lemma {:induction false} DigitRunMaximal(t: string, m: nat)
    requires m <= |t| && AllDigits(t[..m])
    ensures m <= DigitRun(t)
  {
    if m > 0 {
      assert t[..m][0] == t[0];
      assert t[1..][..m - 1] == t[..m][1..];
      DigitRunMaximal(t[1..], m - 1);
    }
  }

  /** The panel's list-marker test on an already trimmed line: an asterisk, a hyphen, or a run of
      digits and a dot, then a white-space character. */
  predicate IsListItem(t: string)
    ensures IsListItem(t) ==> |t| > 1
  {
    if |t| > 0 && (t[0] == '*' || t[0] == '-') then
      |t| > 1 && IsSpace(t[1])
    else
      var n := DigitRun(t);
      0 < n && n + 1 < |t| && t[n] == '.' && IsSpace(t[n + 1])
  }

  /** The regular expression read literally: the first `k` characters are one of the three
      markers and character `k` is a space. */
  ghost predicate MarkerThenSpace(t: string, k: int) {
    && 0 < k < |t|
    && IsSpace(t[k])
    && (t[..k] == "*" || t[..k] == "-" || (k >= 2 && AllDigits(t[..k - 1]) && t[k - 1] == '.'))
  }

  /** `IsListItem` accepts exactly the lines the regular expression matches. */
  lemma ListItemIffMarker(t: string)
    ensures IsListItem(t) <==> exists k :: MarkerThenSpace(t, k)
  {
    var n := DigitRun(t);
    if IsListItem(t) {
      if t[0] == '*' || t[0] == '-' {
        assert t[..1] == [t[0]];
        assert MarkerThenSpace(t, 1);
      } else {
        assert t[..n + 1][..n] == t[..n];
        assert MarkerThenSpace(t, n + 1);
      }
    }
    if k :| MarkerThenSpace(t, k) {
      if t[..k] == "*" || t[..k] == "-" {
        assert t[0] == t[..k][0];
      } else {
        assert t[0] == t[..k - 1][0];
        DigitRunMaximal(t, k - 1);
        if n > k - 1 {
          assert t[..n][k - 1] == t[k - 1];
        }
      }
    }
  }

  /** What one line of the answer renders as: the trimmed line as a list item or a paragraph,
      or nothing for a blank line. */
  function Classify(line: string): (o: Option<Block>)
    ensures o.None? <==> IsBlank(line)
    ensures o.Some? ==> o.value.text == Trim(line)
  {
    var t := Trim(line);
    BlankIffTrimmedEmpty(line);
    if IsListItem(t) then Some(ListItem(t))
    else if t != [] then Some(Paragraph(t))
    else None
  }

  /** A block as the panel can show it: non-empty, already trimmed, and a list item exactly when
      its text carries a list marker. */
  predicate WellFormed(b: Block) {
    b.text != [] && Trim(b.text) == b.text && (b.ListItem? <==> IsListItem(b.text))
  }

  lemma ClassifyWellFormed(line: string)
    ensures Classify(line).Some? ==> WellFormed(Classify(line).value)
  {
    var t := Trim(line);
    TrimIdempotent(line);
    if IsListItem(t) {
      assert Classify(line) == Some(ListItem(t));
      assert WellFormed(ListItem(t));
    } else if t != [] {
      assert Classify(line) == Some(Paragraph(t));
      assert WellFormed(Paragraph(t));
    }
  }

  /** `xs` mapped through `f` in order, keeping the `Some` values. */
  function FilterMap<A, B>(f: A -> Option<B>, xs: seq<A>): (r: seq<B>)
    ensures |r| <= |xs|
    ensures forall b | b in r :: exists x | x in xs :: f(x) == Some(b)
    ensures r == [] <==> forall k | 0 <= k < |xs| :: f(xs[k]).None?
  {
    if xs == [] then []
    else
      var t := FilterMap(f, xs[1..]);
      assert forall k | 1 <= k < |xs| :: xs[k] == xs[1..][k - 1];
      assert forall x | x in xs[1..] :: x in xs;
      match f(xs[0])
      case Some(b) => [b] + t
      case None => t
  }

  lemma {:induction false} FilterMapAppend<A, B>(f: A -> Option<B>, a: seq<A>, b: seq<A>)
    ensures FilterMap(f, a + b) == FilterMap(f, a) + FilterMap(f, b)
  {
    if a != [] {
      assert (a + b)[0] == a[0];
      assert (a + b)[1..] == a[1..] + b;
      FilterMapAppend(f, a[1..], b);
    } else {
      assert a + b == b;
    }
  }

  /** The blocks of a sequence of lines: never more blocks than lines, every block well formed,
      and no block at all exactly when every line is blank. */
  function RenderLines(lines: seq<string>): (r: seq<Block>)
    ensures |r| <= |lines|
    ensures forall k | 0 <= k < |r| :: WellFormed(r[k])
    ensures r == [] <==> forall k | 0 <= k < |lines| :: IsBlank(lines[k])
  {
    var r := FilterMap(Classify, lines);
    assert forall k | 0 <= k < |r| :: WellFormed(r[k]) by {
      forall k | 0 <= k < |r| ensures WellFormed(r[k]) {
        assert r[k] in r;
        var x :| x in lines && Classify(x) == Some(r[k]);
        ClassifyWellFormed(x);
      }
    }
    r
  }

  /** The panel's content for a response text. */
  function Render(response: string): seq<Block> {
    RenderLines(Split(response))
  }

  /** Rendering keeps the order of the lines: the blocks of two runs of lines are the blocks of
      the first run followed by those of the second. */
  lemma RenderLinesAppend(a: seq<string>, b: seq<string>)
    ensures RenderLines(a + b) == RenderLines(a) + RenderLines(b)
  {
    FilterMapAppend(Classify, a, b);
  }

  /** A single line renders as its classification. */
  lemma RenderLinesSingle(line: string)
    ensures RenderLines([line]) == BlocksOf(Classify(line))
  {
    assert [line][1..] == [];
  }

  /** A line feed in the answer separates its blocks and adds none of its own. */
  lemma RenderConcat(x: string, y: string)
    ensures Render(x + [NL] + y) == Render(x) + Render(y)
  {
    SplitConcat(x, y);
    RenderLinesAppend(Split(x), Split(y));
  }

  /** A text without a line feed renders as its single line's classification. */
  lemma RenderLine(line: string)
    requires NL !in line
    ensures Render(line) == BlocksOf(Classify(line))
  {
    SplitPlain(line, []);
    RenderLinesSingle(line);
  }

  /** The panel has nothing to show for an answer exactly when the answer is blank. */
  lemma RenderEmptyIffBlank(response: string)
    ensures Render(response) == [] <==> IsBlank(response)
  {
    JoinSplit(response);
    JoinAllSpace(Split(response));
  }

  function BlocksOf(o: Option<Block>): seq<Block> {
    match o
    case Some(b) => [b]
    case None => []
  }
}
