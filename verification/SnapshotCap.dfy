/**
 The cap on a snapshot's text (browser-agent/src/index.ts): `truncate`, and `shownRefs`, which
 decides from the renderer's line map which refs the caller was shown.
 */
module SnapshotCap {
  import opened Options

  type Ref = string

  /** Which node, if it has a ref, each line of the rendering is for. */
  type LineMap = map<nat, Option<Ref>>

  /** `text.lastIndexOf("\n", at)`. */
  function LastBreak(text: string, at: int): (i: int)
    requires at < |text|
    ensures -1 <= i < |text| && (i >= 0 ==> i <= at)
    ensures i >= 0 ==> text[i] == '\n'
    ensures forall k | i < k <= at && k >= 0 :: text[k] != '\n'
    decreases at + 1
  {
    if at < 0 then -1 else if text[at] == '\n' then at else LastBreak(text, at - 1)
  }

  /** The caller's cap, where there is one and the text exceeds it. */
  predicate Cuts(text: string, maxChars: Option<int>) {
    maxChars.Some? && 0 < maxChars.value < |text|
  }

  /** `truncate`. */
  function Truncate(text: string, maxChars: Option<int>): string {
    if !Cuts(text, maxChars) then text
    else
      var cut := LastBreak(text, maxChars.value);
      if cut > 0 then text[..cut] else text[..maxChars.value]
  }

  /** `text.split("\n").length`. */
  function LineCount(text: string): (n: nat)
    ensures n > 0
  {
    if text == [] then 1 else LineCount(text[1..]) + if text[0] == '\n' then 1 else 0
  }

  /** Where line `k` ends: the position of the line break after it, or of the end of the text. */
  function LineEnd(text: string, k: nat): nat {
    if text == [] || (text[0] == '\n' && k == 0) then 0
    else 1 + LineEnd(text[1..], if text[0] == '\n' then k - 1 else k)
  }

  predicate WholeLines(rendered: string, kept: string) {
    |kept| == |rendered| || kept + "\n" <= rendered
  }

  function RefsBefore(lineToNode: LineMap, lines: nat): set<Ref> {
    set line | line in lineToNode && line < lines && lineToNode[line].Some? :: lineToNode[line].value
  }

  /** `shownRefs`, as a value. */
  function Shown(lineToNode: LineMap, rendered: string, kept: string): set<Ref> {
    if !WholeLines(rendered, kept) then {}
    else RefsBefore(lineToNode, if kept == [] then 0 else LineCount(kept))
  }

  method ShownRefs(lineToNode: LineMap, rendered: string, kept: string) returns (shown: set<Ref>)
    ensures shown == Shown(lineToNode, rendered, kept)
  {
    shown := {};
    if !(|kept| == |rendered| || kept + "\n" <= rendered) { return; }
    var lines := if kept == [] then 0 else LineCount(kept);
    var todo := lineToNode.Keys;
    while todo != {}
      invariant todo <= lineToNode.Keys
      invariant shown == set l | l in lineToNode.Keys - todo && l < lines && lineToNode[l].Some? :: lineToNode[l].value
      decreases todo
    {
      var line :| line in todo;
      if line < lines && lineToNode[line].Some? { shown := shown + {lineToNode[line].value}; }
      todo := todo - {line};
    }
  }

  /** The refs of nodes whose line lies entirely inside the first `size` characters. */
  function Inside(lineToNode: LineMap, rendered: string, size: nat): set<Ref> {
    set line | line in lineToNode && line < LineCount(rendered) && LineEnd(rendered, line) <= size &&
               lineToNode[line].Some? :: lineToNode[line].value
  }

  // ---- the cut

  lemma TruncateIsCappedPrefix(text: string, maxChars: Option<int>)
    ensures Truncate(text, maxChars) <= text
    ensures Cuts(text, maxChars) ==>
              0 < |Truncate(text, maxChars)| <= maxChars.value && |Truncate(text, maxChars)| < |text|
    ensures Truncate(text, maxChars) == text <==> maxChars.None? || maxChars.value <= 0 || |text| <= maxChars.value
  {
  }

  /** In a prefix that stops at a line break, the lines counted are the lines that fit. */
  lemma {:induction false} CountedLinesFit(text: string, kept: string, k: nat)
    requires kept <= text && (|kept| == |text| || text[|kept|] == '\n') && k < LineCount(text)
    ensures k < LineCount(kept) <==> LineEnd(text, k) <= |kept|
  {
    if kept != [] && !(text[0] == '\n' && k == 0) {
      CountedLinesFit(text[1..], kept[1..], if text[0] == '\n' then k - 1 else k);
    }
  }

  /** A line ends past every stretch at the start of the text that has no line break. */
  lemma {:induction false} NoBreakNoEnd(text: string, n: nat, k: nat)
    requires n < |text| && forall i | 0 <= i <= n :: text[i] != '\n'
    ensures LineEnd(text, k) > n
  {
    if n > 0 { NoBreakNoEnd(text[1..], n - 1, k); }
  }

  lemma WholeLinesShown(lineToNode: LineMap, rendered: string, kept: string)
    requires kept != [] && kept <= rendered && WholeLines(rendered, kept)
    requires forall line | line in lineToNode :: line < LineCount(rendered)
    ensures Shown(lineToNode, rendered, kept) == Inside(lineToNode, rendered, |kept|)
  {
    assert |kept| == |rendered| || rendered[|kept|] == (kept + "\n")[|kept|] == '\n';
    forall line | line in lineToNode
      ensures line < LineCount(kept) <==> line < LineCount(rendered) && LineEnd(rendered, line) <= |kept|
    {
      CountedLinesFit(rendered, kept, line);
    }
  }

  /** The cut is the longest there is: on the last line break the cap reaches, or else on the cap itself. */
  lemma TruncateKeepsAllThatFits(text: string, maxChars: Option<int>)
    requires Cuts(text, maxChars)
    ensures var kept := Truncate(text, maxChars);
            || (text[|kept|] == '\n' && forall k | |kept| < k <= maxChars.value :: text[k] != '\n')
            || (|kept| == maxChars.value && forall k | 1 <= k <= maxChars.value :: text[k] != '\n')
  {
  }

  /** Every line that ends by the cap is in the text whole, except an empty first line. */
  lemma LinesWithinTheCapAreKept(text: string, maxChars: Option<int>, k: nat)
    requires Cuts(text, maxChars) && k < LineCount(text) && 0 < LineEnd(text, k) <= maxChars.value
    ensures LineEnd(text, k) <= |Truncate(text, maxChars)| && text[|Truncate(text, maxChars)|] == '\n'
  {
    LineEndsAtBreak(text, k);
    TruncateKeepsAllThatFits(text, maxChars);
  }

  lemma {:induction false} LineEndsAtBreak(text: string, k: nat)
    requires k < LineCount(text)
    ensures LineEnd(text, k) <= |text| && (LineEnd(text, k) < |text| ==> text[LineEnd(text, k)] == '\n')
  {
    if text != [] && !(text[0] == '\n' && k == 0) {
      LineEndsAtBreak(text[1..], if text[0] == '\n' then k - 1 else k);
    }
  }

  /** And the ref on such a line is kept. */
  lemma RefsWithinTheCapAreKept(lineToNode: LineMap, rendered: string, maxChars: Option<int>, k: nat)
    requires Cuts(rendered, maxChars) && k in lineToNode && lineToNode[k].Some?
    requires k < LineCount(rendered) && 0 < LineEnd(rendered, k) <= maxChars.value
    ensures lineToNode[k].value in Shown(lineToNode, rendered, Truncate(rendered, maxChars))
  {
    var kept := Truncate(rendered, maxChars);
    LinesWithinTheCapAreKept(rendered, maxChars, k);
    CountedLinesFit(rendered, kept, k);
    assert kept + "\n" <= rendered;
  }

  lemma {:induction false} PrefixHasNoMoreLines(text: string, kept: string)
    requires kept <= text
    ensures LineCount(kept) <= LineCount(text)
  {
    if kept != [] { PrefixHasNoMoreLines(text[1..], kept[1..]); }
  }

  /** Whatever the line map says and wherever the text is cut, a ref shown stands on a line wholly inside. */
  lemma ShownIsInside(lineToNode: LineMap, rendered: string, kept: string)
    requires kept <= rendered
    ensures Shown(lineToNode, rendered, kept) <= Inside(lineToNode, rendered, |kept|)
  {
    PrefixHasNoMoreLines(rendered, kept);
    if WholeLines(rendered, kept) && kept != [] {
      assert |kept| == |rendered| || rendered[|kept|] == (kept + "\n")[|kept|] == '\n';
      forall line | line in lineToNode && line < LineCount(kept)
        ensures line < LineCount(rendered) && LineEnd(rendered, line) <= |kept|
      {
        CountedLinesFit(rendered, kept, line);
      }
    }
  }

  /** A cut inside the first line leaves no whole line, so no ref. */
  lemma CutInFirstLine(rendered: string, maxChars: int)
    requires 0 < maxChars < |rendered| && LastBreak(rendered, maxChars) <= 0
    ensures !WholeLines(rendered, rendered[..maxChars])
    ensures forall k | 0 < k < LineCount(rendered) :: LineEnd(rendered, k) > maxChars
    ensures LineEnd(rendered, 0) <= maxChars <==> LastBreak(rendered, maxChars) == 0
  {
    var kept := rendered[..maxChars];
    assert rendered[maxChars] != '\n';
    assert (kept + "\n")[maxChars] == '\n';
    forall k: nat ensures rendered[0] != '\n' || k > 0 ==> LineEnd(rendered, k) > maxChars {
      if rendered[0] != '\n' {
        NoBreakNoEnd(rendered, maxChars, k);
      } else if k > 0 {
        NoBreakNoEnd(rendered[1..], maxChars - 1, k - 1);
      }
    }
  }

  /**
   Cap exactness. The refs kept after a cut are exactly those on lines wholly inside the returned
   text, unless the rendering starts with an empty line that carries a ref and nothing else fits; the
   renderer starts every line with its indentation and a dash, so it never does.
   */
  lemma ShownExactlyIff(lineToNode: LineMap, rendered: string, maxChars: Option<int>)
    requires Cuts(rendered, maxChars)
    requires forall line | line in lineToNode :: line < LineCount(rendered)
    ensures var kept := Truncate(rendered, maxChars);
            Shown(lineToNode, rendered, kept) == Inside(lineToNode, rendered, |kept|) <==>
            !(LastBreak(rendered, maxChars.value) == 0 && 0 in lineToNode && lineToNode[0].Some?)
    ensures rendered[0] != '\n' ==>
              Shown(lineToNode, rendered, Truncate(rendered, maxChars)) ==
              Inside(lineToNode, rendered, |Truncate(rendered, maxChars)|)
  {
    var kept := Truncate(rendered, maxChars);
    var cut := LastBreak(rendered, maxChars.value);
    if cut > 0 {
      assert kept + "\n" <= rendered;
      WholeLinesShown(lineToNode, rendered, kept);
    } else {
      CutInFirstLine(rendered, maxChars.value);
      if cut == 0 && 0 in lineToNode && lineToNode[0].Some? {
        assert lineToNode[0].value in Inside(lineToNode, rendered, |kept|);
      }
    }
  }
}
