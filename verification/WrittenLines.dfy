/**
 What the lines of a batch are (src-tauri/src/acp_transcript.rs), said of records and lines alone: which
 records each line stands for, and that no two neighbouring lines could have been one.
 */
module WrittenLines {
  import opened Sequences
  import opened Options
  import opened Conversation
  import opened Compaction

  // ---- the description

  /** An agent chunk of plain text. */
  predicate IsText(r: Record) {
    r.Item? && r.entry.Update? && r.entry.update.AgentChunk? && r.entry.update.content.Text?
  }

  /** An agent chunk of plain text, of this kind and with this `_meta`. */
  predicate PlainText(r: Record, kind: ChunkKind, meta: Option<string>) {
    IsText(r) && r.entry.update.kind == kind && r.entry.update.meta == meta
  }

  /** The text of a run of chunks, one after another. */
  function TextOf(run: seq<Record>): string {
    if run == [] then ""
    else
      var last := run[|run| - 1];
      TextOf(run[..|run| - 1]) + if IsText(last) then last.entry.update.content.text else ""
  }

  /** The line stands for the run: its kind, its `_meta`, its first payload, all its text, its last time. */
  predicate StandsForRun(run: seq<Record>, line: Record) {
    && run != [] && IsText(line) && IsText(run[0]) && IsText(run[|run| - 1])
    && (forall r | r in run :: PlainText(r, line.entry.update.kind, line.entry.update.meta))
    && line.entry.t == run[|run| - 1].entry.t
    && line.entry.update == run[0].entry.update.(content := Text(TextOf(run)))
  }

  predicate StandsFor(group: seq<Record>, line: Record) {
    group == [line] || StandsForRun(group, line)
  }

  /** Whether merging is allowed after these records: the last prompt or turn end says. */
  predicate Live(rs: seq<Record>, before: bool) {
    if rs == [] then before
    else if rs[|rs| - 1].Item? && rs[|rs| - 1].entry.Prompt? then true
    else if rs[|rs| - 1].Item? && rs[|rs| - 1].entry.TurnEnd? then false
    else Live(rs[..|rs| - 1], before)
  }

  /** Two lines that could have been one. */
  predicate OneKind(a: Record, b: Record) {
    IsText(a) && PlainText(b, a.entry.update.kind, a.entry.update.meta)
  }

  /** Line `i` stands for group `i`; it merges nothing outside a live turn and leaves nothing to merge inside one. */
  predicate Described1(groups: seq<seq<Record>>, lines: seq<Record>, compactable: bool, i: nat)
    requires i < |groups| == |lines|
  {
    var live := Live(Concat(groups[..i]), compactable);
    && StandsFor(groups[i], lines[i])
    && (!live ==> |groups[i]| == 1)
    && (live && i > 0 ==> !OneKind(lines[i - 1], lines[i]))
  }

  /** `lines` stand for `groups` one by one, live runs merged as far as they go and nothing else merged. */
  ghost predicate Describes(groups: seq<seq<Record>>, lines: seq<Record>, compactable: bool) {
    |groups| == |lines| && forall i | 0 <= i < |lines| :: Described1(groups, lines, compactable, i)
  }

  lemma ConcatSnoc(groups: seq<seq<Record>>, g: seq<Record>)
    ensures Concat(groups + [g]) == Concat(groups) + g
  {
    assert (groups + [g])[..|groups|] == groups;
  }

  lemma LiveSnoc(rs: seq<Record>, r: Record, before: bool)
    ensures Live(rs + [r], before) <==> FlagAfter(Live(rs, before), r)
  {
    assert (rs + [r])[..|rs|] == rs;
  }

  lemma TextOfSnoc(run: seq<Record>, r: Record)
    requires IsText(r)
    ensures TextOf(run + [r]) == TextOf(run) + r.entry.update.content.text
  {
    assert (run + [r])[..|run|] == run;
  }

  lemma AddLine(groups: seq<seq<Record>>, lines: seq<Record>, compactable: bool, g: seq<Record>, line: Record)
    requires Describes(groups, lines, compactable) && StandsFor(g, line)
    requires !Live(Concat(groups), compactable) ==> |g| == 1
    requires lines != [] && Live(Concat(groups), compactable) ==> !OneKind(lines[|lines| - 1], line)
    ensures Describes(groups + [g], lines + [line], compactable)
  {
    var n := |groups|;
    forall i | 0 <= i <= n ensures Described1(groups + [g], lines + [line], compactable, i) {
      assert (groups + [g])[..i] == groups[..i];
      if i < n { assert Described1(groups, lines, compactable, i); } else { assert groups[..n] == groups; }
    }
  }

  lemma DropLine(groups: seq<seq<Record>>, lines: seq<Record>, compactable: bool)
    requires Describes(groups, lines, compactable) && lines != []
    ensures Describes(groups[..|groups| - 1], lines[..|lines| - 1], compactable)
  {
    var n := |lines| - 1;
    forall i | 0 <= i < n ensures Described1(groups[..n], lines[..n], compactable, i) {
      assert groups[..n][..i] == groups[..i];
      assert Described1(groups, lines, compactable, i);
    }
  }

  // ---- the loop keeps it

  /** What holds of the lines so far when the open run counts as the last of them. */
  ghost predicate Described(groups: seq<seq<Record>>, b: Batch, rs: seq<Record>, compactable: bool) {
    && Describes(groups, Close(b), compactable) && Concat(groups) == rs
    && (b.compactable <==> Live(rs, compactable))
    && (b.open.Some? ==> Live(Concat(groups[..|b.out|]), compactable)
                         && StandsForRun(groups[|b.out|], Item(b.open.value)))
    && (b.open.None? && b.compactable && b.out != [] ==> !IsText(b.out[|b.out| - 1]))
  }

  lemma RunGrows(run: seq<Record>, open: Entry, e: Entry)
    requires StandsForRun(run, Item(open)) && Joinable(open, e)
    ensures StandsForRun(run + [Item(e)], Item(Join(open, e)))
  {
    TextOfSnoc(run, Item(e));
  }

  /** The run goes on. */
  lemma JoinDescribed(groups: seq<seq<Record>>, b: Batch, rs: seq<Record>, compactable: bool, e: Entry)
    returns (after: seq<seq<Record>>)
    requires Described(groups, b, rs, compactable) && b.compactable && b.open.Some? && Joinable(b.open.value, e)
    ensures Described(after, b.(open := Some(Join(b.open.value, e))), rs + [Item(e)], compactable)
  {
    var n := |b.out|;
    var init, run := groups[..n], groups[n];
    var joined := Item(Join(b.open.value, e));
    DropLine(groups, Close(b), compactable);
    assert Close(b)[..n] == b.out;
    RunGrows(run, b.open.value, e);
    assert Described1(groups, Close(b), compactable, n);
    AddLine(init, b.out, compactable, run + [Item(e)], joined);
    after := init + [run + [Item(e)]];
    ConcatSnoc(init, run);
    ConcatSnoc(init, run + [Item(e)]);
    Associates(Concat(init), run, [Item(e)]);
    assert groups == init + [run] && after[..n] == init;
    LiveSnoc(rs, Item(e), compactable);
  }

  /** A new line begins: an open run, or a record that ends one. */
  lemma AppendDescribed(groups: seq<seq<Record>>, b: Batch, rs: seq<Record>, compactable: bool, r: Record)
    requires Described(groups, b, rs, compactable)
    requires !(r.Item? && b.compactable && b.open.Some? && Joinable(b.open.value, r.entry))
    ensures Described(groups + [[r]], Put(b, r), rs + [r], compactable)
  {
    PutAppends(b, r);
    assert Close(b) != [] && b.compactable ==> !OneKind(Close(b)[|Close(b)| - 1], r);
    AddLine(groups, Close(b), compactable, [r], r);
    ConcatSnoc(groups, [r]);
    LiveSnoc(rs, r, compactable);
    var after := groups + [[r]];
    assert after[..|groups|] == groups;
    if r.Item? && IsText(r) { OneIsARun(r); }
  }

  lemma OneIsARun(r: Record)
    requires IsText(r)
    ensures StandsForRun([r], r)
  {
    TextOfSnoc([], r);
    assert [] + [r] == [r] && TextOf([]) + r.entry.update.content.text == r.entry.update.content.text;
  }

  lemma {:induction false} LoopDescribes(rs: seq<Record>, compactable: bool) returns (groups: seq<seq<Record>>)
    ensures Described(groups, PutAll(Batch([], None, compactable), rs), rs, compactable)
  {
    if rs == [] {
      groups := [];
    } else {
      var n := |rs| - 1;
      var b := PutAll(Batch([], None, compactable), rs[..n]);
      groups := LoopDescribes(rs[..n], compactable);
      assert rs == rs[..n] + [rs[n]];
      if rs[n].Item? && b.compactable && b.open.Some? && Joinable(b.open.value, rs[n].entry) {
        groups := JoinDescribed(groups, b, rs[..n], compactable, rs[n].entry);
      } else {
        AppendDescribed(groups, b, rs[..n], compactable, rs[n]);
        groups := groups + [[rs[n]]];
      }
    }
  }

  /**
   For every window and flag: the records fall into consecutive groups, one per written line. A group is one
   record written as it is, or a run of plain agent text of one kind and one `_meta`, whose line has that
   kind and `_meta`, the run's first payload, all its text and its last time. Outside a live turn every group
   is a single record; inside one no two neighbouring lines could still have been one. The flag handed on says
   whether the last prompt or turn end left a turn live.
   */
  lemma LinesAreGroups(rs: seq<Record>, compactable: bool) returns (groups: seq<seq<Record>>)
    ensures Describes(groups, Compacted(rs, compactable), compactable) && Concat(groups) == rs
    ensures NextFlag(rs, compactable) <==> Live(rs, compactable)
  {
    groups := LoopDescribes(rs, compactable);
  }
}
