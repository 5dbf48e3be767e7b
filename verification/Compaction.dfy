/**
 `compact_batch` (src-tauri/src/acp_transcript.rs): merging each run of streamed agent text
 before it is written, and why no reader of the file can tell.
 */
module Compaction {
  import opened Sequences
  import opened Options
  import opened Conversation

  /** A record waiting to be written. */
  datatype Record = Head(header: Header) | Item(entry: Entry)

  predicate IsBoundary(r: Record) {
    r.Head? || r.entry.Prompt? || r.entry.TurnEnd?
  }

  /** `mergeable_chunk_kind(..).is_some()`: an agent chunk whose content is plain text. */
  predicate Mergeable(e: Entry) {
    e.Update? && e.update.AgentChunk? && e.update.content.Text?
  }

  /** Neighbours that may become one record: same chunk kind, equal `_meta`. */
  predicate Joinable(a: Entry, b: Entry) {
    Mergeable(a) && Mergeable(b) && a.update.kind == b.update.kind && a.update.meta == b.update.meta
  }

  /** `append_chunk_text`: the run keeps its first payload, grows its text, takes the last time. */
  function Join(a: Entry, b: Entry): Entry
    requires Joinable(a, b)
  {
    Update(b.t, a.update.(content := Text(a.update.content.text + b.update.content.text)))
  }

  /** The loop state: what is written, the run being merged, and whether merging is allowed. */
  datatype Batch = Batch(out: seq<Record>, open: Option<Entry>, compactable: bool)

  function Close(b: Batch): seq<Record> {
    b.out + if b.open.Some? then [Item(b.open.value)] else []
  }

  function FlagAfter(compactable: bool, r: Record): bool {
    if r.Head? then compactable
    else match r.entry
      case Prompt(_, _, _) => true
      case TurnEnd(_, _, _, _) => false
      case Update(_, _) => compactable
  }

  function Put(b: Batch, r: Record): Batch {
    if r.Item? && b.compactable && Mergeable(r.entry) then
      if b.open.Some? && Joinable(b.open.value, r.entry)
      then b.(open := Some(Join(b.open.value, r.entry)))
      else Batch(Close(b), Some(r.entry), b.compactable)
    else Batch(Close(b) + [r], None, FlagAfter(b.compactable, r))
  }

  function PutAll(b: Batch, rs: seq<Record>): Batch {
    if rs == [] then b else Put(PutAll(b, rs[..|rs| - 1]), rs[|rs| - 1])
  }

  /** The lines a batch is written as, and the flag for the next batch. */
  function Compacted(rs: seq<Record>, compactable: bool): seq<Record> {
    Close(PutAll(Batch([], None, compactable), rs))
  }

  function NextFlag(rs: seq<Record>, compactable: bool): bool {
    PutAll(Batch([], None, compactable), rs).compactable
  }

  /** The source's loop. */
  method CompactBatch(pending: seq<Record>, compactable: bool) returns (lines: seq<Record>, next: bool)
    ensures lines == Compacted(pending, compactable) && next == NextFlag(pending, compactable)
  {
    lines, next := [], compactable;
    var open: Option<Entry> := None;
    for i := 0 to |pending|
      invariant Batch(lines, open, next) == PutAll(Batch([], None, compactable), pending[..i])
    {
      assert pending[..i + 1][..i] == pending[..i];
      var record := pending[i];
      if record.Item? && record.entry.Update? && next && Mergeable(record.entry) {
        if open.Some? && Joinable(open.value, record.entry) {
          open := Some(Join(open.value, record.entry));
        } else {
          if open.Some? { lines := lines + [Item(open.value)]; }
          open := Some(record.entry);
        }
      } else {
        if open.Some? { lines, open := lines + [Item(open.value)], None; }
        if record.Item? && record.entry.Prompt? { next := true; }
        if record.Item? && record.entry.TurnEnd? { next := false; }
        lines := lines + [record];
      }
    }
    assert pending[..|pending|] == pending;
    if open.Some? { lines := lines + [Item(open.value)]; }
  }

  // ---- what the lines say

  function Entries(rs: seq<Record>): seq<Entry> {
    if rs == [] then []
    else Entries(rs[..|rs| - 1]) + if rs[|rs| - 1].Item? then [rs[|rs| - 1].entry] else []
  }

  function Headers(rs: seq<Record>): seq<Header> {
    if rs == [] then []
    else Headers(rs[..|rs| - 1]) + if rs[|rs| - 1].Head? then [rs[|rs| - 1].header] else []
  }

  lemma {:induction false} EntriesAppend(a: seq<Record>, b: seq<Record>)
    ensures Entries(a + b) == Entries(a) + Entries(b)
    ensures Headers(a + b) == Headers(a) + Headers(b)
  {
    if b == [] {
      assert a + b == a;
    } else {
      assert (a + b)[..|a + b| - 1] == a + b[..|b| - 1];
      EntriesAppend(a, b[..|b| - 1]);
    }
  }

  // ---- the reader's view: every scan `get_conversation` makes, as one fold

  datatype View = View(
    reader: Reader, window: (Option<nat>, Option<nat>), first: Option<nat>, last: Option<nat>,
    prompts: nat, title: Option<string>)

  const BLANK := View(FRESH_READER, (None, None), None, None, 0, None)

  function See(v: View, e: Entry): View {
    View(ReadEntry(v.reader, e),
         if e.Update? && e.update.Usage? then
           if e.update.size.Some? && e.update.size.value > 0 then (e.update.used, e.update.size) else (None, None)
         else v.window,
         v.first.Or(Some(e.t)), Some(e.t),
         v.prompts + if e.Prompt? then 1 else 0,
         v.title.Or(if e.Prompt? then Some(e.text) else None))
  }

  function SeeAll(v: View, es: seq<Entry>): View {
    if es == [] then v else See(SeeAll(v, es[..|es| - 1]), es[|es| - 1])
  }

  lemma {:induction false} SeeAppend(v: View, a: seq<Entry>, b: seq<Entry>)
    ensures SeeAll(v, a + b) == SeeAll(SeeAll(v, a), b)
    decreases |b|
  {
    if b == [] {
      assert a + b == a;
    } else {
      assert (a + b)[..|a + b| - 1] == a + b[..|b| - 1];
      SeeAppend(v, a, b[..|b| - 1]);
    }
  }

  /** The fold computes exactly the separate scans. */
  lemma {:induction false} SeeIsScans(es: seq<Entry>)
    ensures SeeAll(BLANK, es) ==
            View(ReadAll(FRESH_READER, es), ContextWindow(es),
                 if es != [] then Some(es[0].t) else None, if es != [] then Some(es[|es| - 1].t) else None,
                 PromptCount(es), FirstPrompt(es))
  {
    if es != [] { SeeIsScans(es[..|es| - 1]); }
  }

  /** Equal views show equal conversations, whatever the header. */
  lemma ShowFromView(header: Option<Header>, a: seq<Entry>, b: seq<Entry>)
    requires SeeAll(BLANK, a) == SeeAll(BLANK, b)
    ensures Show(header, a) == Show(header, b)
  {
    SeeIsScans(a);
    SeeIsScans(b);
  }

  // ---- the merge is invisible

  /** What the `compactable` flag promises about the reader that has read up to here. */
  predicate Sound(compactable: bool, v: View) {
    compactable ==> StartFixed(v.reader) && v.first.Some?
  }

  /** Pushing two same-kind texts is pushing their concatenation. */
  lemma PushTwice(p: Pending, a: string, b: string, kind: ChunkKind)
    ensures PushText(PushText(p, a, kind), b, kind) == PushText(p, a + b, kind)
  {
    var n := |p.blocks|;
    if a == [] {
      assert a + b == b;
    } else if b == [] {
      assert a + b == a;
    } else if n > 0 {
      if p.blocks[n - 1].TextBlock? || p.blocks[n - 1].Thinking? { Associates(p.blocks[n - 1].text, a, b); }
    }
  }

  /** `PushText` neither looks at nor touches the times. */
  lemma PushKeepsTimes(p: Pending, t: nat, text: string, kind: ChunkKind)
    ensures PushText(p, text, kind).(last := t) == PushText(p.(last := t), text, kind)
  {
  }

  /** Reading a joined run is reading its two halves, once the turn's start is fixed. */
  lemma JoinInvisible(v: View, a: Entry, b: Entry)
    requires Joinable(a, b) && Sound(true, v)
    ensures See(See(v, a), b) == See(v, Join(a, b))
    ensures Sound(true, See(v, a))
  {
    var kind, ta, tb := a.update.kind, a.update.content.text, b.update.content.text;
    var p := OpenTurn(v.reader, a.t);
    PushTwice(p.(last := b.t), ta, tb, kind);
    PushKeepsTimes(p.(last := a.t), b.t, ta, kind);
    assert OpenTurn(v.reader, b.t) == p;
  }

  /** Where the loop stands: the view of everything consumed is the view of everything emitted. */
  predicate Faithful(v: View, b: Batch, rs: seq<Record>) {
    && SeeAll(v, Entries(Close(b))) == SeeAll(v, Entries(rs))
    && Sound(b.compactable, SeeAll(v, Entries(rs)))
    && (b.open.Some? ==> b.compactable && Mergeable(b.open.value) && Sound(true, SeeAll(v, Entries(b.out))))
  }

  lemma EntriesSnoc(rs: seq<Record>, r: Record)
    ensures Entries(rs + [r]) == Entries(rs) + if r.Item? then [r.entry] else []
    ensures Headers(rs + [r]) == Headers(rs) + if r.Head? then [r.header] else []
  {
    assert (rs + [r])[..|rs|] == rs;
  }

  lemma SeeSnoc(v: View, es: seq<Entry>, e: Entry)
    ensures SeeAll(v, es + [e]) == See(SeeAll(v, es), e)
  {
    assert (es + [e])[..|es|] == es;
  }

  /** Unless the record joins the open run, putting it appends it. */
  lemma PutAppends(b: Batch, r: Record)
    requires !(r.Item? && b.compactable && b.open.Some? && Joinable(b.open.value, r.entry))
    ensures Close(Put(b, r)) == Close(b) + [r]
  {
  }

  function SeeRecord(v: View, r: Record): View {
    if r.Item? then See(v, r.entry) else v
  }

  lemma SeeRecordSnoc(v: View, rs: seq<Record>, r: Record)
    ensures SeeAll(v, Entries(rs + [r])) == SeeRecord(SeeAll(v, Entries(rs)), r)
  {
    EntriesSnoc(rs, r);
    if r.Item? {
      SeeSnoc(v, Entries(rs), r.entry);
    } else {
      assert Entries(rs + [r]) == Entries(rs);
    }
  }

  /** A prompt fixes the start; only a turn end unfixes it, and that clears the flag. */
  lemma SoundStep(compactable: bool, v: View, r: Record)
    requires Sound(compactable, v)
    ensures Sound(FlagAfter(compactable, r), SeeRecord(v, r))
  {
  }

  lemma PutFaithful(v: View, b: Batch, rs: seq<Record>, r: Record)
    requires Faithful(v, b, rs)
    ensures Faithful(v, Put(b, r), rs + [r])
  {
    SeeRecordSnoc(v, rs, r);
    SoundStep(b.compactable, SeeAll(v, Entries(rs)), r);
    if r.Item? && b.compactable && b.open.Some? && Joinable(b.open.value, r.entry) {
      JoinFaithful(v, b, rs, r.entry);
    } else {
      AppendFaithful(v, b, rs, r);
    }
  }

  lemma AppendFaithful(v: View, b: Batch, rs: seq<Record>, r: Record)
    requires Faithful(v, b, rs)
    requires !(r.Item? && b.compactable && b.open.Some? && Joinable(b.open.value, r.entry))
    requires SeeAll(v, Entries(rs + [r])) == SeeRecord(SeeAll(v, Entries(rs)), r)
    requires Sound(FlagAfter(b.compactable, r), SeeRecord(SeeAll(v, Entries(rs)), r))
    ensures Faithful(v, Put(b, r), rs + [r])
  {
    PutAppends(b, r);
    SeeRecordSnoc(v, Close(b), r);
  }

  lemma JoinFaithful(v: View, b: Batch, rs: seq<Record>, e: Entry)
    requires Faithful(v, b, rs) && b.open.Some? && Joinable(b.open.value, e)
    ensures SeeAll(v, Entries(b.out + [Item(Join(b.open.value, e))])) == See(SeeAll(v, Entries(rs)), e)
  {
    JoinInvisible(SeeAll(v, Entries(b.out)), b.open.value, e);
    SeeRecordSnoc(v, b.out, Item(b.open.value));
    SeeRecordSnoc(v, b.out, Item(Join(b.open.value, e)));
  }

  lemma {:induction false} PutAllFaithful(v: View, compactable: bool, rs: seq<Record>)
    requires Sound(compactable, v)
    ensures Faithful(v, PutAll(Batch([], None, compactable), rs), rs)
  {
    if rs != [] {
      var n := |rs| - 1;
      PutAllFaithful(v, compactable, rs[..n]);
      PutFaithful(v, PutAll(Batch([], None, compactable), rs[..n]), rs[..n], rs[n]);
      assert rs == rs[..n] + [rs[n]];
    }
  }

  /**
   Compaction preserves meaning: from any reader state the flag is sound for, the written lines
   read exactly like the records, and the flag handed to the next batch is sound again.
   */
  lemma CompactionPreservesMeaning(v: View, rs: seq<Record>, compactable: bool)
    requires Sound(compactable, v)
    ensures SeeAll(v, Entries(Compacted(rs, compactable))) == SeeAll(v, Entries(rs))
    ensures Sound(NextFlag(rs, compactable), SeeAll(v, Entries(rs)))
  {
    PutAllFaithful(v, compactable, rs);
  }

  // ---- any split into flush windows

  function Concat(batches: seq<seq<Record>>): seq<Record> {
    if batches == [] then [] else Concat(batches[..|batches| - 1]) + batches[|batches| - 1]
  }

  /** The lines and flag after writing the batches one after another, the flag threaded through. */
  function WriteBatches(batches: seq<seq<Record>>, compactable: bool): (seq<Record>, bool) {
    if batches == [] then ([], compactable)
    else
      var (lines, flag) := WriteBatches(batches[..|batches| - 1], compactable);
      var batch := batches[|batches| - 1];
      (lines + Compacted(batch, flag), NextFlag(batch, flag))
  }

  lemma {:induction false} BatchesPreserveView(v: View, batches: seq<seq<Record>>, compactable: bool)
    requires Sound(compactable, v)
    ensures SeeAll(v, Entries(WriteBatches(batches, compactable).0)) == SeeAll(v, Entries(Concat(batches)))
    ensures Sound(WriteBatches(batches, compactable).1, SeeAll(v, Entries(Concat(batches))))
  {
    if batches != [] {
      var n := |batches| - 1;
      var (lines, flag) := WriteBatches(batches[..n], compactable);
      BatchesPreserveView(v, batches[..n], compactable);
      var mid := SeeAll(v, Entries(Concat(batches[..n])));
      CompactionPreservesMeaning(mid, batches[n], flag);
      EntriesAppend(lines, Compacted(batches[n], flag));
      EntriesAppend(Concat(batches[..n]), batches[n]);
      SeeAppend(v, Entries(lines), Entries(Compacted(batches[n], flag)));
      SeeAppend(v, Entries(Concat(batches[..n])), Entries(batches[n]));
    }
  }

  /**
   However a stream is cut into flush windows, a fresh writer's file shows the conversation the
   verbatim records show, also when earlier transcripts of a continuation chain precede it.
   */
  lemma AnyWindowsShowTheSame(header: Option<Header>, earlier: seq<Entry>, batches: seq<seq<Record>>)
    ensures Show(header, earlier + Entries(WriteBatches(batches, false).0)) ==
            Show(header, earlier + Entries(Concat(batches)))
  {
    var v := SeeAll(BLANK, earlier);
    BatchesPreserveView(v, batches, false);
    SeeAppend(BLANK, earlier, Entries(WriteBatches(batches, false).0));
    SeeAppend(BLANK, earlier, Entries(Concat(batches)));
    ShowFromView(header, earlier + Entries(WriteBatches(batches, false).0), earlier + Entries(Concat(batches)));
  }

  // ---- what is and is not merged

  /** The records merging may not touch, in order. */
  function Untouchable(rs: seq<Record>): seq<Record> {
    if rs == [] then []
    else
      var r := rs[|rs| - 1];
      Untouchable(rs[..|rs| - 1]) + if r.Item? && Mergeable(r.entry) then [] else [r]
  }

  lemma UntouchableSnoc(rs: seq<Record>, r: Record)
    ensures Untouchable(rs + [r]) == Untouchable(rs) + if r.Item? && Mergeable(r.entry) then [] else [r]
  {
    assert (rs + [r])[..|rs|] == rs;
  }

  /** What the loop has written keeps of what it has consumed. */
  predicate Keeps(b: Batch, rs: seq<Record>) {
    && (b.open.Some? ==> b.compactable && Mergeable(b.open.value))
    && Untouchable(Close(b)) == Untouchable(rs)
    && Headers(Close(b)) == Headers(rs)
    && |Close(b)| <= |rs|
    && (rs != [] ==> Close(b) != [])
  }

  lemma JoinKeeps(b: Batch, rs: seq<Record>, e: Entry)
    requires Keeps(b, rs) && b.open.Some? && Joinable(b.open.value, e)
    ensures Keeps(b.(open := Some(Join(b.open.value, e))), rs + [Item(e)])
  {
    var joined := Item(Join(b.open.value, e));
    UntouchableSnoc(rs, Item(e));
    EntriesSnoc(rs, Item(e));
    UntouchableSnoc(b.out, Item(b.open.value));
    EntriesSnoc(b.out, Item(b.open.value));
    UntouchableSnoc(b.out, joined);
    EntriesSnoc(b.out, joined);
  }

  lemma AppendKeeps(b: Batch, rs: seq<Record>, r: Record)
    requires Keeps(b, rs) && !(r.Item? && b.compactable && b.open.Some? && Joinable(b.open.value, r.entry))
    ensures Keeps(Put(b, r), rs + [r])
  {
    PutAppends(b, r);
    UntouchableSnoc(rs, r);
    EntriesSnoc(rs, r);
    UntouchableSnoc(Close(b), r);
    EntriesSnoc(Close(b), r);
  }

  lemma {:induction false} PutAllKeeps(compactable: bool, rs: seq<Record>)
    ensures Keeps(PutAll(Batch([], None, compactable), rs), rs)
  {
    if rs != [] {
      var n := |rs| - 1;
      var b := PutAll(Batch([], None, compactable), rs[..n]);
      PutAllKeeps(compactable, rs[..n]);
      assert rs == rs[..n] + [rs[n]];
      if rs[n].Item? && b.compactable && b.open.Some? && Joinable(b.open.value, rs[n].entry) {
        JoinKeeps(b, rs[..n], rs[n].entry);
      } else {
        AppendKeeps(b, rs[..n], rs[n]);
      }
    }
  }

  /** Prompts, turn ends, headers and every update but plain agent text are written unchanged, in order. */
  lemma EverythingElseIsVerbatim(rs: seq<Record>, compactable: bool)
    ensures Untouchable(Compacted(rs, compactable)) == Untouchable(rs)
    ensures Headers(Compacted(rs, compactable)) == Headers(rs)
    ensures rs != [] ==> 0 < |Compacted(rs, compactable)| <= |rs|
  {
    PutAllKeeps(compactable, rs);
  }

  /** Outside a live turn (a `session/load` replay, which has no prompts) nothing is merged at all. */
  lemma {:induction false} ReplayIsVerbatim(rs: seq<Record>)
    requires forall r | r in rs :: r.Item? ==> !r.entry.Prompt?
    ensures PutAll(Batch([], None, false), rs) == Batch(rs, None, false)
  {
    if rs != [] {
      assert rs[|rs| - 1] in rs;
      ReplayIsVerbatim(rs[..|rs| - 1]);
      assert rs == rs[..|rs| - 1] + [rs[|rs| - 1]];
    }
  }

  /** The concatenated text of a run. */
  function RunText(es: seq<Entry>): string {
    if es == [] then ""
    else RunText(es[..|es| - 1]) + if Mergeable(es[|es| - 1]) then es[|es| - 1].update.content.text else ""
  }

  function Items(es: seq<Entry>): seq<Record> {
    seq(|es|, (i: nat) requires i < |es| => Item(es[i]))
  }

  /** Inside a live turn a whole run becomes one record: all its text, its first payload, its last time. */
  lemma RunBecomesOneRecord(es: seq<Entry>)
    requires es != [] && Mergeable(es[0]) && forall i | 0 <= i < |es| :: Joinable(es[0], es[i])
    ensures Compacted(Items(es), true) ==
            [Item(Update(es[|es| - 1].t, es[0].update.(content := Text(RunText(es)))))]
    ensures NextFlag(Items(es), true)
  {
    RunIsOpen(es);
  }

  lemma {:induction false} RunIsOpen(es: seq<Entry>)
    requires es != [] && Mergeable(es[0]) && forall i | 0 <= i < |es| :: Joinable(es[0], es[i])
    ensures PutAll(Batch([], None, true), Items(es)) ==
            Batch([], Some(Update(es[|es| - 1].t, es[0].update.(content := Text(RunText(es))))), true)
  {
    var n := |es| - 1;
    assert Items(es)[..n] == Items(es[..n]);
    if n == 0 {
      assert Items(es)[0] == Item(es[0]);
      assert RunText(es) == es[0].update.content.text;
      assert PutAll(Batch([], None, true), Items(es[..0])) == Batch([], None, true);
    } else {
      RunIsOpen(es[..n]);
    }
  }

  /**
   The flag is not just sufficient: joining two chunks of different times goes unseen exactly when
   the reader has the turn's start, and the conversation's first time, from something earlier.
   */
  lemma JoinInvisibleIff(v: View, a: Entry, b: Entry)
    requires Joinable(a, b) && a.t != b.t
    ensures See(See(v, a), b) == See(v, Join(a, b)) <==> Sound(true, v)
  {
    if Sound(true, v) {
      JoinInvisible(v, a, b);
    } else if v.first.None? {
      assert See(See(v, a), b).first != See(v, Join(a, b)).first;
    } else {
      assert See(See(v, a), b).reader.pending.value.started == a.t;
      assert See(v, Join(a, b)).reader.pending.value.started == b.t;
    }
  }
}
