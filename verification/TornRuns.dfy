/**
 Whole runs through every failure, on every file (src-tauri/src/acp_transcript.rs): batches abandoned with
 and without their closing line break, poison and its eviction, files torn from the start.
 */
module TornRuns {
  import opened Sequences
  import opened Options
  import opened Conversation
  import opened Compaction
  import opened TranscriptReader
  import opened TranscriptFile
  import opened SessionWriter
  import opened WriterRuns
  import opened HeaderRuns

  // ---- finished lines and the unfinished one

  /** What the finished lines of a file say. */
  function FinishedEntries(file: Bytes): seq<Entry> {
    EntriesBut(Split(file).0, -1)
  }

  /** The tokens after the last line break. */
  function Tail(file: Bytes): Bytes {
    Split(file).1
  }

  /** What the unfinished line says for as long as nothing joins it. */
  function Hanging(file: Bytes): seq<Entry> {
    var entry := LineOf(Tail(file)).entry;
    if entry.Some? then [entry.value] else []
  }

  lemma FileIsFinishedAndHanging(file: Bytes)
    ensures FileEntries(file) == FinishedEntries(file) + Hanging(file)
  {
    FileEntriesAreAll(file);
    var (done, tail) := Split(file);
    if tail == [] {
      assert Lines(file) == done;
    } else {
      assert (done + [LineOf(tail)])[..|done|] == done;
    }
  }

  /** Whatever is appended is read after the unfinished line, and leaves the finished ones. */
  lemma {:induction false} SplitAppend(file: Bytes, more: Bytes)
    ensures Split(file + more) == (Split(file).0 + Split(Tail(file) + more).0, Split(Tail(file) + more).1)
    decreases |more|
  {
    if more == [] {
      TailAlone(file);
      assert file + more == file && Tail(file) + more == Tail(file);
      assert Split(file).0 + [] == Split(file).0;
    } else {
      var n := |more| - 1;
      SplitAppend(file, more[..n]);
      assert file + more == (file + more[..n]) + [more[n]];
      assert Tail(file) + more == (Tail(file) + more[..n]) + [more[n]];
      SplitSnoc(file + more[..n], more[n]);
      SplitSnoc(Tail(file) + more[..n], more[n]);
      var rest := Split(Tail(file) + more[..n]);
      Associates(Split(file).0, rest.0, [LineOf(rest.1)]);
    }
  }

  lemma {:induction false} TailAlone(file: Bytes)
    ensures Split(Tail(file)) == ([], Tail(file))
  {
    if file != [] {
      var n := |file| - 1;
      TailAlone(file[..n]);
      if !file[n].Newline? { SplitSnoc(Tail(file[..n]), file[n]); }
    }
  }

  lemma FinishedAppend(file: Bytes, more: Bytes)
    ensures FinishedEntries(file + more) == FinishedEntries(file) + FinishedEntries(Tail(file) + more)
  {
    SplitAppend(file, more);
    EntriesButAppend(Split(file).0, Split(Tail(file) + more).0);
  }

  // ---- a batch whose first line is lost

  lemma PutUnder(p: seq<Record>, b: Batch, r: Record)
    ensures Put(b.(out := p + b.out), r) == Put(b, r).(out := p + Put(b, r).out)
  {
    if b.open.Some? {
      assert p + b.out + [Item(b.open.value)] == p + (b.out + [Item(b.open.value)]);
      assert p + b.out + [Item(b.open.value)] + [r] == p + (b.out + [Item(b.open.value)] + [r]);
    } else {
      assert p + b.out + [] == p + (b.out + []);
      assert p + b.out + [] + [r] == p + (b.out + [] + [r]);
    }
  }

  /** Outside a live turn the first record of a batch is written as it is, and the rest on its own. */
  lemma {:induction false} PutAllAfterFirst(rs: seq<Record>)
    requires rs != []
    ensures var b := PutAll(Batch([], None, FlagAfter(false, rs[0])), rs[1..]);
            PutAll(Batch([], None, false), rs) == b.(out := [rs[0]] + b.out)
  {
    var n := |rs| - 1;
    if n == 0 {
      assert rs[..0] == [] && [] + [] + [rs[0]] == [rs[0]] + [];
    } else {
      PutAllAfterFirst(rs[..n]);
      assert rs[..n][1..] == rs[1..][..n - 1];
      PutUnder([rs[0]], PutAll(Batch([], None, FlagAfter(false, rs[0])), rs[1..][..n - 1]), rs[n]);
    }
  }

  lemma CompactedAfterFirst(rs: seq<Record>)
    requires rs != []
    ensures Compacted(rs, false) == [rs[0]] + Compacted(rs[1..], FlagAfter(false, rs[0]))
    ensures NextFlag(rs, false) == NextFlag(rs[1..], FlagAfter(false, rs[0]))
  {
    PutAllAfterFirst(rs);
    var b := PutAll(Batch([], None, FlagAfter(false, rs[0])), rs[1..]);
    var open := if b.open.Some? then [Item(b.open.value)] else [];
    assert [rs[0]] + b.out + open == [rs[0]] + (b.out + open);
  }

  /** On an unfinished line a batch finishes all its lines but the first. */
  lemma GluedBatchFinishes(tail: Bytes, written: seq<Record>)
    requires Split(tail) == ([], tail) && tail != [] && written != []
    ensures FinishedEntries(tail + Serialize(written)) == Entries(written[1..])
    ensures Tail(tail + Serialize(written)) == []
  {
    GluedSplit(tail, written[0], written[1..]);
    assert written == [written[0]] + written[1..];
    LinesOfRecords(written[1..]);
    JunkFirst(RecordLines(written[1..]));
  }

  lemma JunkFirst(lines: seq<Line>)
    ensures EntriesBut([] + ([Line(None, None)] + lines), -1) == EntriesBut(lines, -1)
  {
    EntriesButAppend([Line(None, None)], lines);
    assert [Line(None, None)][..0] == [];
    assert [] + ([Line(None, None)] + lines) == [Line(None, None)] + lines;
  }

  // ---- attempts and runs

  /**
   What an attempt adds to what the finished lines say: a landed batch verbatim, without its first record
   if the file did not end in a line break; of an abandoned one what got finished.
   */
  function Finishes(s: Session, io: Io): seq<Entry> {
    if Landed(s, io) then Entries(if Tail(s.file) == [] then Records(s.w.pending) else Records(s.w.pending)[1..])
    else FinishedEntries(Tail(s.file) + Left(s, io))
  }

  /** Neither cause of a wrong merge: a prompt glued while the reader has no start, a turn end left behind. */
  predicate Safe(s: Session, io: Io, v: View) {
    && (Landed(s, io) && Tail(s.file) != [] && FlagAfter(false, s.w.pending[0].record) ==>
          Sound(true, SeeAll(v, FinishedEntries(s.file))))
    && (Abandons(s, io) && io.closed && s.w.compactable ==> EndsFixed(Finishes(s, io), true))
  }

  function JobFinishes(s: Session, p: Pass): seq<Entry> {
    if p.job.Some? && FlushesAtOnce(s, p.job.value)
    then Finishes(Enqueued(Touched(s, p.now), p.job.value, p.now), p.io) else []
  }

  function DeadlineFinishes(s: Session, p: Pass): seq<Entry> {
    if Due(s.w, p.now) then Finishes(s, p.retryIo) else []
  }

  predicate PassSafe(s: Session, p: Pass, v: View) {
    && (p.job.Some? && FlushesAtOnce(s, p.job.value) ==>
          Safe(Enqueued(Touched(s, p.now), p.job.value, p.now), p.io, v))
    && (Due(AfterJob(s, p).w, p.now) ==> Safe(AfterJob(s, p), p.retryIo, v))
  }

  function RunFinishes(s: Session, ps: seq<Pass>): seq<Entry> {
    if ps == [] then []
    else
      var init, last := ps[..|ps| - 1], ps[|ps| - 1];
      RunFinishes(s, init) + JobFinishes(Run(s, init), last) + DeadlineFinishes(AfterJob(Run(s, init), last), last)
  }

  predicate RunSafe(s: Session, ps: seq<Pass>, v: View) {
    ps == [] || (RunSafe(s, ps[..|ps| - 1], v) && PassSafe(Run(s, ps[..|ps| - 1]), ps[|ps| - 1], v))
  }

  /** The finished lines tell what was there and what has been finished since; a writer that merges may. */
  ghost predicate Told(s: Session, v: View, base: seq<Entry>, said: seq<Entry>) {
    && EchoHasHint(v.reader) && (s.w.poisoned ==> s.w.pending == [])
    && SeeAll(v, FinishedEntries(s.file)) == SeeAll(v, base + said)
    && (s.w.compactable && !s.w.poisoned ==>
          Tail(s.file) == [] && Sound(true, SeeAll(v, FinishedEntries(s.file))))
  }

  /** The step all attempts share: what is appended reads like what is said to be. */
  lemma AppendTells(v: View, file: Bytes, more: Bytes, base: seq<Entry>, said: seq<Entry>, added: seq<Entry>)
    requires SeeAll(v, FinishedEntries(file)) == SeeAll(v, base + said)
    requires SeeAll(SeeAll(v, base + said), FinishedEntries(Tail(file) + more)) == SeeAll(SeeAll(v, base + said), added)
    ensures SeeAll(v, FinishedEntries(file + more)) == SeeAll(v, base + (said + added))
  {
    FinishedAppend(file, more);
    SeeAppend(v, FinishedEntries(file), FinishedEntries(Tail(file) + more));
    SeeAppend(v, base + said, added);
    Associates(base, said, added);
  }

  /** What a landed batch finishes, against its verbatim records. */
  lemma LandedReads(s: Session, io: Io, v: View)
    requires Landed(s, io) && Safe(s, io, v)
    requires s.w.compactable ==> Tail(s.file) == [] && Sound(true, SeeAll(v, FinishedEntries(s.file)))
    ensures var before := SeeAll(v, FinishedEntries(s.file));
            && SeeAll(before, FinishedEntries(Tail(s.file) + Left(s, io))) == SeeAll(before, Finishes(s, io))
            && Sound(NextFlag(Records(s.w.pending), s.w.compactable), SeeAll(before, Finishes(s, io)))
    ensures Tail(s.file + Left(s, io)) == []
  {
    var before, rs := SeeAll(v, FinishedEntries(s.file)), Records(s.w.pending);
    SplitAppend(s.file, Left(s, io));
    EverythingElseIsVerbatim(rs, s.w.compactable);
    if Tail(s.file) == [] {
      AppendBatch([], BatchLines(s.w));
      LinesOfRecords(BatchLines(s.w));
      assert [] + Serialize(BatchLines(s.w)) == Tail(s.file) + Left(s, io);
      assert [] + RecordLines(BatchLines(s.w)) == RecordLines(BatchLines(s.w));
      CompactionPreservesMeaning(before, rs, s.w.compactable);
    } else {
      TailAlone(s.file);
      GluedBatchFinishes(Tail(s.file), BatchLines(s.w));
      CompactedAfterFirst(rs);
      assert BatchLines(s.w)[1..] == Compacted(rs[1..], FlagAfter(false, rs[0]));
      CompactionPreservesMeaning(before, rs[1..], FlagAfter(false, rs[0]));
    }
  }

  lemma LandedTold(s: Session, io: Io, now: nat, v: View, base: seq<Entry>, said: seq<Entry>)
    requires Told(s, v, base, said) && Landed(s, io) && Safe(s, io, v)
    ensures Told(Flushed(s, io, now), v, base, said + Finishes(s, io))
  {
    LandedReads(s, io, v);
    AppendTells(v, s.file, Left(s, io), base, said, Finishes(s, io));
    FinishedAppend(s.file, Left(s, io));
    SeeAppend(v, FinishedEntries(s.file), FinishedEntries(Tail(s.file) + Left(s, io)));
    FlushedFile(s, io, now);
  }

  /** A closing line break ends the unfinished line. */
  lemma ClosedHasNoTail(s: Session, io: Io)
    requires Abandons(s, io) && io.closed
    ensures Tail(s.file + Left(s, io)) == []
  {
    var part := Partial(BatchLines(s.w), io.cut, io.torn);
    Associates(s.file, part, [Newline]);
    SplitSnoc(s.file + part, Newline);
  }

  lemma AbandonedTold(s: Session, io: Io, now: nat, v: View, base: seq<Entry>, said: seq<Entry>)
    requires Told(s, v, base, said) && Abandons(s, io) && Safe(s, io, v)
    ensures Told(Flushed(s, io, now), v, base, said + Finishes(s, io))
  {
    AppendTells(v, s.file, Left(s, io), base, said, Finishes(s, io));
    FlushedFile(s, io, now);
    if io.closed && s.w.compactable {
      ClosedHasNoTail(s, io);
      FinishedAppend(s.file, Left(s, io));
      StillSound(v, FinishedEntries(s.file), Finishes(s, io));
    }
  }

  /** Entries that leave a turn open, after a reader that has a start, leave it with one. */
  lemma StillSound(v: View, before: seq<Entry>, more: seq<Entry>)
    requires EchoHasHint(v.reader) && Sound(true, SeeAll(v, before)) && EndsFixed(more, true)
    ensures Sound(true, SeeAll(v, before + more))
  {
    var mid := SeeAll(v, before);
    SeeAppend(v, before, more);
    SeeReader(v, before);
    SeeReader(mid, more);
    EchoKept(v.reader, before);
    StartFixedIff(mid.reader, more);
    FirstStays(mid, more);
  }

  lemma NothingLeft(s: Session, io: Io, now: nat)
    requires !Landed(s, io) && !Abandons(s, io) && (s.w.poisoned ==> s.w.pending == [])
    ensures Finishes(s, io) == [] && Flushed(s, io, now).file == s.file
    ensures var f := Flushed(s, io, now);
            f.w.compactable == s.w.compactable && f.w.poisoned == s.w.poisoned && f.w.pending == s.w.pending
  {
    TailAlone(s.file);
    assert Tail(s.file) + [] == Tail(s.file);
  }

  lemma FlushTold(s: Session, io: Io, now: nat, v: View, base: seq<Entry>, said: seq<Entry>)
    requires Told(s, v, base, said) && Safe(s, io, v)
    ensures Told(Flushed(s, io, now), v, base, said + Finishes(s, io))
  {
    if Landed(s, io) {
      LandedTold(s, io, now, v, base, said);
    } else if Abandons(s, io) {
      AbandonedTold(s, io, now, v, base, said);
    } else {
      NothingLeft(s, io, now);
      assert said + [] == said;
    }
  }

  lemma JobTold(s: Session, p: Pass, v: View, base: seq<Entry>, said: seq<Entry>)
    requires Told(s, v, base, said) && PassSafe(s, p, v)
    ensures Told(AfterJob(s, p), v, base, said + JobFinishes(s, p))
  {
    assert said + [] == said;
    if p.job.Some? {
      var t := Touched(s, p.now);
      assert HeaderStands(t) == HeaderStands(s);
      if FlushesAtOnce(s, p.job.value) {
        FlushTold(Enqueued(t, p.job.value, p.now), p.io, p.now, v, base, said);
      }
    }
  }

  lemma EvictedTold(s: Session, now: nat, v: View, base: seq<Entry>, said: seq<Entry>)
    requires Told(s, v, base, said)
    ensures Told(s.(w := FreshWriter(now)), v, base, said)
  {
  }

  lemma PassTold(s: Session, p: Pass, v: View, base: seq<Entry>, said: seq<Entry>)
    requires Told(s, v, base, said) && PassSafe(s, p, v)
    ensures Told(Run1(s, p), v, base, said + JobFinishes(s, p) + DeadlineFinishes(AfterJob(s, p), p))
  {
    JobTold(s, p, v, base, said);
    var a, said1 := AfterJob(s, p), said + JobFinishes(s, p);
    if Due(a.w, p.now) {
      FlushTold(a, p.retryIo, p.now, v, base, said1);
    } else {
      assert said1 + [] == said1;
    }
    EvictedTold(AfterDeadline(s, p), p.now, v, base, said1 + DeadlineFinishes(a, p));
  }

  lemma {:induction false} RunTold(s: Session, ps: seq<Pass>, v: View, base: seq<Entry>)
    requires Told(s, v, base, []) && RunSafe(s, ps, v)
    ensures Told(Run(s, ps), v, base, RunFinishes(s, ps))
  {
    if ps != [] {
      RunTold(s, ps[..|ps| - 1], v, base);
      PassTold(Run(s, ps[..|ps| - 1]), ps[|ps| - 1], v, base, RunFinishes(s, ps[..|ps| - 1]));
    }
  }

  /**
   Every run on every file. As long as no prompt is glued to a torn line before a turn has its start, and no
   closed abandonment leaves a turn end behind a merging writer, the file shows, in their places: what its
   finished lines said at the start, landed batches verbatim without a glued first record, what abandoned
   batches finished, and the unfinished line there is at the end.
   */
  lemma AnyRunIsTold(file: Bytes, now: nat, ps: seq<Pass>, header: Option<Header>, earlier: seq<Entry>)
    requires RunSafe(Opened(file, now), ps, SeeAll(BLANK, earlier))
    ensures var s := Run(Opened(file, now), ps);
            Show(header, earlier + FileEntries(s.file)) ==
            Show(header, earlier + (FinishedEntries(file) + RunFinishes(Opened(file, now), ps) + Hanging(s.file)))
  {
    var v := SeeAll(BLANK, earlier);
    SeeReader(BLANK, earlier);
    EchoKept(FRESH_READER, earlier);
    assert FinishedEntries(file) + [] == FinishedEntries(file);
    RunTold(Opened(file, now), ps, v, FinishedEntries(file));
    ToldIsShown(Run(Opened(file, now), ps), header, earlier, FinishedEntries(file), RunFinishes(Opened(file, now), ps));
  }

  lemma ToldIsShown(s: Session, header: Option<Header>, earlier: seq<Entry>, base: seq<Entry>, said: seq<Entry>)
    requires Told(s, SeeAll(BLANK, earlier), base, said)
    ensures Show(header, earlier + FileEntries(s.file)) == Show(header, earlier + (base + said + Hanging(s.file)))
  {
    var v, told := SeeAll(BLANK, earlier), base + said + Hanging(s.file);
    FileIsFinishedAndHanging(s.file);
    SeeAppend(v, FinishedEntries(s.file), Hanging(s.file));
    SeeAppend(v, base + said, Hanging(s.file));
    SeeAppend(BLANK, earlier, FileEntries(s.file));
    SeeAppend(BLANK, earlier, told);
    ShowFromView(header, earlier + FileEntries(s.file), earlier + told);
  }

  // ---- the first condition can fail

  /** Without its first record, lost to an unfinished line, a batch reads like its other records. */
  predicate RestReadsAlike(v: View, first: Record, rest: seq<Record>) {
    SeeAll(v, Entries(Compacted([first] + rest, false)[1..])) == SeeAll(v, Entries(rest))
  }

  lemma SeeOneAndTwo(v: View, a: Entry, b: Entry)
    ensures SeeAll(v, [a]) == See(v, a) && SeeAll(v, [a, b]) == See(See(v, a), b)
  {
    SeeSnoc(v, [], a);
    SeeSnoc(v, [a], b);
    assert [] + [a] == [a] && [a] + [b] == [a, b];
  }

  /** After a lost prompt, a reader without a start can tell two chunks from their merged record. */
  lemma MergeShows(v: View, first: Record)
    requires FlagAfter(false, first) && !Sound(true, v)
    ensures exists rest :: !RestReadsAlike(v, first, rest)
  {
    var a := Update(0, AgentChunk(Message, Text("a"), None, ""));
    var b := Update(1, AgentChunk(Message, Text("a"), None, ""));
    var rest := [Item(a), Item(b)];
    CompactedAfterFirst([first] + rest);
    assert ([first] + rest)[1..] == rest;
    CompactTwo(a, b);
    OneEntry(Join(a, b));
    TwoEntries(a, b);
    SeeOneAndTwo(v, a, b);
    SeeOneAndTwo(v, Join(a, b), b);
    JoinInvisibleIff(v, a, b);
    assert !RestReadsAlike(v, first, rest);
  }

  /**
   When gluing does no more harm than the loss of a record: every batch that loses its first record reads
   like the rest if and only if that record is no prompt or the reader has a start without it.
   */
  lemma GluedReadsAlikeIff(v: View, first: Record)
    ensures (forall rest :: RestReadsAlike(v, first, rest)) <==> (FlagAfter(false, first) ==> Sound(true, v))
  {
    if FlagAfter(false, first) ==> Sound(true, v) {
      forall rest ensures RestReadsAlike(v, first, rest) {
        CompactedAfterFirst([first] + rest);
        assert ([first] + rest)[1..] == rest;
        CompactionPreservesMeaning(v, rest, FlagAfter(false, first));
      }
    } else {
      MergeShows(v, first);
    }
  }

  /** A prompt and two chunks, buffered behind a disk that refuses to open, then written onto a torn line. */
  function OntoTorn(prompt: Entry, a: Entry, b: Entry): (Pass, Pass, Pass) {
    (Pass(Some(Queued(Item(prompt), 1)), NotOpened, NotOpened, 0),
     Pass(Some(Queued(Item(a), 2)), NotOpened, NotOpened, 0),
     Pass(Some(Queued(Item(b), 3)), Wrote, Wrote, 0))
  }

  /** The prompt that let the chunks be merged is glued away, and the turn starts at the wrong time. */
  lemma GluedPromptShiftsAStart(torn: Record, prompt: Entry, a: Entry, b: Entry)
    requires prompt.Prompt? && Joinable(a, b) && a.update.content.text != [] && a.t < b.t
    ensures var ps := OntoTorn(prompt, a, b);
            var s := Run1(Run1(Run1(Opened([Json(torn, false)], 0), ps.0), ps.1), ps.2);
            && s.sent == [Queued(Item(prompt), 1), Queued(Item(a), 2), Queued(Item(b), 3)]
            && FileEntries(s.file) == [Join(a, b)]
            && ProjectTurns(FileEntries(s.file)) != ProjectTurns([a, b])
  {
    var ps, file := OntoTorn(prompt, a, b), [Json(torn, false)];
    var one, two, three := Queued(Item(prompt), 1), Queued(Item(a), 2), Queued(Item(b), 3);
    var s2 := Run1(Run1(Opened(file, 0), ps.0), ps.1);
    assert s2.w.pending == [one, two] && !s2.w.compactable && !s2.w.poisoned && s2.file == file && s2.sent == [];
    var e := Enqueued(Touched(s2, 0), three, 0);
    assert e.w.pending == [one, two, three];
    assert Records(e.w.pending) == [Item(prompt), Item(a), Item(b)];
    PromptThenRun(prompt, a, b);
    var s := Flushed(e, Wrote, 0);
    assert Run1(s2, ps.2) == s && s.sent == [one, two, three];
    LandsOnTorn(torn, [Item(prompt), Item(Join(a, b))]);
    OneEntry(Join(a, b));
    assert [Item(prompt), Item(Join(a, b))][1..] == [Item(Join(a, b))];
    JoinShiftsAStart(a, b);
  }

  lemma PromptThenRun(prompt: Entry, a: Entry, b: Entry)
    requires prompt.Prompt? && Joinable(a, b)
    ensures Compacted([Item(prompt), Item(a), Item(b)], false) == [Item(prompt), Item(Join(a, b))]
  {
    CompactedAfterFirst([Item(prompt), Item(a), Item(b)]);
    assert [Item(prompt), Item(a), Item(b)][1..] == [Item(a), Item(b)];
    CompactTwo(a, b);
  }

  lemma LandsOnTorn(torn: Record, written: seq<Record>)
    requires written != []
    ensures FileEntries([Json(torn, false)] + Serialize(written)) == Entries(written[1..])
  {
    var tail := [Json(torn, false)];
    SplitSnoc([], Json(torn, false));
    assert [] + tail == tail && Split([]) == ([], []);
    GluedBatchFinishes(tail, written);
    FileIsFinishedAndHanging(tail + Serialize(written));
  }

  lemma JoinShiftsAStart(a: Entry, b: Entry)
    requires Joinable(a, b) && a.update.content.text != [] && a.t < b.t
    ensures ProjectTurns([Join(a, b)]) != ProjectTurns([a, b])
  {
    var r := FRESH_READER;
    assert [a, b][..1] == [a] && [a][..0] == [] && [Join(a, b)][..0] == [];
    assert ReadAll(r, [a]) == ReadEntry(r, a);
    var one, two := ReadEntry(r, Join(a, b)), ReadEntry(ReadEntry(r, a), b);
    assert ReadAll(r, [Join(a, b)]) == one && ReadAll(r, [a, b]) == two;
    assert one.pending.value.hasContent && two.pending.value.hasContent;
    assert Flush(one).turns[0].timestamp == b.t;
    assert Flush(two).turns[0].timestamp == a.t;
  }
}
