/**
 What becomes of a transcript's header over whole runs (src-tauri/src/acp_transcript.rs): a duplicate is
 acknowledged without being queued, so it matters whether the header it duplicates can be read.
 */
module HeaderRuns {
  import opened Sequences
  import opened Options
  import opened Conversation
  import opened Compaction
  import opened TranscriptReader
  import opened TranscriptFile
  import opened SessionWriter
  import opened WriterRuns

  // ---- the header of a file, token by token

  lemma HeaderOfOne(l: Line)
    ensures Parsed([l]).header == l.header
  {
  }

  /** The header of a file is that of its finished lines, or else of the unfinished one. */
  lemma FileHeaderSplit(file: Bytes)
    ensures FileHeader(file) == Parsed(Split(file).0).header.Or(LineOf(Split(file).1).header)
  {
    var (done, tail) := Split(file);
    if tail == [] {
      assert Lines(file) == done;
    } else {
      HeaderAtAppend(done, [LineOf(tail)]);
      HeaderOfOne(LineOf(tail));
    }
  }

  /** A line break changes no header; any other token joins the unfinished line. */
  lemma FileHeaderSnoc(file: Bytes, t: Token)
    ensures t.Newline? ==> FileHeader(file + [t]) == FileHeader(file)
    ensures !t.Newline? ==>
              FileHeader(file + [t]) == Parsed(Split(file).0).header.Or(LineOf(Split(file).1 + [t]).header)
  {
    SplitSnoc(file, t);
    FileHeaderSplit(file);
    FileHeaderSplit(file + [t]);
    if t.Newline? {
      HeaderAtAppend(Split(file).0, [LineOf(Split(file).1)]);
      HeaderOfOne(LineOf(Split(file).1));
    }
  }

  /** A file without a header gets none from tokens that are none. */
  lemma {:induction false} NoNewHeader(file: Bytes, more: Bytes)
    requires FileHeader(file).None? && HeaderTokens(more) == 0
    ensures FileHeader(file + more).None?
    decreases |more|
  {
    if more == [] {
      assert file + more == file;
    } else {
      var n := |more| - 1;
      NoNewHeader(file, more[..n]);
      assert file + more == (file + more[..n]) + [more[n]];
      NoNewHeaderStep(file + more[..n], more[n]);
    }
  }

  lemma NoNewHeaderStep(file: Bytes, t: Token)
    requires FileHeader(file).None? && !(t.Json? && t.whole && t.record.Head?)
    ensures FileHeader(file + [t]).None?
  {
    FileHeaderSplit(file);
    FileHeaderSnoc(file, t);
  }

  lemma HeaderOfMore(before: seq<Line>, after: seq<Line>)
    requires before <= after && Parsed(before).header.Some?
    ensures Parsed(after).header.Some?
  {
    HeaderAtAppend(before, after[|before|..]);
    assert before + after[|before|..] == after;
  }

  /** A header on a finished line stays. */
  lemma FinishedHeaderStays(file: Bytes, more: Bytes)
    requires Parsed(Split(file).0).header.Some?
    ensures FileHeader(file + more).Some?
  {
    FinishedOnlyGrow(file, more);
    HeaderOfMore(Split(file).0, Split(file + more).0);
    FileHeaderSplit(file + more);
  }

  // ---- one attempt

  /** What an attempt appends to the file. */
  function Left(s: Session, io: Io): Bytes {
    if Landed(s, io) then Serialize(BatchLines(s.w))
    else if Abandons(s, io) then Partial(BatchLines(s.w), io.cut, io.torn) + if io.closed then [Newline] else []
    else []
  }

  /** The records an attempt leaves whole. */
  function LeftWhole(s: Session, io: Io): seq<Record> {
    if Landed(s, io) then BatchLines(s.w)
    else if Abandons(s, io) then Survivors(BatchLines(s.w), io.cut)
    else []
  }

  /** The file holds something, and no header. */
  predicate Headless(s: Session) {
    s.file != [] && FileHeader(s.file).None?
  }

  /** The header is the unfinished last line of the file. */
  predicate Hangs(file: Bytes) {
    FileHeader(file).Some? && Parsed(Split(file).0).header.None?
  }

  /**
   The attempts that cost a transcript its header: the first to leave anything in the file leaves no
   whole header, because none was in the batch or because the batch was abandoned before its line was
   complete; or the header's own line was left without its line break and something is glued to it.
   */
  predicate Beheads(s: Session, io: Io) {
    if s.file == [] then Left(s, io) != [] && Headers(LeftWhole(s, io)) == []
    else Hangs(s.file) && Left(s, io) != [] && Left(s, io) != [Newline]
  }

  /** A header is only ever buffered over an empty file. */
  predicate HeaderOnEmpty(s: Session) {
    HasHeader(s.w.pending) ==> s.file == []
  }

  lemma FlushedFile(s: Session, io: Io, now: nat)
    ensures Flushed(s, io, now).file == s.file + Left(s, io)
    ensures Flushed(s, io, now).w.pending == [] || Left(s, io) == []
  {
    if Abandons(s, io) {
      var part := Partial(BatchLines(s.w), io.cut, io.torn);
      var ending := if io.closed then [Newline] else [];
      assert s.file + (part + ending) == s.file + part + ending;
    } else {
      assert s.file + [] == s.file;
    }
  }

  /** Onto an empty file an attempt brings exactly the first header it leaves whole. */
  lemma LeftHeader(s: Session, io: Io)
    ensures FileHeader(Left(s, io)) == FirstHeader(LeftWhole(s, io))
  {
    if Landed(s, io) {
      AppendedHeader([], BatchLines(s.w));
      assert [] + Serialize(BatchLines(s.w)) == Serialize(BatchLines(s.w));
    } else if Abandons(s, io) {
      PartialHeader(BatchLines(s.w), io.cut, io.torn);
      var part := Partial(BatchLines(s.w), io.cut, io.torn);
      FileHeaderSnoc(part, Newline);
      assert part + [] == part;
    }
  }

  lemma PartialHeader(rs: seq<Record>, cut: nat, torn: bool)
    requires PossibleCut(rs, cut, torn)
    ensures FileHeader(Partial(rs, cut, torn)) == FirstHeader(Survivors(rs, cut))
  {
    var part, whole := Partial(rs, cut, torn), Serialize(Survivors(rs, cut));
    var scrap := PartialAsLines([], rs, cut, torn);
    FileHeaderSnoc(part, Newline);
    AppendedHeader([], Survivors(rs, cut));
    AppendBatch([], Survivors(rs, cut));
    NothingFirst(part);
    NothingFirst(whole);
    if cut % 2 == 0 {
      Associates(whole, scrap, [Newline]);
      ScrapKeepsHeader(whole, scrap);
    } else {
      assert whole + [] == whole;
    }
  }

  lemma NothingFirst(a: Bytes)
    ensures [] + a == a
  {
  }

  lemma ScrapKeepsHeader(file: Bytes, scrap: Bytes)
    requires Terminated(file) && (scrap == [] || exists r :: scrap == [Json(r, false)])
    ensures FileHeader((file + scrap) + [Newline]) == FileHeader(file)
  {
    FileHeaderSnoc(file + scrap, Newline);
    FileHeaderSplit(file);
    TerminatedSplit(file);
    if scrap == [] {
      assert file + scrap == file;
    } else {
      FileHeaderSnoc(file, scrap[0]);
      assert scrap == [scrap[0]];
    }
  }

  /** What an attempt without a header in its batch appends is no header, and starts a line unless it is only a break. */
  lemma LeftHasNoHeader(s: Session, io: Io)
    requires !HasHeader(s.w.pending)
    ensures HeaderTokens(Left(s, io)) == 0
    ensures Left(s, io) != [] && Left(s, io) != [Newline] ==> Left(s, io)[0].Json?
  {
    var lines := BatchLines(s.w);
    HasHeaderCounts(s.w.pending);
    EverythingElseIsVerbatim(Records(s.w.pending), s.w.compactable);
    SerializedHeaders(lines);
    if lines != [] { SerializeAt(lines, 0); }
    if Abandons(s, io) {
      PartialHeaders(lines, io.cut, io.torn);
      HeaderTokensAppend(Partial(lines, io.cut, io.torn), [Newline]);
      assert Partial(lines, io.cut, io.torn) + [] == Partial(lines, io.cut, io.torn);
    }
  }

  lemma TwoTokensAreJunk(tail: Bytes, t: Token)
    requires tail != []
    ensures LineOf(tail + [t]) == Line(None, None)
  {
  }

  /** Something glued to a hanging header makes junk of it. */
  lemma GluedHeader(file: Bytes, more: Bytes)
    requires Hangs(file) && more != [] && more[0].Json? && HeaderTokens(more) == 0
    ensures FileHeader(file + more).None?
  {
    var glued := file + [more[0]];
    FileHeaderSplit(file);
    FileHeaderSnoc(file, more[0]);
    TwoTokensAreJunk(Split(file).1, more[0]);
    assert more == [more[0]] + more[1..];
    Associates(file, [more[0]], more[1..]);
    HeaderTokensAppend([more[0]], more[1..]);
    NoNewHeader(glued, more[1..]);
  }

  lemma GrownHeadlessIff(file: Bytes, more: Bytes)
    requires more != [] && HeaderTokens(more) == 0 && (more == [Newline] || more[0].Json?)
    ensures FileHeader(file + more).None? <==> FileHeader(file).None? || (Hangs(file) && more != [Newline])
  {
    if FileHeader(file).None? {
      NoNewHeader(file, more);
    } else if !Hangs(file) {
      FinishedHeaderStays(file, more);
    } else if more == [Newline] {
      FileHeaderSnoc(file, Newline);
    } else {
      GluedHeader(file, more);
    }
  }

  /** One attempt leaves the file headless if and only if it was, or the attempt is one of those named. */
  lemma FlushHeadlessIff(s: Session, io: Io, now: nat)
    requires HeaderOnEmpty(s)
    ensures Headless(Flushed(s, io, now)) <==> Headless(s) || Beheads(s, io)
    ensures HeaderOnEmpty(Flushed(s, io, now))
  {
    FlushedFile(s, io, now);
    FlushedPending(s, io, now);
    var left := Left(s, io);
    if left == [] {
      assert s.file + left == s.file;
    } else if s.file == [] {
      assert s.file + left == left;
      LeftHeader(s, io);
    } else {
      LeftHasNoHeader(s, io);
      GrownHeadlessIff(s.file, left);
    }
  }

  lemma FlushedPending(s: Session, io: Io, now: nat)
    ensures Flushed(s, io, now).w.pending == [] || Flushed(s, io, now).w.pending == s.w.pending
    ensures Flushed(s, io, now).w.pending == [] ==> !HasHeader(Flushed(s, io, now).w.pending)
  {
  }

  // ---- whole runs

  /** The record of this pass is flushed by `accept` itself. */
  predicate FlushesAtOnce(s: Session, q: Queued) {
    !s.w.poisoned && !(q.record.Head? && HeaderStands(s)) && (IsBoundary(q.record) || !s.w.compactable)
  }

  /** One of the two attempts of this pass costs the transcript its header. */
  predicate PassBeheads(s: Session, p: Pass) {
    || (p.job.Some? && FlushesAtOnce(s, p.job.value) && Beheads(Enqueued(Touched(s, p.now), p.job.value, p.now), p.io))
    || (Due(AfterJob(s, p).w, p.now) && Beheads(AfterJob(s, p), p.retryIo))
  }

  /** The remembered flag is right, or the writer is poisoned. */
  predicate FlagIsRight(s: Session) {
    s.w.headerWritten ==> s.file != [] || HasHeader(s.w.pending) || s.w.poisoned
  }

  lemma EnqueuedHeader(s: Session, q: Queued, now: nat)
    requires HeaderOnEmpty(s) && FlagIsRight(s) && !(q.record.Head? && HeaderStands(s))
    ensures HeaderOnEmpty(Enqueued(s, q, now)) && FlagIsRight(Enqueued(s, q, now))
  {
    assert forall x :: x in s.w.pending ==> x in s.w.pending + [q];
  }

  lemma FlushKeepsFlag(s: Session, io: Io, now: nat)
    requires FlagIsRight(s) && HeaderOnEmpty(s)
    ensures FlagIsRight(Flushed(s, io, now))
  {
    FlushedFile(s, io, now);
    if Landed(s, io) {
      LandsSomething(s, io);
    } else if Abandons(s, io) && io.closed {
      assert Left(s, io) != [];
    }
  }

  lemma LandsSomething(s: Session, io: Io)
    requires Landed(s, io)
    ensures Left(s, io) != []
  {
    EverythingElseIsVerbatim(Records(s.w.pending), s.w.compactable);
    SerializeAt(BatchLines(s.w), 0);
  }

  lemma JobHeadlessIff(s: Session, p: Pass)
    requires HeaderOnEmpty(s) && FlagIsRight(s)
    ensures var a := AfterJob(s, p);
            && HeaderOnEmpty(a) && FlagIsRight(a)
            && (Headless(a) <==>
                Headless(s) || (p.job.Some? && FlushesAtOnce(s, p.job.value) &&
                                Beheads(Enqueued(Touched(s, p.now), p.job.value, p.now), p.io)))
  {
    if p.job.Some? {
      var q, t := p.job.value, Touched(s, p.now);
      assert HeaderStands(t) == HeaderStands(s) && HeaderOnEmpty(t) && FlagIsRight(t);
      if !t.w.poisoned && !(q.record.Head? && HeaderStands(t)) {
        EnqueuedHeader(t, q, p.now);
        FlushHeadlessIff(Enqueued(t, q, p.now), p.io, p.now);
        FlushKeepsFlag(Enqueued(t, q, p.now), p.io, p.now);
      }
    }
  }

  lemma PassHeadlessIff(s: Session, p: Pass)
    requires HeaderOnEmpty(s) && FlagIsRight(s)
    ensures Headless(Run1(s, p)) <==> Headless(s) || PassBeheads(s, p)
    ensures HeaderOnEmpty(Run1(s, p)) && FlagIsRight(Run1(s, p))
  {
    JobHeadlessIff(s, p);
    var a := AfterJob(s, p);
    FlushHeadlessIff(a, p.retryIo, p.now);
    FlushKeepsFlag(a, p.retryIo, p.now);
    EvictionKeepsHeader(AfterDeadline(s, p), p.now);
  }

  lemma EvictionKeepsHeader(s: Session, now: nat)
    requires HeaderOnEmpty(s)
    ensures var e := s.(w := FreshWriter(now));
            HeaderOnEmpty(e) && FlagIsRight(e) && (Headless(e) <==> Headless(s))
  {
  }

  /** Some attempt of the run is one of those that cost the header. */
  ghost predicate Beheaded(s: Session, ps: seq<Pass>) {
    exists i :: 0 <= i < |ps| && PassBeheads(Run(s, ps[..i]), ps[i])
  }

  lemma {:induction false} RunHeadlessIff(s: Session, ps: seq<Pass>)
    requires HeaderOnEmpty(s) && FlagIsRight(s)
    ensures var e := Run(s, ps);
            HeaderOnEmpty(e) && FlagIsRight(e) && (Headless(e) <==> Headless(s) || Beheaded(s, ps))
  {
    if ps != [] {
      var n := |ps| - 1;
      var init := ps[..n];
      RunHeadlessIff(s, init);
      PassHeadlessIff(Run(s, init), ps[n]);
      forall i | 0 <= i < n ensures ps[..i] == init[..i] && ps[i] == init[i] {
      }
      if Beheaded(s, init) {
        var i :| 0 <= i < n && PassBeheads(Run(s, init[..i]), init[i]);
        assert PassBeheads(Run(s, ps[..i]), ps[i]);
      }
      if Beheaded(s, ps) && !PassBeheads(Run(s, init), ps[n]) {
        var i :| 0 <= i < |ps| && PassBeheads(Run(s, ps[..i]), ps[i]);
        assert PassBeheads(Run(s, init[..i]), init[i]);
      }
    }
  }

  /**
   When an acknowledged duplicate is backed, exactly. Over any run on any file, a header acknowledged as a
   duplicate has a header readable in the file or waiting in the buffer if and only if the file was not
   without one from the start and no attempt of the run cost it: an entry written before the first
   header, a header's batch abandoned, or a hanging header glued over.
   */
  lemma DuplicateBackedIff(file: Bytes, at: nat, ps: seq<Pass>, q: Queued, io: Io, now: nat)
    requires q.record.Head? && !Run(Opened(file, at), ps).w.poisoned && HeaderStands(Run(Opened(file, at), ps))
    ensures var s := Run(Opened(file, at), ps);
            && Accepted(s, q, io, now).standing == s.standing + [q]
            && (FileHeader(s.file).Some? || HasHeader(s.w.pending) <==>
                !Headless(Opened(file, at)) && !Beheaded(Opened(file, at), ps))
  {
    RunHeadlessIff(Opened(file, at), ps);
    assert FileHeader([]).None?;
  }

  /** Once a transcript is without its header it stays so: every later header is acknowledged or refused unwritten. */
  lemma HeadlessForever(s: Session, ps: seq<Pass>, q: Queued, io: Io, now: nat)
    requires Headless(s) && HeaderOnEmpty(s) && FlagIsRight(s) && q.record.Head?
    ensures var e := Run(s, ps);
            && Headless(e) && !HasHeader(e.w.pending)
            && Accepted(e, q, io, now).file == e.file && Accepted(e, q, io, now).w.pending == e.w.pending
            && (!e.w.poisoned ==> Accepted(e, q, io, now).standing == e.standing + [q])
  {
    RunHeadlessIff(s, ps);
  }

  /** An abandoned header: the batch leaves a torn line behind, and the next header is taken for a duplicate. */
  lemma AbandonedHeaderIsNotReplaced(h: Header, again: Header)
    ensures var first, second := Queued(Head(h), 1), Queued(Head(again), 2);
            var s1 := Run1(Opened([], 0), Pass(Some(first), Failed(0, true, false, true), Wrote, 0));
            var s2 := Run1(s1, Pass(Some(second), Wrote, Wrote, 1));
            && Headless(s1) && s1.dropped == [first] && Beheaded(Opened([], 0), [Pass(Some(first), Failed(0, true, false, true), Wrote, 0)])
            && s2.standing == [second] && s2.w.pending == [] && HeaderTokens(s2.file) == 0
  {
    var first := Queued(Head(h), 1);
    var p := Pass(Some(first), Failed(0, true, false, true), Wrote, 0);
    var s := Enqueued(Touched(Opened([], 0), 0), first, 0);
    assert Records(s.w.pending) == [Head(h)];
    CompactHead(h);
    SerializeAt([Head(h)], 0);
    assert Left(s, p.io) == [Json(Head(h), false), Newline];
    assert Survivors([Head(h)], 0) == [];
    assert Beheads(s, p.io);
    FlushedFile(s, p.io, 0);
    PassHeadlessIff(Opened([], 0), p);
    assert [p][..0] == [] && PassBeheads(Run(Opened([], 0), [p][..0]), [p][0]);
    assert [Json(Head(h), false), Newline][..1] == [Json(Head(h), false)];
    OneToken(Json(Head(h), false));
  }

  lemma CompactHead(h: Header)
    ensures Compacted([Head(h)], false) == [Head(h)]
  {
    var start := Batch([], None, false);
    assert [Head(h)][..0] == [];
    assert PutAll(start, []) == start;
  }

  /** An entry first: the header that follows it is acknowledged and never written. */
  lemma EntryFirstShutsTheHeaderOut(prompt: Entry, h: Header)
    requires prompt.Prompt?
    ensures var first, second := Queued(Item(prompt), 1), Queued(Head(h), 2);
            var s1 := Run1(Opened([], 0), Pass(Some(first), Wrote, Wrote, 0));
            var s2 := Run1(s1, Pass(Some(second), Wrote, Wrote, 1));
            && Headless(s1) && s1.sent == [first]
            && s2.standing == [second] && s2.w.pending == [] && FileHeader(s2.file).None?
  {
    var first := Queued(Item(prompt), 1);
    var p := Pass(Some(first), Wrote, Wrote, 0);
    var s := Enqueued(Touched(Opened([], 0), 0), first, 0);
    assert Records(s.w.pending) == [Item(prompt)];
    CompactOne(Item(prompt), false);
    LandsSomething(s, Wrote);
    assert Headers([Item(prompt)]) == [] by { assert [Item(prompt)][..0] == []; }
    assert Beheads(s, Wrote);
    PassHeadlessIff(Opened([], 0), p);
  }
}
