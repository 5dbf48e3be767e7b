/**
 Whole runs in which some batches are abandoned (src-tauri/src/acp_transcript.rs): their records are
 reported lost, yet the lines that were fully written stay. What the file then shows.
 */
module AbandonedRuns {
  import opened Sequences
  import opened Options
  import opened Conversation
  import opened Compaction
  import opened TranscriptReader
  import opened TranscriptFile
  import opened SessionWriter
  import opened WriterRuns
  import opened HeaderRuns

  /** What an attempt adds to what the file says: its records verbatim, or the lines it could not take back. */
  function AttemptSays(s: Session, io: Io): seq<Record> {
    if Landed(s, io) then Records(s.w.pending)
    else if Abandons(s, io) then Survivors(BatchLines(s.w), io.cut)
    else []
  }

  /**
   An abandoned batch does no further harm: its closing line break was written, and if the writer goes on
   merging, the lines it left do not end a turn that nothing reopens.
   */
  predicate Harmless(s: Session, io: Io) {
    Abandons(s, io) ==>
      io.closed && (s.w.compactable ==> EndsFixed(Entries(Survivors(BatchLines(s.w), io.cut)), true))
  }

  function JobSays(s: Session, p: Pass): seq<Record> {
    if p.job.Some? && FlushesAtOnce(s, p.job.value)
    then AttemptSays(Enqueued(Touched(s, p.now), p.job.value, p.now), p.io) else []
  }

  function DeadlineSays(s: Session, p: Pass): seq<Record> {
    if Due(s.w, p.now) then AttemptSays(s, p.retryIo) else []
  }

  predicate PassHarmless(s: Session, p: Pass) {
    && (p.job.Some? && FlushesAtOnce(s, p.job.value) ==>
          Harmless(Enqueued(Touched(s, p.now), p.job.value, p.now), p.io))
    && (Due(AfterJob(s, p).w, p.now) ==> Harmless(AfterJob(s, p), p.retryIo))
  }

  /** Everything the attempts of a run added, in order. */
  function RunSays(s: Session, ps: seq<Pass>): seq<Record> {
    if ps == [] then []
    else
      var init, last := ps[..|ps| - 1], ps[|ps| - 1];
      RunSays(s, init) + JobSays(Run(s, init), last) + DeadlineSays(AfterJob(Run(s, init), last), last)
  }

  predicate RunHarmless(s: Session, ps: seq<Pass>) {
    ps == [] || (RunHarmless(s, ps[..|ps| - 1]) && PassHarmless(Run(s, ps[..|ps| - 1]), ps[|ps| - 1]))
  }

  /** The file tells what was there before and what has been said since, and the flag is sound for it. */
  ghost predicate Tells(s: Session, v: View, base: Bytes, said: seq<Record>) {
    && !s.w.poisoned && Terminated(s.file) && EchoHasHint(v.reader)
    && FileHeader(s.file) == FileHeader(base).Or(FirstHeader(said))
    && SeeAll(v, FileEntries(s.file)) == SeeAll(v, FileEntries(base) + Entries(said))
    && Sound(s.w.compactable, SeeAll(v, FileEntries(s.file)))
  }

  lemma SaidGrows(base: seq<Entry>, said: seq<Record>, more: seq<Record>)
    ensures base + Entries(said + more) == (base + Entries(said)) + Entries(more)
    ensures FirstHeader(said + more) == FirstHeader(said).Or(FirstHeader(more))
  {
    EntriesAppend(said, more);
  }

  lemma LandedTells(s: Session, io: Io, now: nat, v: View, base: Bytes, said: seq<Record>)
    requires Tells(s, v, base, said) && Landed(s, io)
    ensures Tells(Flushed(s, io, now), v, base, said + AttemptSays(s, io))
  {
    var rs := Records(s.w.pending);
    LandingRefines(s.file, FileEntries(base) + Entries(said), rs, s.w.compactable, v);
    AppendBatch(s.file, BatchLines(s.w));
    AppendedHeader(s.file, BatchLines(s.w));
    EverythingElseIsVerbatim(rs, s.w.compactable);
    SaidGrows(FileEntries(base), said, rs);
    assert Flushed(s, io, now).file == s.file + Serialize(Compacted(rs, s.w.compactable));
  }

  lemma AbandonedTells(s: Session, io: Io, now: nat, v: View, base: Bytes, said: seq<Record>)
    requires Tells(s, v, base, said) && Abandons(s, io) && Harmless(s, io)
    ensures Tells(Flushed(s, io, now), v, base, said + AttemptSays(s, io))
  {
    var kept := Survivors(BatchLines(s.w), io.cut);
    AbandonedFlagIff(s, io, now, v);
    ClosedHeader(s.file, BatchLines(s.w), io.cut, io.torn);
    SaidGrows(FileEntries(base), said, kept);
    SeeAppend(v, FileEntries(s.file), Entries(kept));
    SeeAppend(v, FileEntries(base) + Entries(said), Entries(kept));
  }

  /** The header read after a partial write and its closing line break. */
  lemma ClosedHeader(file: Bytes, rs: seq<Record>, cut: nat, torn: bool)
    requires Terminated(file) && PossibleCut(rs, cut, torn)
    ensures FileHeader(file + Partial(rs, cut, torn) + [Newline]) == FileHeader(file).Or(FirstHeader(Survivors(rs, cut)))
  {
    var whole := file + Serialize(Survivors(rs, cut));
    var scrap := PartialAsLines(file, rs, cut, torn);
    AppendedHeader(file, Survivors(rs, cut));
    AppendBatch(file, Survivors(rs, cut));
    if cut % 2 == 0 {
      Associates(whole, scrap, [Newline]);
      ScrapKeepsHeader(whole, scrap);
    } else {
      assert whole + [] == whole;
    }
  }

  lemma FlushTells(s: Session, io: Io, now: nat, v: View, base: Bytes, said: seq<Record>)
    requires Tells(s, v, base, said) && Harmless(s, io)
    ensures Tells(Flushed(s, io, now), v, base, said + AttemptSays(s, io))
  {
    if Landed(s, io) {
      LandedTells(s, io, now, v, base, said);
    } else if Abandons(s, io) {
      AbandonedTells(s, io, now, v, base, said);
    } else {
      assert said + [] == said;
    }
  }

  lemma JobTells(s: Session, p: Pass, v: View, base: Bytes, said: seq<Record>)
    requires Tells(s, v, base, said) && PassHarmless(s, p)
    ensures Tells(AfterJob(s, p), v, base, said + JobSays(s, p))
  {
    assert said + [] == said;
    if p.job.Some? {
      var t := Touched(s, p.now);
      assert HeaderStands(t) == HeaderStands(s);
      if FlushesAtOnce(s, p.job.value) {
        FlushTells(Enqueued(t, p.job.value, p.now), p.io, p.now, v, base, said);
      }
    }
  }

  lemma PassTells(s: Session, p: Pass, v: View, base: Bytes, said: seq<Record>)
    requires Tells(s, v, base, said) && PassHarmless(s, p)
    ensures Tells(Run1(s, p), v, base, said + JobSays(s, p) + DeadlineSays(AfterJob(s, p), p))
  {
    JobTells(s, p, v, base, said);
    var a, said1 := AfterJob(s, p), said + JobSays(s, p);
    if Due(a.w, p.now) {
      FlushTells(a, p.retryIo, p.now, v, base, said1);
    } else {
      assert said1 + [] == said1;
    }
    EvictedTells(AfterDeadline(s, p), p.now, v, base, said1 + DeadlineSays(a, p));
  }

  lemma EvictedTells(s: Session, now: nat, v: View, base: Bytes, said: seq<Record>)
    requires Tells(s, v, base, said)
    ensures Tells(s.(w := FreshWriter(now)), v, base, said)
  {
  }

  lemma {:induction false} RunTells(s: Session, ps: seq<Pass>, v: View, base: Bytes)
    requires Tells(s, v, base, []) && RunHarmless(s, ps)
    ensures Tells(Run(s, ps), v, base, RunSays(s, ps))
  {
    if ps != [] {
      RunTells(s, ps[..|ps| - 1], v, base);
      PassTells(Run(s, ps[..|ps| - 1]), ps[|ps| - 1], v, base, RunSays(s, ps[..|ps| - 1]));
    }
  }

  /** The file and its header show the conversation these records say. */
  predicate ShowsSaid(file: Bytes, base: Bytes, said: seq<Record>, header: Option<Header>, earlier: seq<Entry>) {
    && FileHeader(file) == FileHeader(base).Or(FirstHeader(said))
    && Show(header.Or(FileHeader(file)), earlier + FileEntries(file)) ==
       Show(header.Or(FileHeader(base).Or(FirstHeader(said))), earlier + (FileEntries(base) + Entries(said)))
  }

  /**
   Abandoned batches too are told as they are. Over any run whose abandoned batches do no further harm, the
   file shows what landed batches say verbatim and what abandoned ones left, each in its place: merging,
   retrying and evicting remain invisible.
   */
  lemma FileTellsWhatIsLeft(file: Bytes, now: nat, ps: seq<Pass>, header: Option<Header>, earlier: seq<Entry>)
    requires Terminated(file) && RunHarmless(Opened(file, now), ps)
    ensures ShowsSaid(Run(Opened(file, now), ps).file, file, RunSays(Opened(file, now), ps), header, earlier)
  {
    var v := SeeAll(BLANK, earlier);
    SeeReader(BLANK, earlier);
    EchoKept(FRESH_READER, earlier);
    OpenedTells(file, now, v);
    RunTells(Opened(file, now), ps, v, file);
    ToldShows(Run(Opened(file, now), ps), header, earlier, file, RunSays(Opened(file, now), ps));
  }

  lemma OpenedTells(file: Bytes, now: nat, v: View)
    requires Terminated(file) && EchoHasHint(v.reader)
    ensures Tells(Opened(file, now), v, file, [])
  {
    assert FileEntries(file) + [] == FileEntries(file);
  }

  lemma ToldShows(s: Session, header: Option<Header>, earlier: seq<Entry>, base: Bytes, said: seq<Record>)
    requires Tells(s, SeeAll(BLANK, earlier), base, said)
    ensures ShowsSaid(s.file, base, said, header, earlier)
  {
    var told := FileEntries(base) + Entries(said);
    SeeAppend(BLANK, earlier, FileEntries(s.file));
    SeeAppend(BLANK, earlier, told);
    ShowFromView(header.Or(FileHeader(s.file)), earlier + FileEntries(s.file), earlier + told);
  }
}
