/**
 Whole runs of the writer thread over one transcript (src-tauri/src/acp_transcript.rs):
 `run_writer` seen from a single path, through failed writes, retries and idle eviction.
 */
module WriterRuns {
  import opened Sequences
  import opened Options
  import opened Conversation
  import opened Compaction
  import opened TranscriptReader
  import opened TranscriptFile
  import opened SessionWriter

  /** One pass of the loop: perhaps a record to accept, then the deadline check, then eviction. */
  datatype Pass = Pass(job: Option<Queued>, io: Io, retryIo: Io, now: nat)

  function AfterJob(s: Session, p: Pass): Session {
    if p.job.Some? then Accepted(s, p.job.value, p.io, p.now) else s
  }

  function AfterDeadline(s: Session, p: Pass): Session {
    var a := AfterJob(s, p);
    if Due(a.w, p.now) then Flushed(a, p.retryIo, p.now) else a
  }

  /** Eviction forgets the writer; the next record for the path starts a fresh one. */
  function Run1(s: Session, p: Pass): Session {
    var d := AfterDeadline(s, p);
    if Idle(d.w, p.now) then d.(w := FreshWriter(p.now)) else d
  }

  function Run(s: Session, ps: seq<Pass>): Session {
    if ps == [] then s else Run1(Run(s, ps[..|ps| - 1]), ps[|ps| - 1])
  }

  function Opened(file: Bytes, now: nat): Session {
    Session(FreshWriter(now), file, [], [], [])
  }

  // ---- the state every pass keeps

  /** Whole header serializations in the file, readable or not. */
  function HeaderTokens(file: Bytes): nat {
    if file == [] then 0
    else HeaderTokens(file[..|file| - 1]) +
         if file[|file| - 1].Json? && file[|file| - 1].whole && file[|file| - 1].record.Head? then 1 else 0
  }

  ghost predicate WriterInv(s: Session) {
    && (s.w.oldest.Some? <==> s.w.pending != [])
    && (s.w.poisoned ==> s.w.pending == [])
    && HeaderTokens(s.file) + |Headers(Records(s.w.pending))| <= 1
    && (HasHeader(s.w.pending) ==> s.file == [])
  }

  lemma {:induction false} HeaderTokensAppend(a: Bytes, b: Bytes)
    ensures HeaderTokens(a + b) == HeaderTokens(a) + HeaderTokens(b)
    decreases |b|
  {
    if b == [] {
      assert a + b == a;
    } else {
      assert (a + b)[..|a + b| - 1] == a + b[..|b| - 1];
      HeaderTokensAppend(a, b[..|b| - 1]);
    }
  }

  lemma {:induction false} SerializedHeaders(rs: seq<Record>)
    ensures HeaderTokens(Serialize(rs)) == |Headers(rs)|
  {
    if rs != [] {
      var n := |rs| - 1;
      SerializedHeaders(rs[..n]);
      HeaderTokensAppend(Serialize(rs[..n]), [Json(rs[n], true), Newline]);
      HeaderTokensAppend([Json(rs[n], true)], [Newline]);
      assert [Json(rs[n], true)] + [Newline] == [Json(rs[n], true), Newline];
      OneToken(Json(rs[n], true));
      OneToken(Newline);
    }
  }

  lemma OneToken(t: Token)
    ensures HeaderTokens([t]) == if t.Json? && t.whole && t.record.Head? then 1 else 0
  {
    assert [t][..0] == [];
  }

  lemma PartialHeaders(rs: seq<Record>, cut: nat, torn: bool)
    requires PossibleCut(rs, cut, torn)
    ensures HeaderTokens(Partial(rs, cut, torn)) <= |Headers(rs)|
    ensures HeaderTokens([Newline]) == 0
  {
    SerializedHeaders(rs);
    assert [Newline][..0] == [];
    HeaderTokensAppend(Serialize(rs)[..cut], Serialize(rs)[cut..]);
    assert Serialize(rs) == Serialize(rs)[..cut] + Serialize(rs)[cut..];
    var scrap := if torn then [Json(Serialize(rs)[cut].record, false)] else [];
    HeaderTokensAppend(Serialize(rs)[..cut], scrap);
    assert torn ==> scrap[..0] == [];
  }

  lemma {:induction false} HasHeaderCounts(qs: seq<Queued>)
    ensures HasHeader(qs) <==> |Headers(Records(qs))| > 0
  {
    if qs != [] {
      HasHeaderCounts(qs[..|qs| - 1]);
      RecordsSnoc(qs[..|qs| - 1], qs[|qs| - 1]);
      EntriesSnoc(Records(qs[..|qs| - 1]), qs[|qs| - 1].record);
      assert qs == qs[..|qs| - 1] + [qs[|qs| - 1]];
    }
  }

  lemma RecordsSnoc(qs: seq<Queued>, q: Queued)
    ensures Records(qs + [q]) == Records(qs) + [q.record]
  {
  }

  lemma RecordsAppend(a: seq<Queued>, b: seq<Queued>)
    ensures Records(a + b) == Records(a) + Records(b)
  {
  }

  lemma FlushKeepsInv(s: Session, io: Io, now: nat)
    requires WriterInv(s)
    ensures WriterInv(Flushed(s, io, now))
  {
    var lines := BatchLines(s.w);
    EverythingElseIsVerbatim(Records(s.w.pending), s.w.compactable);
    HasHeaderCounts(s.w.pending);
    SerializedHeaders(lines);
    HeaderTokensAppend(s.file, Serialize(lines));
    assert Records([]) == [];
    if Abandons(s, io) {
      PartialHeaders(lines, io.cut, io.torn);
      HeaderTokensAppend(s.file, Partial(lines, io.cut, io.torn));
      HeaderTokensAppend(s.file + Partial(lines, io.cut, io.torn), [Newline]);
      assert s.file + Partial(lines, io.cut, io.torn) + [] == s.file + Partial(lines, io.cut, io.torn);
    }
  }

  lemma EnqueueKeepsInv(s: Session, q: Queued, now: nat)
    requires WriterInv(s) && !s.w.poisoned && !(q.record.Head? && HeaderStands(s))
    ensures WriterInv(Enqueued(s, q, now))
  {
    HasHeaderCounts(s.w.pending);
    HasHeaderCounts(s.w.pending + [q]);
    RecordsSnoc(s.w.pending, q);
    EntriesSnoc(Records(s.w.pending), q.record);
    if q.record.Head? { assert HeaderTokens(s.file) == 0; }
  }

  lemma AcceptKeepsInv(s: Session, q: Queued, io: Io, now: nat)
    requires WriterInv(s)
    ensures WriterInv(Accepted(s, q, io, now))
  {
    var t := Touched(s, now);
    assert WriterInv(t);
    if !t.w.poisoned && !(q.record.Head? && HeaderStands(t)) {
      EnqueueKeepsInv(t, q, now);
      FlushKeepsInv(Enqueued(t, q, now), io, now);
    }
  }

  lemma PassKeepsInv(s: Session, p: Pass)
    requires WriterInv(s)
    ensures WriterInv(AfterJob(s, p)) && WriterInv(AfterDeadline(s, p)) && WriterInv(Run1(s, p))
  {
    if p.job.Some? { AcceptKeepsInv(s, p.job.value, p.io, p.now); }
    FlushKeepsInv(AfterJob(s, p), p.retryIo, p.now);
    assert Records([]) == [];
  }

  /**
   Over any run, whatever fails: a deadline exists exactly while something is buffered (so the thread
   never sleeps outright on a record), a poisoned writer holds nothing, and the file never gets a
   second header.
   */
  lemma {:induction false} RunKeepsInv(file: Bytes, now: nat, ps: seq<Pass>)
    requires HeaderTokens(file) <= 1
    ensures WriterInv(Run(Opened(file, now), ps))
  {
    if ps == [] {
      assert Records([]) == [];
    } else {
      RunKeepsInv(file, now, ps[..|ps| - 1]);
      PassKeepsInv(Run(Opened(file, now), ps[..|ps| - 1]), ps[|ps| - 1]);
    }
  }

  lemma FlushIsNotDue(s: Session, io: Io, now: nat)
    requires WriterInv(s)
    ensures !Due(Flushed(s, io, now).w, now)
    ensures s.w.pending != [] && !s.w.poisoned && !Landed(s, io) && !Abandons(s, io) ==>
              Deadline(Flushed(s, io, now).w) == Some(now + FLUSH_WINDOW) && Flushed(s, io, now).w.pending != []
  {
  }

  /** After a pass no deadline is overdue: a wedged disk is retried once a window, not in a hot loop. */
  lemma NothingOverdue(s: Session, p: Pass)
    requires WriterInv(s)
    ensures !Due(Run1(s, p).w, p.now)
    ensures Due(AfterJob(s, p).w, p.now) && !AfterJob(s, p).w.poisoned && !Landed(AfterJob(s, p), p.retryIo) &&
            !Abandons(AfterJob(s, p), p.retryIo)
            ==> Deadline(Run1(s, p).w) == Some(p.now + FLUSH_WINDOW)
  {
    PassKeepsInv(s, p);
    FlushIsNotDue(AfterJob(s, p), p.retryIo, p.now);
  }

  /** Only what streams inside a live turn waits: everything else is on disk when `accept` returns. */
  lemma OnlyLiveTurnsWait(s: Session, q: Queued, now: nat)
    requires !s.w.poisoned && !(q.record.Head? && HeaderStands(s)) && Terminated(s.file)
    ensures var a := Accepted(s, q, Wrote, now);
            if IsBoundary(q.record) || !s.w.compactable
            then a.w.pending == [] && a.sent == s.sent + (s.w.pending + [q]) &&
                 FileEntries(a.file) ==
                   FileEntries(s.file) + Entries(Compacted(Records(s.w.pending + [q]), s.w.compactable)) &&
                 FileHeader(a.file) == FileHeader(s.file).Or(FirstHeader(Records(s.w.pending + [q])))
            else a.w.pending == s.w.pending + [q] && a.file == s.file &&
                 a.w.oldest == (if s.w.pending == [] then Some(now) else s.w.oldest)
  {
    var e := Enqueued(Touched(s, now), q, now);
    assert e.w.pending == s.w.pending + [q];
    AppendedEntries(s.file, BatchLines(e.w));
    AppendedHeader(s.file, BatchLines(e.w));
    EverythingElseIsVerbatim(Records(e.w.pending), e.w.compactable);
  }

  /**
   The pace of the thread, in milliseconds: what has waited a second is tried, what has not is left; a writer
   that holds nothing and has had no record for half an hour is forgotten, and no other; and nothing else
   happens to a session between two records.
   */
  lemma WriterPace(s: Session, now: nat, io: Io)
    requires WriterInv(s)
    ensures var a := Run1(s, Pass(None, Wrote, io, now));
            var tried := if s.w.oldest.Some? && s.w.oldest.value + 1000 <= now then Flushed(s, io, now) else s;
            && (tried.w.pending == [] && tried.w.touched + 1_800_000 <= now ==> a == tried.(w := FreshWriter(now)))
            && (tried.w.pending != [] || tried.w.touched + 1_800_000 > now ==> a == tried)
            && (a.w.oldest.Some? ==> a.w.oldest.value + 1000 > now)
  {
    PassKeepsInv(s, Pass(None, Wrote, io, now));
    FlushIsNotDue(s, io, now);
  }

  /** A record that is not agent text is written after everything before it, as it is. */
  lemma WrittenLast(rs: seq<Record>, r: Record, compactable: bool)
    requires r.Head? || r.entry.Prompt? || r.entry.TurnEnd?
    ensures Compacted(rs + [r], compactable) == Compacted(rs, compactable) + [r]
  {
    assert (rs + [r])[..|rs|] == rs;
    PutAppends(PutAll(Batch([], None, compactable), rs), r);
  }

  /** A boundary record that is not turned away is flushed with all that waited, and written last. */
  lemma BoundaryFlushes(s: Session, q: Queued, now: nat)
    requires !s.w.poisoned && (q.record.Head? || q.record.entry.Prompt? || q.record.entry.TurnEnd?)
    requires q.record.Head? ==> !HeaderStands(s)
    ensures var a := Accepted(s, q, Wrote, now);
            && a.w.pending == [] && a.sent == s.sent + (s.w.pending + [q])
            && a.file == s.file + Serialize(Compacted(Records(s.w.pending), s.w.compactable) + [q.record])
  {
    var e := Enqueued(Touched(s, now), q, now);
    assert HeaderStands(Touched(s, now)) == HeaderStands(s);
    RecordsSnoc(s.w.pending, q);
    WrittenLast(Records(s.w.pending), q.record, s.w.compactable);
  }

  /**
   The replay gate's half of the bargain: a prompt or a turn end is on disk when `accept` returns, last of
   all that waited.
   */
  lemma PromptsAndTurnEndsAreReadable(s: Session, q: Queued, now: nat)
    requires !s.w.poisoned && Terminated(s.file)
    requires q.record.Item? && (q.record.entry.Prompt? || q.record.entry.TurnEnd?)
    ensures var a := Accepted(s, q, Wrote, now);
            && a.w.pending == [] && a.sent == s.sent + (s.w.pending + [q])
            && |FileEntries(a.file)| > |FileEntries(s.file)|
            && FileEntries(a.file)[|FileEntries(a.file)| - 1] == q.record.entry
  {
    BoundaryFlushes(s, q, now);
    var lines := Compacted(Records(s.w.pending), s.w.compactable);
    AppendedEntries(s.file, lines + [q.record]);
    EntriesSnoc(lines, q.record);
  }

  /** And so is the first header of a file. */
  lemma NewHeaderIsReadable(s: Session, q: Queued, now: nat)
    requires !s.w.poisoned && q.record.Head?
    requires !s.w.headerWritten && s.file == [] && forall p | p in s.w.pending :: p.record.Item?
    ensures var a := Accepted(s, q, Wrote, now);
            a.w.pending == [] && a.sent == s.sent + (s.w.pending + [q]) && FileHeader(a.file) == Some(q.record.header)
  {
    BoundaryFlushes(s, q, now);
    var lines := Compacted(Records(s.w.pending), s.w.compactable);
    OnlyEntries(s.w.pending, s.w.compactable);
    AppendedHeader(s.file, lines + [q.record]);
    EntriesSnoc(lines, q.record);
    assert FileHeader([]) == None;
  }

  /** An update waits if it comes inside a live turn, and nowhere else. */
  lemma UpdatesWaitInLiveTurns(s: Session, q: Queued, now: nat)
    requires !s.w.poisoned && q.record.Item? && q.record.entry.Update?
    ensures var a := Accepted(s, q, Wrote, now);
            if s.w.compactable then a.file == s.file && a.sent == s.sent && a.w.pending == s.w.pending + [q]
            else a.w.pending == [] && a.sent == s.sent + (s.w.pending + [q])
  {
  }

  lemma OnlyEntries(qs: seq<Queued>, compactable: bool)
    requires forall p | p in qs :: p.record.Item?
    ensures Headers(Compacted(Records(qs), compactable)) == [] && !HasHeader(qs)
  {
    HasHeaderCounts(qs);
    EverythingElseIsVerbatim(Records(qs), compactable);
  }

  // ---- no record is lost, doubled or reordered

  function Everywhere(s: Session): multiset<Queued> {
    multiset(s.sent) + multiset(s.standing) + multiset(s.dropped) + multiset(s.w.pending)
  }

  function Jobs(ps: seq<Pass>): seq<Queued> {
    if ps == [] then [] else Jobs(ps[..|ps| - 1]) + if ps[|ps| - 1].job.Some? then [ps[|ps| - 1].job.value] else []
  }

  lemma FlushConserves(s: Session, io: Io, now: nat)
    ensures Everywhere(Flushed(s, io, now)) == Everywhere(s)
  {
  }

  lemma AcceptConserves(s: Session, q: Queued, io: Io, now: nat)
    ensures Everywhere(Accepted(s, q, io, now)) == Everywhere(s) + multiset{q}
  {
    var t := Touched(s, now);
    assert Everywhere(t) == Everywhere(s);
    assert Everywhere(Enqueued(t, q, now)) == Everywhere(s) + multiset{q};
    FlushConserves(Enqueued(t, q, now), io, now);
  }

  lemma JobConserves(s: Session, p: Pass)
    ensures Everywhere(AfterJob(s, p)) == Everywhere(s) + if p.job.Some? then multiset{p.job.value} else multiset{}
  {
    if p.job.Some? { AcceptConserves(s, p.job.value, p.io, p.now); }
  }

  lemma EvictionConserves(s: Session, now: nat)
    ensures s.w.pending == [] ==> Everywhere(s.(w := FreshWriter(now))) == Everywhere(s)
  {
  }

  lemma PassConserves(s: Session, p: Pass)
    ensures Everywhere(Run1(s, p)) == Everywhere(s) + if p.job.Some? then multiset{p.job.value} else multiset{}
  {
    JobConserves(s, p);
    FlushConserves(AfterJob(s, p), p.retryIo, p.now);
    EvictionConserves(AfterDeadline(s, p), p.now);
  }

  /** Every record handed to the thread is in exactly one place: acknowledged, refused, or still buffered. */
  lemma {:induction false} RunConserves(s: Session, ps: seq<Pass>)
    ensures Everywhere(Run(s, ps)) == Everywhere(s) + multiset(Jobs(ps))
  {
    if ps != [] {
      RunConserves(s, ps[..|ps| - 1]);
      PassConserves(Run(s, ps[..|ps| - 1]), ps[|ps| - 1]);
    }
  }

  /** No attempt of this pass abandons its batch. */
  predicate Gentle(p: Pass) {
    (p.io.Failed? ==> p.io.rolledBack) && (p.retryIo.Failed? ==> p.retryIo.rolledBack)
  }

  ghost predicate AllGentle(ps: seq<Pass>) {
    forall p | p in ps :: Gentle(p)
  }

  /** The record of a pass that is queued rather than acknowledged as a duplicate header. */
  function Kept(s: Session, p: Pass): seq<Queued> {
    if p.job.Some? && !(p.job.value.record.Head? && HeaderStands(s)) then [p.job.value] else []
  }

  function KeptAll(s: Session, ps: seq<Pass>): seq<Queued> {
    if ps == [] then [] else KeptAll(s, ps[..|ps| - 1]) + Kept(Run(s, ps[..|ps| - 1]), ps[|ps| - 1])
  }

  /** What is known of a session that has been written as `sent` since it was opened on `base`. */
  ghost predicate Refines(s: Session, v: View, base: Bytes) {
    && !s.w.poisoned && s.dropped == [] && Terminated(s.file)
    && FileHeader(s.file) == FileHeader(base).Or(FirstHeader(Records(s.sent)))
    && SeeAll(v, FileEntries(s.file)) == SeeAll(v, FileEntries(base) + Entries(Records(s.sent)))
    && Sound(s.w.compactable, SeeAll(v, FileEntries(s.file)))
  }

  /** Writing a batch adds to what the file says exactly what its records say. */
  lemma LandingRefines(file: Bytes, said: seq<Entry>, rs: seq<Record>, compactable: bool, v: View)
    requires Terminated(file) && SeeAll(v, FileEntries(file)) == SeeAll(v, said)
    requires Sound(compactable, SeeAll(v, said))
    ensures var after := FileEntries(file + Serialize(Compacted(rs, compactable)));
            && SeeAll(v, after) == SeeAll(v, said + Entries(rs))
            && Sound(NextFlag(rs, compactable), SeeAll(v, after))
  {
    var lines := Compacted(rs, compactable);
    AppendedEntries(file, lines);
    SeeAppend(v, FileEntries(file), Entries(lines));
    CompactionPreservesMeaning(SeeAll(v, said), rs, compactable);
    SeeAppend(v, said, Entries(rs));
  }

  lemma SentGrows(base: seq<Entry>, sent: seq<Queued>, pending: seq<Queued>)
    ensures base + Entries(Records(sent + pending)) == base + Entries(Records(sent)) + Entries(Records(pending))
  {
    RecordsAppend(sent, pending);
    EntriesAppend(Records(sent), Records(pending));
  }

  lemma FirstHeaderGrows(was: Option<Header>, sent: seq<Queued>, pending: seq<Queued>, compactable: bool)
    ensures was.Or(FirstHeader(Records(sent + pending))) ==
            was.Or(FirstHeader(Records(sent))).Or(FirstHeader(Compacted(Records(pending), compactable)))
  {
    RecordsAppend(sent, pending);
    EntriesAppend(Records(sent), Records(pending));
    EverythingElseIsVerbatim(Records(pending), compactable);
  }

  lemma FlushLandsRefines(s: Session, io: Io, now: nat, v: View, base: Bytes)
    requires Refines(s, v, base) && Landed(s, io)
    ensures Refines(Flushed(s, io, now), v, base)
  {
    var f := Flushed(s, io, now);
    LandingRefines(s.file, FileEntries(base) + Entries(Records(s.sent)), Records(s.w.pending), s.w.compactable, v);
    AppendBatch(s.file, BatchLines(s.w));
    AppendedHeader(s.file, BatchLines(s.w));
    SentGrows(FileEntries(base), s.sent, s.w.pending);
    FirstHeaderGrows(FileHeader(base), s.sent, s.w.pending, s.w.compactable);
    assert f.file == s.file + Serialize(Compacted(Records(s.w.pending), s.w.compactable));
    assert f.sent == s.sent + s.w.pending && f.dropped == s.dropped + [];
  }

  lemma FlushRefines(s: Session, io: Io, now: nat, v: View, base: Bytes)
    requires Refines(s, v, base) && (io.Failed? ==> io.rolledBack)
    ensures Refines(Flushed(s, io, now), v, base)
    ensures Flushed(s, io, now).sent + Flushed(s, io, now).w.pending == s.sent + s.w.pending
  {
    if Landed(s, io) {
      FlushLandsRefines(s, io, now, v, base);
    } else {
      assert Flushed(s, io, now) == s || Flushed(s, io, now) == Deferred(s, now);
    }
  }

  lemma EnqueueRefines(s: Session, q: Queued, now: nat, v: View, base: Bytes)
    requires Refines(s, v, base)
    ensures Refines(Enqueued(Touched(s, now), q, now), v, base)
    ensures Enqueued(Touched(s, now), q, now).sent + Enqueued(Touched(s, now), q, now).w.pending ==
            s.sent + s.w.pending + [q]
  {
  }

  lemma AcceptRefines(s: Session, q: Queued, io: Io, now: nat, v: View, base: Bytes)
    requires Refines(s, v, base) && (io.Failed? ==> io.rolledBack)
    ensures Refines(Accepted(s, q, io, now), v, base)
    ensures Accepted(s, q, io, now).sent + Accepted(s, q, io, now).w.pending ==
            s.sent + s.w.pending + if q.record.Head? && HeaderStands(s) then [] else [q]
  {
    var t := Touched(s, now);
    assert HeaderStands(t) == HeaderStands(s);
    if q.record.Head? && HeaderStands(s) {
      assert s.sent + s.w.pending + [] == s.sent + s.w.pending;
    } else {
      EnqueueRefines(s, q, now, v, base);
      if IsBoundary(q.record) || !t.w.compactable {
        FlushRefines(Enqueued(t, q, now), io, now, v, base);
      }
    }
  }

  lemma JobRefines(s: Session, p: Pass, v: View, base: Bytes)
    requires Refines(s, v, base) && Gentle(p)
    ensures Refines(AfterJob(s, p), v, base)
    ensures AfterJob(s, p).sent + AfterJob(s, p).w.pending == s.sent + s.w.pending + Kept(s, p)
  {
    if p.job.Some? {
      AcceptRefines(s, p.job.value, p.io, p.now, v, base);
    } else {
      assert s.sent + s.w.pending + [] == s.sent + s.w.pending;
    }
  }

  lemma EvictedRefines(s: Session, now: nat, v: View, base: Bytes)
    requires Refines(s, v, base) && s.w.pending == []
    ensures Refines(s.(w := FreshWriter(now)), v, base)
  {
  }

  lemma PassRefines(s: Session, p: Pass, v: View, base: Bytes)
    requires Refines(s, v, base) && Gentle(p)
    ensures Refines(Run1(s, p), v, base)
    ensures Run1(s, p).sent + Run1(s, p).w.pending == s.sent + s.w.pending + Kept(s, p)
  {
    JobRefines(s, p, v, base);
    FlushRefines(AfterJob(s, p), p.retryIo, p.now, v, base);
    var d := AfterDeadline(s, p);
    if Idle(d.w, p.now) { EvictedRefines(d, p.now, v, base); }
  }

  lemma {:induction false} RunRefines(s: Session, ps: seq<Pass>, v: View, base: Bytes)
    requires Refines(s, v, base) && AllGentle(ps)
    ensures Refines(Run(s, ps), v, base)
    ensures Run(s, ps).sent + Run(s, ps).w.pending == s.sent + s.w.pending + KeptAll(s, ps)
  {
    if ps == [] {
      assert s.sent + s.w.pending + [] == s.sent + s.w.pending;
    } else {
      var init, last := ps[..|ps| - 1], ps[|ps| - 1];
      RunRefines(s, init, v, base);
      PassRefines(Run(s, init), last, v, base);
      Associates(s.sent + s.w.pending, KeptAll(s, init), Kept(Run(s, init), last));
    }
  }

  /** The file shows exactly the conversation that the acknowledged records say verbatim. */
  predicate ShowsVerbatim(s: Session, base: Bytes, header: Option<Header>, earlier: seq<Entry>) {
    && FileHeader(s.file) == FileHeader(base).Or(FirstHeader(Records(s.sent)))
    && Show(header.Or(FileHeader(s.file)), earlier + FileEntries(s.file)) ==
    Show(header.Or(FileHeader(base).Or(FirstHeader(Records(s.sent)))),
         earlier + (FileEntries(base) + Entries(Records(s.sent))))
  }

  lemma RefinedShowsTheSame(s: Session, header: Option<Header>, earlier: seq<Entry>, base: Bytes)
    requires Refines(s, SeeAll(BLANK, earlier), base)
    ensures ShowsVerbatim(s, base, header, earlier)
  {
    var said := FileEntries(base) + Entries(Records(s.sent));
    SeeAppend(BLANK, earlier, FileEntries(s.file));
    SeeAppend(BLANK, earlier, said);
    ShowFromView(header.Or(FileHeader(s.file)), earlier + FileEntries(s.file), earlier + said);
  }

  lemma OpenedRefines(file: Bytes, now: nat, v: View)
    requires Terminated(file)
    ensures Refines(Opened(file, now), v, file)
  {
    assert Records([]) == [] && Entries([]) == [];
    assert FileEntries(file) + [] == FileEntries(file);
    assert FirstHeader([]) == None;
  }

  lemma NothingBefore(s: Session, qs: seq<Queued>)
    requires s.sent == [] && s.w.pending == []
    ensures s.sent + s.w.pending + qs == qs
  {
  }

  /**
   Write-behind is invisible. Over any run of accepts, deadlines, evictions, refused opens and
   failed writes that roll back, onto any terminated file and after any earlier transcripts of the
   conversation: the file shows exactly what the acknowledged records say verbatim, under the header
   it had or the first one acknowledged; acknowledged then buffered records are the queued ones in
   their order; none is dropped.
   */
  lemma WriteBehindIsInvisible(file: Bytes, now: nat, ps: seq<Pass>, header: Option<Header>, earlier: seq<Entry>)
    requires Terminated(file) && AllGentle(ps)
    ensures var s := Run(Opened(file, now), ps);
            && ShowsVerbatim(s, file, header, earlier)
            && s.sent + s.w.pending == KeptAll(Opened(file, now), ps)
            && s.dropped == []
  {
    var s0, v := Opened(file, now), SeeAll(BLANK, earlier);
    OpenedRefines(file, now, v);
    RunRefines(s0, ps, v, file);
    RefinedShowsTheSame(Run(s0, ps), header, earlier, file);
    NothingBefore(s0, KeptAll(s0, ps));
  }

  /** A retry writes what the first attempt would have: an attempt that left the file alone costs only time. */
  lemma RetryWritesTheSame(s: Session, io: Io, now: nat, later: nat)
    requires s.w.pending != [] && !s.w.poisoned && !Landed(s, io) && !Abandons(s, io)
    ensures var retried := Flushed(Flushed(s, io, now), Wrote, later);
            var once := Flushed(s, Wrote, now);
            retried.file == once.file && retried.sent == once.sent && retried.w == once.w
  {
  }

  /** An acknowledgement fires exactly when the batch lands, and with the bytes already in the file. */
  lemma AckMeansLanded(s: Session, io: Io, now: nat)
    requires s.w.pending != [] && Terminated(s.file)
    ensures var f := Flushed(s, io, now);
            && (f.sent == s.sent + s.w.pending && f.w.pending == [] && f.dropped == s.dropped <==> Landed(s, io))
            && (Landed(s, io) ==> FileEntries(f.file) == FileEntries(s.file) + Entries(BatchLines(s.w)))
            && (!Landed(s, io) && !Abandons(s, io) ==> f.file == s.file && f.sent == s.sent)
  {
    AppendedEntries(s.file, BatchLines(s.w));
    assert s.sent + [] == s.sent;
  }

  /**
   That holds of queued records only. A second header is acknowledged although the first is still
   buffered and nothing is on disk.
   */
  lemma DuplicateHeaderAckedUnwritten(h: Header, again: Header)
    ensures var first, second := Queued(Head(h), 1), Queued(Head(again), 2);
            var s1 := Run1(Opened([], 0), Pass(Some(first), NotOpened, NotOpened, 0));
            var s2 := Run1(s1, Pass(Some(second), NotOpened, NotOpened, 1));
            s2.file == [] && s2.sent == [] && s2.standing == [second] && s2.w.pending == [first]
  {
    var first := Queued(Head(h), 1);
    var s1 := Run1(Opened([], 0), Pass(Some(first), NotOpened, NotOpened, 0));
    assert s1.w.pending == [first] && first in s1.w.pending;
  }

  // ---- the abandoned batch

  /**
   An abandoned batch leaves a readable prefix of its lines behind although every record is reported
   lost, and its flag stays. The flag is sound afterwards exactly when that prefix does not end a
   turn that nothing reopens.
   */
  lemma AbandonedFlagIff(s: Session, io: Io, now: nat, v: View)
    requires Abandons(s, io) && io.closed && Terminated(s.file)
    requires EchoHasHint(v.reader) && Sound(s.w.compactable, SeeAll(v, FileEntries(s.file)))
    ensures var f := Flushed(s, io, now);
            var kept := Entries(Survivors(BatchLines(s.w), io.cut));
            && FileEntries(f.file) == FileEntries(s.file) + kept
            && Terminated(f.file) && f.sent == s.sent && f.dropped == s.dropped + s.w.pending
            && (Sound(f.w.compactable, SeeAll(v, FileEntries(f.file))) <==>
                f.w.compactable ==> EndsFixed(kept, true))
  {
    var f := Flushed(s, io, now);
    var kept := Entries(Survivors(BatchLines(s.w), io.cut));
    var before := SeeAll(v, FileEntries(s.file));
    PartialThenNewline(s.file, BatchLines(s.w), io.cut, io.torn);
    SeeAppend(v, FileEntries(s.file), kept);
    SeeReader(v, FileEntries(s.file));
    SeeReader(before, kept);
    EchoKept(v.reader, FileEntries(s.file));
    StartFixedIff(before.reader, kept);
    FirstStays(before, kept);
    NothingSent(s.sent);
  }

  lemma NothingSent(qs: seq<Queued>)
    ensures qs + [] == qs
  {
  }

  lemma {:induction false} SeeReader(v: View, es: seq<Entry>)
    ensures SeeAll(v, es).reader == ReadAll(v.reader, es)
  {
    if es != [] { SeeReader(v, es[..|es| - 1]); }
  }

  lemma {:induction false} FirstStays(v: View, es: seq<Entry>)
    ensures v.first.Some? ==> SeeAll(v, es).first == v.first
  {
    if es != [] { FirstStays(v, es[..|es| - 1]); }
  }

  /** A prompt that lands, then its turn end, whose write stops just before the line break and is not undone. */
  function HalfEnded(): seq<Pass> {
    [Pass(Some(Queued(Item(Prompt(1, [], "")), 1)), Wrote, Wrote, 0),
     Pass(Some(Queued(Item(TurnEnd(2, None, None, None)), 2)), Failed(1, false, false, true), Wrote, 0)]
  }

  /**
   The condition can fail, from an empty file on. The turn end is completed by the closing line break
   and read, yet the writer still merges: the next run of chunks moves a turn's start.
   */
  lemma AbandonedTurnEndShiftsAStart(a: Entry, b: Entry)
    requires Joinable(a, b) && a.update.content.text != [] && a.t < b.t
    ensures var s := Run(Opened([], 0), HalfEnded());
            && s.w.compactable && Records(s.dropped) == [Item(TurnEnd(2, None, None, None))]
            && Show(None, FileEntries(s.file + Serialize(Compacted([Item(a), Item(b)], s.w.compactable)))) !=
               Show(None, FileEntries(s.file + Serialize([Item(a), Item(b)])))
  {
    HalfEndedState();
    var s := Run(Opened([], 0), HalfEnded());
    CompactTwo(a, b);
    AppendedEntries(s.file, [Item(Join(a, b))]);
    AppendedEntries(s.file, [Item(a), Item(b)]);
    OneEntry(Join(a, b));
    TwoEntries(a, b);
    ShiftedStart(a, b, FileEntries(s.file));
  }

  lemma HalfEndedState()
    ensures var s := Run(Opened([], 0), HalfEnded());
            && s.w.compactable && Records(s.dropped) == [Item(TurnEnd(2, None, None, None))]
            && Terminated(s.file) && FileEntries(s.file) == [Prompt(1, [], ""), TurnEnd(2, None, None, None)]
  {
    var ps := HalfEnded();
    RunTwo(Opened([], 0), ps[0], ps[1]);
    PromptLands(Queued(Item(Prompt(1, [], "")), 1));
    TurnEndIsLost(Run1(Opened([], 0), ps[0]), Prompt(1, [], ""), TurnEnd(2, None, None, None));
  }

  lemma RunTwo(s: Session, p: Pass, q: Pass)
    ensures Run(s, [p, q]) == Run1(Run1(s, p), q)
  {
    assert [p, q][..1] == [p] && [p][..0] == [];
    assert Run(s, [p]) == Run1(s, p);
  }

  lemma PromptLands(q: Queued)
    requires q.record.Item? && q.record.entry.Prompt?
    ensures var s := Run1(Opened([], 0), Pass(Some(q), Wrote, Wrote, 0));
            s == Session(Writer([], true, false, false, None, 0, 0), Serialize([q.record]), [q], [], [])
  {
    assert Records([] + [q]) == [q.record];
    CompactOne(q.record, false);
    assert NextFlag([q.record], false) by { assert [q.record][..0] == []; }
    assert [] + Serialize([q.record]) == Serialize([q.record]);
  }

  lemma TurnEndIsLost(s: Session, prompt: Entry, end: Entry)
    requires prompt.Prompt? && end.TurnEnd?
    requires s.w == Writer([], true, false, false, None, 0, 0) && s.file == Serialize([Item(prompt)]) && s.dropped == []
    ensures var f := Run1(s, Pass(Some(Queued(Item(end), 2)), Failed(1, false, false, true), Wrote, 0));
            && f.w.compactable && Records(f.dropped) == [Item(end)]
            && Terminated(f.file) && FileEntries(f.file) == [prompt, end]
  {
    var q, io := Queued(Item(end), 2), Failed(1, false, false, true);
    var e := Enqueued(Touched(s, 0), q, 0);
    assert e.w.pending == [q] && Records([q]) == [Item(end)];
    CompactOne(Item(end), true);
    SerializeAt([Item(end)], 0);
    assert Abandons(e, io);
    LastLineIsClosed(s.file, prompt, end);
    var f := Flushed(e, io, 0);
    assert f.file == s.file + Partial([Item(end)], 1, false) + [Newline];
    assert f.dropped == [q] && f.w.pending == [];
    assert Run1(s, Pass(Some(q), io, Wrote, 0)) == f;
  }

  /** One prompt, and a turn end cut just before its line break, which the closing one restores. */
  lemma LastLineIsClosed(file: Bytes, prompt: Entry, end: Entry)
    requires file == Serialize([Item(prompt)]) && PossibleCut([Item(end)], 1, false)
    ensures var closed := file + Partial([Item(end)], 1, false) + [Newline];
            Terminated(closed) && FileEntries(closed) == [prompt, end]
  {
    AppendBatch([], [Item(prompt)]);
    AppendedEntries([], [Item(prompt)]);
    assert [] + Serialize([Item(prompt)]) == file && FileEntries([]) == [];
    PartialThenNewline(file, [Item(end)], 1, false);
    SerializeAt([Item(end)], 0);
    assert Survivors([Item(end)], 1) == [Item(end)];
    OneEntry(prompt);
    OneEntry(end);
  }

  lemma CompactOne(r: Record, compactable: bool)
    requires r.Item? && !Mergeable(r.entry)
    ensures Compacted([r], compactable) == [r]
  {
    var start := Batch([], None, compactable);
    assert [r][..0] == [];
    assert PutAll(start, []) == start;
    assert Close(Put(start, r)) == [r];
  }

  lemma CompactTwo(a: Entry, b: Entry)
    requires Joinable(a, b)
    ensures Compacted([Item(a), Item(b)], true) == [Item(Join(a, b))]
  {
    var rs := [Item(a), Item(b)];
    var start := Batch([], None, true);
    assert rs[..1] == [Item(a)] && [Item(a)][..0] == [];
    assert PutAll(start, []) == start;
    assert PutAll(start, [Item(a)]) == Batch([], Some(a), true);
    assert PutAll(start, rs) == Batch([], Some(Join(a, b)), true);
  }

  lemma OneEntry(e: Entry)
    ensures Entries([Item(e)]) == [e]
  {
    assert [Item(e)][..0] == [];
  }

  lemma TwoEntries(a: Entry, b: Entry)
    ensures Entries([Item(a), Item(b)]) == [a, b]
  {
    assert [Item(a), Item(b)] == [Item(a)] + [Item(b)];
    EntriesAppend([Item(a)], [Item(b)]);
    OneEntry(a);
    OneEntry(b);
  }

  lemma ShiftedStart(a: Entry, b: Entry, before: seq<Entry>)
    requires Joinable(a, b) && a.update.content.text != [] && a.t < b.t
    requires before == [Prompt(1, [], ""), TurnEnd(2, None, None, None)]
    ensures Show(None, before + [Join(a, b)]) != Show(None, before + [a, b])
  {
    var r := ReadAll(FRESH_READER, before);
    assert before[..1] == [Prompt(1, [], "")] && before[..1][..0] == [];
    assert ReadAll(FRESH_READER, before[..1]) == ReadEntry(FRESH_READER, before[0]);
    assert r == ReadEntry(ReadEntry(FRESH_READER, before[0]), before[1]);
    ReadAppend(FRESH_READER, before, [Join(a, b)]);
    ReadAppend(FRESH_READER, before, [a, b]);
    assert [a, b][..1] == [a] && [a][..0] == [] && [Join(a, b)][..0] == [];
    var one, two := ReadEntry(r, Join(a, b)), ReadEntry(ReadEntry(r, a), b);
    assert ReadAll(r, [a]) == ReadEntry(r, a);
    assert ReadAll(r, [Join(a, b)]) == one && ReadAll(r, [a, b]) == two;
    assert one.pending.value.hasContent && two.pending.value.hasContent;
    assert Flush(one).turns[|r.turns|].timestamp == b.t;
    assert Flush(two).turns[|r.turns|].timestamp == a.t;
  }

  // ---- poison does not outlive its writer

  /**
   Eviction ignores poison. A writer that could not even restore a line break goes idle like any
   other; the fresh writer then glues its first record to the torn tail and acknowledges a prompt
   that no reader will find.
   */
  lemma EvictionForgetsPoison(prompt: Entry, s: Session, now: nat)
    requires prompt.Prompt? && s.w.poisoned && s.w.pending == [] && !Terminated(s.file)
    requires now >= s.w.touched + IDLE_EVICT
    ensures var q := Queued(Item(prompt), 1);
            var s1 := Run1(s, Pass(None, Wrote, Wrote, now));
            var s2 := Run1(s1, Pass(Some(q), Wrote, Wrote, now));
            && s2.sent == s.sent + [q]
            && |FileEntries(s2.file)| <= |FileEntries(s.file)|
  {
    var q := Queued(Item(prompt), 1);
    var s1 := Run1(s, Pass(None, Wrote, Wrote, now));
    assert Flushed(s, Wrote, now) == s;
    assert s1 == s.(w := FreshWriter(now));
    assert Records([] + [q]) == [Item(prompt)];
    CompactOne(Item(prompt), false);
    assert [Item(prompt)][..0] == [] && Serialize([]) == [];
    assert Serialize([Item(prompt)]) == [Json(Item(prompt), true), Newline];
    GluedLine(s.file, Item(prompt));
  }

  /**
   And a run gets there from an empty file: a torn prompt that can be neither undone nor closed, half an
   hour of silence, and another prompt, which is acknowledged and which no reader finds.
   */
  lemma AcknowledgedButUnreadable(first: Entry, second: Entry)
    requires first.Prompt? && second.Prompt?
    ensures var torn := Pass(Some(Queued(Item(first), 1)), Failed(0, true, false, false), Wrote, 0);
            var silence := Pass(None, Wrote, Wrote, IDLE_EVICT);
            var next := Pass(Some(Queued(Item(second), 1)), Wrote, Wrote, IDLE_EVICT);
            var s := Run1(Run1(Run1(Opened([], 0), torn), silence), next);
            s.sent == [Queued(Item(second), 1)] && FileEntries(s.file) == []
  {
    var q := Queued(Item(first), 1);
    var s := Run1(Opened([], 0), Pass(Some(q), Failed(0, true, false, false), Wrote, 0));
    PromptIsTorn(q);
    EvictionForgetsPoison(second, s, IDLE_EVICT);
  }

  lemma PromptIsTorn(q: Queued)
    requires q.record.Item? && q.record.entry.Prompt?
    ensures var s := Run1(Opened([], 0), Pass(Some(q), Failed(0, true, false, false), Wrote, 0));
            && s.w.poisoned && s.w.pending == [] && s.w.touched == 0 && s.sent == []
            && !Terminated(s.file) && FileEntries(s.file) == []
  {
    assert Records([] + [q]) == [q.record];
    CompactOne(q.record, false);
    SerializeAt([q.record], 0);
    assert Partial([q.record], 0, true) == [Json(q.record, false)];
    assert [] + [Json(q.record, false)] + [] == [Json(q.record, false)];
    SplitSnoc([], Json(q.record, false));
    assert [] + [Json(q.record, false)] == [Json(q.record, false)];
    assert Lines([Json(q.record, false)]) == [Line(None, None)];
    assert [Line(None, None)][..0] == [];
  }
}
