/**
 `SessionWriter` (src-tauri/src/acp_transcript.rs): the write-behind state of one transcript file.

 The functions say what each step does to a `Session`: the writer's fields, the file, and where
 every accepted record's acknowledgement went. The class updates the same state in place.
 The clock is read once per call; each attempt to write is given its outcome.
 */
module SessionWriter {
  import opened Options
  import opened Conversation
  import opened Compaction
  import opened TranscriptFile

  /** A record and the caller waiting for it. Leaving the writer also drops a prompt's guard. */
  datatype Queued = Queued(record: Record, ticket: nat)

  const FLUSH_WINDOW: nat := 1000
  const IDLE_EVICT: nat := 30 * 60 * 1000

  /**
   How one attempt to write went: nothing was written; everything was; or the write stopped
   after `cut` tokens (`torn`: inside the next), the rollback did or did not succeed, and, if
   it did not, neither may the closing line break.
   */
  datatype Io = NotOpened | Wrote | Failed(cut: nat, torn: bool, rolledBack: bool, closed: bool)

  datatype Writer = Writer(
    pending: seq<Queued>, compactable: bool, headerWritten: bool, poisoned: bool,
    oldest: Option<nat>, failures: nat, touched: nat)

  /** `sent`: landed and acknowledged; `standing`: acknowledged as duplicates; `dropped`: refused or abandoned. */
  datatype Session = Session(
    w: Writer, file: Bytes, sent: seq<Queued>, standing: seq<Queued>, dropped: seq<Queued>)

  function FreshWriter(now: nat): Writer {
    Writer([], false, false, false, None, 0, now)
  }

  function Records(qs: seq<Queued>): seq<Record> {
    seq(|qs|, (i: nat) requires i < |qs| => qs[i].record)
  }

  predicate HasHeader(qs: seq<Queued>) {
    exists q | q in qs :: q.record.Head?
  }

  function Deadline(w: Writer): Option<nat> {
    if w.oldest.Some? then Some(w.oldest.value + FLUSH_WINDOW) else None
  }

  predicate Due(w: Writer, now: nat) {
    Deadline(w).Some? && Deadline(w).value <= now
  }

  predicate Idle(w: Writer, now: nat) {
    w.pending == [] && now >= w.touched + IDLE_EVICT
  }

  predicate HeaderStands(s: Session) {
    s.w.headerWritten || HasHeader(s.w.pending) || s.file != []
  }

  function Resolved(s: Session, landed: bool): Session {
    s.(w := s.w.(pending := [], oldest := None),
       sent := s.sent + if landed then s.w.pending else [],
       dropped := s.dropped + if landed then [] else s.w.pending)
  }

  function Deferred(s: Session, now: nat): Session {
    s.(w := s.w.(oldest := Some(now), failures := s.w.failures + 1))
  }

  function BatchLines(w: Writer): seq<Record> {
    Compacted(Records(w.pending), w.compactable)
  }

  /** A failure this batch cannot have had stands for an attempt that never started. */
  predicate Partly(w: Writer, io: Io) {
    io.Failed? && PossibleCut(BatchLines(w), io.cut, io.torn)
  }

  predicate Landed(s: Session, io: Io) {
    s.w.pending != [] && !s.w.poisoned && io.Wrote?
  }

  /** The batch was given up because part of it could not be removed again. */
  predicate Abandons(s: Session, io: Io) {
    s.w.pending != [] && !s.w.poisoned && Partly(s.w, io) && !io.rolledBack
  }

  function Flushed(s: Session, io: Io, now: nat): Session {
    if s.w.pending == [] then s
    else if s.w.poisoned then Resolved(s, false)
    else if io.Wrote? then
      var written := s.w.(compactable := NextFlag(Records(s.w.pending), s.w.compactable),
                          headerWritten := s.w.headerWritten || HasHeader(s.w.pending), failures := 0);
      Resolved(s.(w := written, file := s.file + Serialize(BatchLines(s.w))), true)
    else if Abandons(s, io) then
      var left := s.file + Partial(BatchLines(s.w), io.cut, io.torn) + if io.closed then [Newline] else [];
      Resolved(s.(w := s.w.(poisoned := !io.closed), file := left), false)
    else Deferred(s, now)
  }

  function Touched(s: Session, now: nat): Session {
    s.(w := s.w.(touched := now))
  }

  function Enqueued(s: Session, q: Queued, now: nat): Session {
    s.(w := s.w.(oldest := if s.w.pending == [] then Some(now) else s.w.oldest, pending := s.w.pending + [q]))
  }

  function Accepted(s0: Session, q: Queued, io: Io, now: nat): Session {
    var s := Touched(s0, now);
    if s.w.poisoned then s.(dropped := s.dropped + [q])
    else if q.record.Head? && HeaderStands(s) then
      s.(w := s.w.(headerWritten := true), standing := s.standing + [q])
    else if IsBoundary(q.record) || !s.w.compactable then Flushed(Enqueued(s, q, now), io, now)
    else Enqueued(s, q, now)
  }

  /** The file on disk; the writer is its only writer. */
  class Disk {
    var bytes: Bytes
    constructor (bytes: Bytes)
      ensures this.bytes == bytes
    {
      this.bytes := bytes;
    }
  }

  class SessionWriter {
    const disk: Disk
    var pending: seq<Queued>
    var compactable: bool
    var headerWritten: bool
    var poisoned: bool
    var oldestPendingAt: Option<nat>
    var consecutiveFailures: nat
    var lastTouched: nat
    var sent: seq<Queued>
    var standing: seq<Queued>
    var dropped: seq<Queued>

    ghost function State(): Session
      reads this, disk
    {
      Session(Writer(pending, compactable, headerWritten, poisoned, oldestPendingAt, consecutiveFailures, lastTouched),
              disk.bytes, sent, standing, dropped)
    }

    constructor (disk: Disk, now: nat)
      ensures this.disk == disk && State() == Session(FreshWriter(now), disk.bytes, [], [], [])
    {
      this.disk := disk;
      pending, compactable, headerWritten, poisoned := [], false, false, false;
      oldestPendingAt, consecutiveFailures, lastTouched := None, 0, now;
      sent, standing, dropped := [], [], [];
    }

    method Accept(q: Queued, io: Io, now: nat)
      modifies this, disk
      ensures State() == Accepted(old(State()), q, io, now)
    {
      lastTouched := now;
      if poisoned {
        dropped := dropped + [q];
        return;
      }
      if q.record.Head? {
        var stands := HeaderAlreadyStands();
        if stands {
          standing := standing + [q];
          return;
        }
      }
      if pending == [] {
        oldestPendingAt := Some(now);
      }
      pending := pending + [q];
      if IsBoundary(q.record) || !compactable {
        Flush(io, now);
      }
    }

    method HeaderAlreadyStands() returns (stands: bool)
      modifies this`headerWritten
      ensures stands == HeaderStands(old(State()))
      ensures headerWritten == stands
    {
      if headerWritten { return true; }
      stands := disk.bytes != [];
      for i := 0 to |pending|
        invariant stands <==> disk.bytes != [] || HasHeader(pending[..i])
      {
        assert pending[..i + 1] == pending[..i] + [pending[i]];
        stands := stands || pending[i].record.Head?;
      }
      assert pending[..|pending|] == pending;
      headerWritten := stands;
    }

    method ResolveAll(landed: bool)
      modifies this
      ensures State() == Resolved(old(State()), landed)
    {
      if landed { sent := sent + pending; } else { dropped := dropped + pending; }
      pending, oldestPendingAt := [], None;
    }

    method Defer(now: nat)
      modifies this
      ensures State() == Deferred(old(State()), now)
    {
      oldestPendingAt := Some(now);
      consecutiveFailures := consecutiveFailures + 1;
    }

    /** The write failed with `part` on disk: take it back, or close it and give the batch up. */
    method WriteInPart(part: Bytes, rolledBack: bool, closed: bool, now: nat)
      requires !poisoned
      modifies this, disk
      ensures rolledBack ==> State() == Deferred(old(State()), now)
      ensures !rolledBack ==>
                State() == Resolved(old(State()).(w := old(State()).w.(poisoned := !closed),
                                                  file := old(State()).file + part + if closed then [Newline] else []), false)
    {
      var preLen := |disk.bytes|;
      disk.bytes := disk.bytes + part;
      if rolledBack {
        disk.bytes := disk.bytes[..preLen];
        Defer(now);
        return;
      }
      if closed {
        disk.bytes := disk.bytes + [Newline];
      } else {
        poisoned := true;
      }
      ResolveAll(false);
    }

    method Flush(io: Io, now: nat)
      modifies this, disk
      ensures State() == Flushed(old(State()), io, now)
    {
      if pending == [] { return; }
      if poisoned {
        ResolveAll(false);
        return;
      }
      var lines, next := CompactBatch(Records(pending), compactable);
      if io.Wrote? {
        disk.bytes := disk.bytes + Serialize(lines);
        compactable := next;
        if exists q | q in pending :: q.record.Head? { headerWritten := true; }
        consecutiveFailures := 0;
        ResolveAll(true);
      } else if io.Failed? && PossibleCut(lines, io.cut, io.torn) {
        WriteInPart(Partial(lines, io.cut, io.torn), io.rolledBack, io.closed, now);
      } else {
        Defer(now);
      }
    }
  }
}
