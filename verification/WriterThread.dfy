/**
 The writer thread itself (`run_writer`, src-tauri/src/acp_transcript.rs): one loop serving the
 sessions of every path. Each path sees exactly the passes of `WriterRuns`.
 */
module WriterThread {
  import opened Options
  import opened TranscriptFile
  import opened SessionWriter
  import opened WriterRuns

  type Path = string

  /** How the two attempts a pass may make for each path go. */
  type Attempts = Path -> (Io, Io)

  /** What one pass of the thread is to one path: its record if it has one, and its deadline check. */
  function PassFor(p: Path, job: Option<(Path, Queued)>, attempts: Attempts, now: nat): Pass {
    Pass(if job.Some? && job.value.0 == p then Some(job.value.1) else None, attempts(p).0, attempts(p).1, now)
  }

  function Settled(s: Session, io: Io, now: nat): Session {
    var d := if Due(s.w, now) then Flushed(s, io, now) else s;
    if Idle(d.w, now) then d.(w := FreshWriter(now)) else d
  }

  lemma PassSettles(s: Session, p: Pass)
    ensures Run1(s, p) == Settled(AfterJob(s, p), p.retryIo, p.now)
  {
  }

  class WriterThread {
    /** Every path ever written; a forgotten writer is a fresh one. */
    var sessions: map<Path, Session>

    constructor ()
      ensures sessions == map[]
    {
      sessions := map[];
    }

    /** When the thread must wake: the earliest deadline, or never. */
    method NextDeadline() returns (next: Option<nat>)
      ensures next.None? <==> forall p | p in sessions :: Deadline(sessions[p].w).None?
      ensures next.Some? ==> exists p :: p in sessions && Deadline(sessions[p].w) == next
      ensures next.Some? ==> forall p | p in sessions && Deadline(sessions[p].w).Some? ::
                next.value <= Deadline(sessions[p].w).value
    {
      next := None;
      var todo := sessions.Keys;
      while todo != {}
        invariant todo <= sessions.Keys
        invariant next.None? <==> forall p | p in sessions.Keys - todo :: Deadline(sessions[p].w).None?
        invariant next.Some? ==> exists p :: p in sessions && Deadline(sessions[p].w) == next
        invariant next.Some? ==> forall p | p in sessions.Keys - todo && Deadline(sessions[p].w).Some? ::
                    next.value <= Deadline(sessions[p].w).value
        decreases todo
      {
        var p :| p in todo;
        var at := Deadline(sessions[p].w);
        if at.Some? && (next.None? || at.value < next.value) { next := at; }
        todo := todo - {p};
      }
    }

    /** One pass: accept the received record, flush what is due, forget the idle. */
    method Pass(job: Option<(Path, Queued)>, attempts: Attempts, now: nat, disk: map<Path, Bytes>)
      requires job.Some? ==> job.value.0 in sessions || job.value.0 in disk
      modifies this
      ensures sessions.Keys == old(sessions).Keys + if job.Some? then {job.value.0} else {}
      ensures forall p | p in old(sessions) ::
                sessions[p] == Run1(old(sessions)[p], PassFor(p, job, attempts, now))
      ensures job.Some? && job.value.0 !in old(sessions) ==>
                sessions[job.value.0] ==
                Run1(Opened(disk[job.value.0], now), PassFor(job.value.0, job, attempts, now))
    {
      Receive(job, attempts, now, disk);
      ghost var received := sessions;
      FlushDue(attempts, now);
      forall p | p in sessions
        ensures p in old(sessions) ==> sessions[p] == Run1(old(sessions)[p], PassFor(p, job, attempts, now))
        ensures p !in old(sessions) ==>
                  sessions[p] == Run1(Opened(disk[p], now), PassFor(p, job, attempts, now))
      {
        PassSettles(if p in old(sessions) then old(sessions)[p] else Opened(disk[p], now), PassFor(p, job, attempts, now));
      }
    }

    method Receive(job: Option<(Path, Queued)>, attempts: Attempts, now: nat, disk: map<Path, Bytes>)
      requires job.Some? ==> job.value.0 in sessions || job.value.0 in disk
      modifies this
      ensures sessions.Keys == old(sessions).Keys + if job.Some? then {job.value.0} else {}
      ensures forall p | p in sessions ::
                sessions[p] == AfterJob(if p in old(sessions) then old(sessions)[p] else Opened(disk[p], now),
                                        PassFor(p, job, attempts, now))
    {
      if job.Some? {
        var path, queued := job.value.0, job.value.1;
        if path !in sessions {
          sessions := sessions[path := Opened(disk[path], now)];
        }
        sessions := sessions[path := Accepted(sessions[path], queued, attempts(path).0, now)];
      }
    }

    /** The end of a pass: flush every writer whose deadline has come, then forget the idle ones. */
    method FlushDue(attempts: Attempts, now: nat)
      modifies this
      ensures sessions.Keys == old(sessions).Keys
      ensures forall p | p in sessions :: sessions[p] == Settled(old(sessions)[p], attempts(p).1, now)
    {
      ghost var before := sessions;
      var todo := sessions.Keys;
      while todo != {}
        invariant sessions.Keys == before.Keys && todo <= before.Keys
        invariant forall p | p in todo :: sessions[p] == before[p]
        invariant forall p | p in before.Keys - todo :: sessions[p] == Settled(before[p], attempts(p).1, now)
        decreases todo
      {
        var p :| p in todo;
        var s := sessions[p];
        if Due(s.w, now) { s := Flushed(s, attempts(p).1, now); }
        if Idle(s.w, now) { s := s.(w := FreshWriter(now)); }
        sessions := sessions[p := s];
        todo := todo - {p};
      }
    }
  }

  /** The thread sleeps without a wake-up only when no record is buffered anywhere. */
  lemma SleepsOnlyWhenEmpty(sessions: map<Path, Session>)
    requires forall p | p in sessions :: WriterInv(sessions[p])
    ensures (forall p | p in sessions :: Deadline(sessions[p].w).None?) <==>
            (forall p | p in sessions :: sessions[p].w.pending == [])
  {
    if forall p | p in sessions :: sessions[p].w.pending == [] {
      forall p | p in sessions ensures Deadline(sessions[p].w).None? { assert WriterInv(sessions[p]); }
    }
    if forall p | p in sessions :: Deadline(sessions[p].w).None? {
      forall p | p in sessions ensures sessions[p].w.pending == [] { assert WriterInv(sessions[p]); }
    }
  }
}
