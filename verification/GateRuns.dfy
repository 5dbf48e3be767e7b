/**
 The replay gate's model against the writer's (src-tauri/src/acp_transcript.rs): every flush is a step of
 the gate, and every run of the writer is a run of it.
 */
module GateRuns {
  import opened Options
  import opened Conversation
  import opened Compaction
  import opened TranscriptReader
  import opened TranscriptFile
  import opened SessionWriter
  import opened WriterRuns
  import opened ReplayGate

  // ---- one flush

  /** The gate's picture of a writer between two batches. */
  ghost predicate Pictures(g: State, s: Session) {
    && g.lines == Split(s.file).0 + g.tail && g.stable == |Split(s.file).0| && g.tail == TailOf(s.file)
    && g.buffer == s.w.pending && g.compactable == s.w.compactable
  }

  /** The unfinished last line, if there is one. */
  function TailOf(file: Bytes): seq<Line> {
    if Split(file).1 == [] then [] else [LineOf(Split(file).1)]
  }

  /** What a batch appended to any file is read as. */
  lemma LandedSplit(file: Bytes, written: seq<Record>)
    requires written != []
    ensures Split(file + Serialize(written)) == (Split(file).0 + LandedLines(TailOf(file), written), [])
  {
    TerminatedSplit(file);
    if Terminated(file) {
      AppendBatch(file, written);
    } else {
      GluedSplit(file, written[0], written[1..]);
      assert written == [written[0]] + written[1..];
    }
  }

  lemma LandingIsAGateStep(g: State, s: Session, io: Io, now: nat)
    requires Pictures(g, s) && Landed(s, io)
    ensures Pictures(Act(g, Land), Flushed(s, io, now))
  {
    var written := BatchLines(s.w);
    EverythingElseIsVerbatim(Records(s.w.pending), s.w.compactable);
    LandedSplit(s.file, written);
    assert Flushed(s, io, now).file == s.file + Serialize(written);
    assert g.lines[..g.stable] == Split(s.file).0;
  }

  lemma AbandoningIsAGateStep(g: State, s: Session, io: Io, now: nat) returns (step: Step)
    requires Pictures(g, s) && Abandons(s, io)
    ensures step.Abandon? && Pictures(Act(g, step), Flushed(s, io, now))
  {
    var left := AbandonedFile(s, io, now);
    FinishedOnlyGrow(s.file, left);
    var partial := Suffix(Split(s.file).0, Split(s.file + left).0);
    step := Abandon(partial, TailOf(s.file + left));
    assert g.lines[..g.stable] == Split(s.file).0;
  }

  lemma AbandonedFile(s: Session, io: Io, now: nat) returns (left: Bytes)
    requires Abandons(s, io)
    ensures var f := Flushed(s, io, now);
            f.file == s.file + left && f.w.pending == [] && f.w.compactable == s.w.compactable
  {
    var part := Partial(BatchLines(s.w), io.cut, io.torn);
    var ending := if io.closed then [Newline] else [];
    left := part + ending;
    assert s.file + (part + ending) == s.file + part + ending;
  }

  lemma Suffix(lines: seq<Line>, more: seq<Line>) returns (rest: seq<Line>)
    requires lines <= more
    ensures lines + rest == more
  {
    rest := more[|lines|..];
  }

  /**
   The writer's flushes are the gate's steps, whatever the file ends in: a flush is a landing, an
   abandonment or a rollback.
   */
  lemma FlushIsAGateStep(g: State, s: Session, io: Io, now: nat) returns (step: Step)
    requires Pictures(g, s) && s.w.pending != [] && !s.w.poisoned
    ensures step.Land? || step.RollBack? || step.Abandon?
    ensures step.Land? <==> Landed(s, io)
    ensures step.Abandon? <==> Abandons(s, io)
    ensures Pictures(Act(g, step), Flushed(s, io, now))
  {
    if Landed(s, io) {
      step := Land;
      LandingIsAGateStep(g, s, io, now);
    } else if Abandons(s, io) {
      step := AbandoningIsAGateStep(g, s, io, now);
    } else {
      step := RollBack;
      RollingBackIsAGateStep(g, s, io, now);
    }
  }

  lemma RollingBackIsAGateStep(g: State, s: Session, io: Io, now: nat)
    requires Pictures(g, s) && s.w.pending != [] && !s.w.poisoned && !Landed(s, io) && !Abandons(s, io)
    ensures Pictures(Act(g, RollBack), Flushed(s, io, now))
  {
    assert g.lines[..g.stable] == Split(s.file).0;
  }

  /** And what a reader sees of a batch cut anywhere in mid-write is a write in progress. */
  lemma WritingIsAGateStep(g: State, s: Session, written: Bytes) returns (partial: seq<Line>)
    requires Pictures(g, s)
    ensures Act(g, Progress(partial)) == g.(lines := Lines(s.file + written))
  {
    FinishedOnlyGrow(s.file, written);
    partial := Suffix(Split(s.file).0, Lines(s.file + written));
    assert g.lines[..g.stable] == Split(s.file).0;
  }

  // ---- whole runs

  /** The gate's picture of a writer between two passes, with every acknowledgement and every refusal in it. */
  ghost predicate Mirrors(g: State, s: Session) {
    && Pictures(g, s) && g.hands == [] && g.queue == []
    && g.landed + g.glued == Tickets(s.sent) && g.discarded == Tickets(s.dropped)
    && (s.w.poisoned ==> s.w.pending == [])
  }

  lemma LandKeepsTickets(g: State, s: Session, io: Io, now: nat)
    requires Mirrors(g, s) && Landed(s, io)
    ensures var t, f := Act(g, Land), Flushed(s, io, now);
            t.landed + t.glued == Tickets(f.sent) && t.discarded == Tickets(f.dropped)
  {
    GluedAndRest(g);
    TicketsAppend(s.sent, s.w.pending);
    assert s.dropped + [] == s.dropped;
  }

  lemma AbandonKeepsTickets(g: State, s: Session, io: Io, now: nat, step: Step)
    requires Mirrors(g, s) && Abandons(s, io) && step.Abandon?
    ensures var t, f := Act(g, step), Flushed(s, io, now);
            t.landed + t.glued == Tickets(f.sent) && t.discarded == Tickets(f.dropped)
  {
    TicketsAppend(s.dropped, s.w.pending);
    assert s.sent + [] == s.sent;
  }

  /** A step that moves neither hands nor queue. */
  lemma FlushStepLeavesHands(g: State, step: Step)
    requires step.Land? || step.RollBack? || step.Abandon?
    ensures Act(g, step).hands == g.hands && Act(g, step).queue == g.queue
    ensures step.RollBack? ==> Act(g, step).landed == g.landed && Act(g, step).glued == g.glued &&
                               Act(g, step).discarded == g.discarded
  {
  }

  lemma FlushedWriter(s: Session, io: Io, now: nat)
    requires s.w.poisoned ==> s.w.pending == []
    ensures var f := Flushed(s, io, now);
            && (f.w.poisoned ==> f.w.pending == [])
            && (s.w.pending == [] || s.w.poisoned ==> f == s)
            && (s.w.pending != [] && !s.w.poisoned && !Landed(s, io) && !Abandons(s, io) ==>
                  f.sent == s.sent && f.dropped == s.dropped)
  {
  }

  /** An attempt is no step or one step of the gate. */
  lemma FlushMirrors(g: State, s: Session, io: Io, now: nat) returns (steps: seq<Step>)
    requires Mirrors(g, s)
    ensures Mirrors(Reach(g, steps), Flushed(s, io, now))
  {
    FlushedWriter(s, io, now);
    if s.w.pending == [] || s.w.poisoned {
      steps := [];
    } else {
      var step := FlushIsAGateStep(g, s, io, now);
      FlushStepLeavesHands(g, step);
      if Landed(s, io) {
        LandKeepsTickets(g, s, io, now);
      } else if Abandons(s, io) {
        AbandonKeepsTickets(g, s, io, now, step);
      }
      steps := [step];
      ReachTwo(g, step, step);
    }
  }

  /** Enqueued, received and let go: poisoned writers and duplicate headers. */
  function Refusal(q: Queued): seq<Step> {
    [Take(q), Offer(0, true), Receive(true)]
  }

  function Arrival(q: Queued): seq<Step> {
    [Take(q), Offer(0, true), Receive(false)]
  }

  lemma ReachThree(s: State, a: Step, b: Step, c: Step)
    ensures Reach(s, [a, b, c]) == Act(Act(Act(s, a), b), c)
  {
    assert [a, b, c][..2] == [a, b];
    ReachTwo(s, a, b);
  }

  lemma Received(g: State, q: Queued, refused: bool)
    requires g.hands == [] && g.queue == []
    ensures var t := Reach(g, [Take(q), Offer(0, true), Receive(refused)]);
            && t.hands == [] && t.queue == []
            && t.lines == g.lines && t.stable == g.stable && t.tail == g.tail && t.compactable == g.compactable
            && t.landed == g.landed && t.glued == g.glued
            && t.buffer == (if refused then g.buffer else g.buffer + [q])
            && t.discarded == g.discarded + if refused then Tickets([q]) else {}
  {
    ReachThree(g, Take(q), Offer(0, true), Receive(refused));
    var taken := Act(g, Take(q));
    assert taken.hands == [q] && taken.queue == [];
    var offered := Act(taken, Offer(0, true));
    assert offered.hands == [] && offered.queue == [q];
  }

  lemma RefusedMirrors(g: State, s: Session, q: Queued, now: nat)
    requires Mirrors(g, s) && (s.w.poisoned || (q.record.Head? && HeaderStands(s)))
    ensures Mirrors(Reach(g, Refusal(q)), Accepted(s, q, Wrote, now))
    ensures forall io :: Accepted(s, q, io, now) == Accepted(s, q, Wrote, now)
  {
    Received(g, q, true);
    TicketsAppend(s.dropped, [q]);
    assert HeaderStands(Touched(s, now)) == HeaderStands(s);
    assert !IsPrompt(q) ==> Tickets([q]) == {};
  }

  lemma EnqueuedMirrors(g: State, s: Session, q: Queued, now: nat)
    requires Mirrors(g, s) && !s.w.poisoned
    ensures Mirrors(Reach(g, Arrival(q)), Enqueued(Touched(s, now), q, now))
  {
    Received(g, q, false);
  }

  lemma AcceptMirrors(g: State, s: Session, q: Queued, io: Io, now: nat) returns (steps: seq<Step>)
    requires Mirrors(g, s)
    ensures Mirrors(Reach(g, steps), Accepted(s, q, io, now))
  {
    var t := Touched(s, now);
    assert HeaderStands(t) == HeaderStands(s);
    if s.w.poisoned || (q.record.Head? && HeaderStands(s)) {
      steps := Refusal(q);
      RefusedMirrors(g, s, q, now);
    } else {
      steps := Arrival(q);
      EnqueuedMirrors(g, s, q, now);
      if IsBoundary(q.record) || !t.w.compactable {
        var flush := FlushMirrors(Reach(g, steps), Enqueued(t, q, now), io, now);
        ReachAppend(g, steps, flush);
        steps := steps + flush;
      }
    }
  }

  lemma EvictMirrors(g: State, s: Session, now: nat)
    requires Mirrors(g, s) && s.w.pending == []
    ensures Mirrors(Reach(g, [Evict]), s.(w := FreshWriter(now)))
  {
    ReachTwo(g, Evict, Evict);
  }

  lemma JobMirrors(g: State, s: Session, p: Pass) returns (steps: seq<Step>)
    requires Mirrors(g, s)
    ensures Mirrors(Reach(g, steps), AfterJob(s, p))
  {
    if p.job.Some? { steps := AcceptMirrors(g, s, p.job.value, p.io, p.now); } else { steps := []; }
  }

  lemma DeadlineMirrors(g: State, s: Session, p: Pass) returns (steps: seq<Step>)
    requires Mirrors(g, AfterJob(s, p))
    ensures Mirrors(Reach(g, steps), AfterDeadline(s, p))
  {
    if Due(AfterJob(s, p).w, p.now) {
      steps := FlushMirrors(g, AfterJob(s, p), p.retryIo, p.now);
    } else {
      steps := [];
    }
  }

  lemma PassMirrors(g: State, s: Session, p: Pass) returns (steps: seq<Step>)
    requires Mirrors(g, s)
    ensures Mirrors(Reach(g, steps), Run1(s, p))
  {
    var job := JobMirrors(g, s, p);
    var deadline := DeadlineMirrors(Reach(g, job), s, p);
    ReachAppend(g, job, deadline);
    steps := job + deadline;
    var d := AfterDeadline(s, p);
    if Idle(d.w, p.now) {
      EvictMirrors(Reach(g, steps), d, p.now);
      ReachAppend(g, steps, [Evict]);
      steps := steps + [Evict];
    }
  }

  /**
   Every run of the writer, on any file and through any failures, is a run of the gate's model: the same
   lines, the same unfinished tail, the same buffer and flag, and the same prompts acknowledged and lost.
   */
  lemma {:induction false} RunIsAGateRun(file: Bytes, now: nat, ps: seq<Pass>) returns (steps: seq<Step>)
    ensures Mirrors(Reach(Start(Split(file).0, TailOf(file)), steps), Run(Opened(file, now), ps))
  {
    var g := Start(Split(file).0, TailOf(file));
    if ps == [] {
      steps := [];
      assert Tickets([]) == {};
    } else {
      var n := |ps| - 1;
      var before := RunIsAGateRun(file, now, ps[..n]);
      var last := PassMirrors(Reach(g, before), Run(Opened(file, now), ps[..n]), ps[n]);
      ReachAppend(g, before, last);
      steps := before + last;
    }
  }
}
