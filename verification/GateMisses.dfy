/**
 What the replay gate can miss (src-tauri/src/acp_transcript.rs): its answer when left alone, and exactly
 when some interleaving makes it say "no history" about an acknowledged prompt.
 */
module GateMisses {
  import opened Options
  import opened Conversation
  import opened Compaction
  import opened TranscriptReader
  import opened TranscriptFile
  import opened SessionWriter
  import opened ReplayGate

  // ---- prompts glued to an unfinished line

  /** Some landing of the run glued the prompt. */
  ghost predicate EverGlued(s: State, steps: seq<Step>, ticket: nat) {
    exists i :: 0 <= i < |steps| && GluedBy(s, steps, i, ticket)
  }

  /** A prompt is glued exactly by a landing on an unfinished line of a batch it comes first in. */
  lemma {:induction false} GluedIff(lines: seq<Line>, tail: seq<Line>, steps: seq<Step>, ticket: nat)
    ensures ticket in Reach(Start(lines, tail), steps).glued <==> EverGlued(Start(lines, tail), steps, ticket)
  {
    var s0 := Start(lines, tail);
    if steps != [] {
      var n := |steps| - 1;
      GluedIff(lines, tail, steps[..n], ticket);
      GluesStep(Reach(s0, steps[..n]), steps[n], ticket);
      GluedByOne(s0, steps, ticket);
    }
  }

  lemma GluedByOne(s: State, steps: seq<Step>, ticket: nat)
    requires steps != []
    ensures var init, last := steps[..|steps| - 1], steps[|steps| - 1];
            EverGlued(s, steps, ticket) <==>
              EverGlued(s, init, ticket) || (last.Land? && Glues(Reach(s, init), ticket))
  {
    var n := |steps| - 1;
    forall i | 0 <= i < n ensures GluedBy(s, steps[..n], i, ticket) <==> GluedBy(s, steps, i, ticket) {
      assert steps[..n][..i] == steps[..i];
    }
    assert GluedBy(s, steps, n, ticket) <==> steps[n].Land? && Glues(Reach(s, steps[..n]), ticket);
  }

  predicate GluedBy(s: State, steps: seq<Step>, i: nat, ticket: nat)
    requires i < |steps|
  {
    steps[i].Land? && Glues(Reach(s, steps[..i]), ticket)
  }

  predicate Glues(s: State, ticket: nat) {
    s.tail != [] && s.buffer != [] && IsPrompt(s.buffer[0]) && s.buffer[0].ticket == ticket
  }

  lemma GluesStep(s: State, step: Step, ticket: nat)
    ensures ticket in Act(s, step).glued <==> ticket in s.glued || (step.Land? && Glues(s, ticket))
  {
    if step.Land? && s.tail != [] && s.buffer != [] {
      assert GluedTo(s) == [s.buffer[0]];
      assert Tickets(GluedTo(s)) == if IsPrompt(s.buffer[0]) then {s.buffer[0].ticket} else {};
    } else if step.Land? {
      assert Tickets([]) == {};
    }
  }

  lemma CleanStep(s: State, step: Step)
    requires s.tail == [] && (step.Abandon? ==> step.tail == [])
    ensures Act(s, step).tail == [] && Act(s, step).glued == s.glued
  {
    assert Tickets([]) == {};
  }

  /** On a file that ends in a line break, with every abandoned batch closed by one, no prompt is ever glued. */
  lemma {:induction false} CleanFilesGlueNothing(lines: seq<Line>, steps: seq<Step>)
    requires forall step | step in steps && step.Abandon? :: step.tail == []
    ensures Reach(Start(lines, []), steps).tail == [] && Reach(Start(lines, []), steps).glued == {}
  {
    if steps != [] {
      var n := |steps| - 1;
      assert steps[n] in steps && forall step | step in steps[..n] :: step in steps;
      CleanFilesGlueNothing(lines, steps[..n]);
      CleanStep(Reach(Start(lines, []), steps[..n]), steps[n]);
    }
  }

  // ---- the gate left alone

  function ReadLines(n: nat): seq<Step> {
    if n == 0 then [] else ReadLines(n - 1) + [ReadLine]
  }

  /** Where the scan stands after `k` lines, if nothing else happens. */
  function ScanAt(lines: seq<Line>, k: nat): Gate
    requires k <= |lines|
  {
    if EntriesBut(lines[..k], HeaderAt(lines)) == [] then Scanning(k, HeaderAt(lines) < k) else Answered(true)
  }

  lemma ScanOneLine(s: State, k: nat)
    requires k < |s.lines| && s.gate == ScanAt(s.lines, k)
    ensures Act(s, ReadLine) == s.(gate := ScanAt(s.lines, k + 1))
  {
    EntriesButSnoc(s.lines, k, HeaderAt(s.lines));
  }

  /** Reading line after line takes the gate through a sequence that each single reading follows. */
  lemma {:induction false} ReadsInTurn(s: State, gates: nat -> Gate, n: nat)
    requires s.gate == gates(0)
    requires forall k: nat | k < n :: Act(s.(gate := gates(k)), ReadLine) == s.(gate := gates(k + 1))
    ensures Reach(s, ReadLines(n)) == s.(gate := gates(n))
  {
    if n > 0 {
      ReadsInTurn(s, gates, n - 1);
      ReadLinesOneMore(s, n - 1);
    }
  }

  lemma ScanAlone(s: State, n: nat)
    requires s.gate == Scanning(0, false) && n <= |s.lines|
    ensures Reach(s, ReadLines(n)) == s.(gate := ScanAt(s.lines, n))
  {
    var gates := (k: nat) => if k <= |s.lines| then ScanAt(s.lines, k) else Waiting;
    assert s.lines[..0] == [];
    forall k: nat | k < n ensures Act(s.(gate := gates(k)), ReadLine) == s.(gate := gates(k + 1)) {
      ScanOneLine(s.(gate := ScanAt(s.lines, k)), k);
    }
    ReadsInTurn(s, gates, n);
  }

  lemma ReadLinesOneMore(s: State, n: nat)
    ensures Reach(s, ReadLines(n + 1)) == Act(Reach(s, ReadLines(n)), ReadLine)
  {
    assert (ReadLines(n) + [ReadLine])[..|ReadLines(n)|] == ReadLines(n);
  }

  lemma ScanToTheEnd(s: State, steps: nat)
    requires s.gate == Scanning(0, false) && steps == |s.lines| + 1
    ensures Reach(s, ReadLines(steps)) == s.(gate := Answered(Parsed(s.lines).entries != []))
  {
    ScanAlone(s, steps - 1);
    ReadLinesOneMore(s, steps - 1);
    ScanEnds(s.(gate := ScanAt(s.lines, steps - 1)));
  }

  lemma ScanEnds(s: State)
    requires s.gate == ScanAt(s.lines, |s.lines|)
    ensures Act(s, ReadLine) == s.(gate := Answered(Parsed(s.lines).entries != []))
  {
    assert s.lines[..|s.lines|] == s.lines;
  }

  /** Left alone, the gate answers yes exactly if a prompt is on its way or the file has an entry. */
  lemma UndisturbedAnswer(s: State)
    ensures Reach(Act(s, ReadCounter), ReadLines(|s.lines| + 1)).gate ==
            Answered(s.count > 0 || Parsed(s.lines).entries != [])
  {
    if s.count > 0 {
      OnlyReadLines(|s.lines| + 1);
      AnswerStands(Act(s, ReadCounter), ReadLines(|s.lines| + 1));
    } else {
      ScanToTheEnd(Act(s, ReadCounter), |s.lines| + 1);
    }
  }

  lemma {:induction false} OnlyReadLines(n: nat)
    ensures NoCounterRead(ReadLines(n))
  {
    if n > 0 { OnlyReadLines(n - 1); }
  }

  // ---- exactly when an acknowledged prompt is missed

  /** The gate has said "no history", and a prompt it should have known was acknowledged and not discarded. */
  predicate Misses(s: State, ticket: nat) {
    s.gate == Answered(false) && ticket in s.known && ticket in s.glued && ticket !in s.discarded
  }

  /** Every abandoned batch is closed by a line break. */
  ghost predicate Closes(steps: seq<Step>) {
    forall step | step in steps && step.Abandon? :: step.tail == []
  }

  /** How far a gate has got that has found nothing in the lines there from the start. */
  ghost predicate Passed(lines: seq<Line>, s: State) {
    && |lines| <= s.stable <= |s.lines| && s.lines[..|lines|] == lines
    && (s.gate.Scanning? ==>
          if s.gate.at <= |lines| then s.gate == ScanAt(lines, s.gate.at) else Parsed(lines).entries == [])
    && (s.gate == Answered(false) ==> Parsed(lines).entries == [])
  }

  lemma ScanAtEnd(lines: seq<Line>)
    ensures ScanAt(lines, |lines|).Scanning? <==> Parsed(lines).entries == []
  {
    assert lines[..|lines|] == lines;
  }

  lemma ReadOldLine(lines: seq<Line>, s: State)
    requires Passed(lines, s) && s.gate.Scanning? && s.gate.at < |lines|
    ensures Act(s, ReadLine) == s.(gate := ScanAt(lines, s.gate.at + 1))
  {
    assert s.lines[s.gate.at] == s.lines[..|lines|][s.gate.at];
    ScanOneLine(s.(lines := lines), s.gate.at);
  }

  lemma ReadNewLine(lines: seq<Line>, s: State)
    requires Passed(lines, s) && s.gate.Scanning? && s.gate.at >= |lines|
    ensures Parsed(lines).entries == []
    ensures var t := Act(s, ReadLine);
            t == s.(gate := t.gate) && (t.gate.Scanning? ==> t.gate.at > |lines|)
  {
    ScanAtEnd(lines);
  }

  lemma ReadLinePasses(lines: seq<Line>, s: State)
    requires Passed(lines, s) && s.gate.Scanning?
    ensures Passed(lines, Act(s, ReadLine))
  {
    if s.gate.at < |lines| { ReadOldLine(lines, s); } else { ReadNewLine(lines, s); }
  }

  lemma StepPasses(lines: seq<Line>, s: State, step: Step)
    requires Passed(lines, s)
    ensures Passed(lines, Act(s, step))
  {
    if step.ReadLine? && s.gate.Scanning? {
      ReadLinePasses(lines, s);
    } else if step.ReadCounter? {
      assert lines[..0] == [];
    } else {
      FinishedStay(s, step);
      assert Act(s, step).lines[..|lines|] == s.lines[..s.stable][..|lines|];
    }
  }

  lemma FinishedStay(s: State, step: Step)
    requires s.stable <= |s.lines| && !step.ReadCounter?
    ensures var t := Act(s, step);
            s.stable <= t.stable <= |t.lines| && t.lines[..s.stable] == s.lines[..s.stable]
    ensures !step.ReadLine? ==> Act(s, step).gate == s.gate
  {
  }

  lemma {:induction false} RunPasses(lines: seq<Line>, tail: seq<Line>, steps: seq<Step>)
    ensures Passed(lines, Reach(Start(lines, tail), steps))
  {
    if steps == [] {
      assert (lines + tail)[..|lines|] == lines;
    } else {
      RunPasses(lines, tail, steps[..|steps| - 1]);
      StepPasses(lines, Reach(Start(lines, tail), steps[..|steps| - 1]), steps[|steps| - 1]);
    }
  }

  /** A line that is neither header nor entry changes nothing a file says. */
  lemma JunkSaysNothing(lines: seq<Line>)
    ensures Parsed(lines + [Line(None, None)]).entries == Parsed(lines).entries
  {
    var more := lines + [Line(None, None)];
    assert more[..|lines|] == lines;
    HeaderAtJunk(lines);
    if HeaderAt(lines) == |lines| {
      NothingSkipped(lines, |lines|, |lines| + 1);
    }
  }

  lemma {:induction false} HeaderAtJunk(lines: seq<Line>)
    ensures HeaderAt(lines + [Line(None, None)]) == if HeaderAt(lines) == |lines| then |lines| + 1 else HeaderAt(lines)
  {
    var more := lines + [Line(None, None)];
    if lines == [] {
      assert more[1..] == [];
    } else {
      assert more[0] == lines[0] && more[1..] == lines[1..] + [Line(None, None)];
      HeaderAtJunk(lines[1..]);
    }
  }

  lemma {:induction false} NothingSkipped(lines: seq<Line>, a: nat, b: nat)
    requires a >= |lines| && b >= |lines|
    ensures EntriesBut(lines, a) == EntriesBut(lines, b)
  {
    if lines != [] { NothingSkipped(lines[..|lines| - 1], a, b); }
  }

  function PromptFor(ticket: nat): Queued {
    Queued(Item(Prompt(0, [], "")), ticket)
  }

  /** Enqueued, received, landed and acknowledged; then the gate asks and reads to the end. */
  function MissingRun(lines: seq<Line>, q: Queued): seq<Step> {
    [Take(q), Offer(0, true), Receive(false)] + [Land, DropGuard] + [ReadCounter] + ReadLines(|lines| + 2)
  }

  lemma MissingRunMisses(lines: seq<Line>, tail: seq<Line>, q: Queued)
    requires IsPrompt(q) && tail != [] && Parsed(lines).entries == []
    ensures Misses(Reach(Start(lines, tail), MissingRun(lines, q)), q.ticket)
  {
    var s0 := Start(lines, tail);
    var comes, leaves := [Take(q), Offer(0, true), Receive(false)], [Land, DropGuard];
    BufferedPrompt(s0, q);
    var buffered := s0.(buffer := [q], prompts := {q.ticket}, count := 1);
    ReachAppend(s0, comes, leaves);
    LandsGlued(lines, tail, buffered, q);
    ReachThrough(s0, comes + leaves, ReadCounter, ReadLines(|lines| + 2));
    JunkSaysNothing(lines);
    LooksInVain(Reach(buffered, leaves), |lines| + 2);
  }

  lemma LooksInVain(s: State, steps: nat)
    requires s.count == 0 && steps == |s.lines| + 1 && Parsed(s.lines).entries == []
    ensures Reach(Act(s, ReadCounter), ReadLines(steps)) == s.(known := s.prompts, gate := Answered(false))
  {
    ScanToTheEnd(Act(s, ReadCounter), steps);
  }

  lemma {:induction false} ReadLinesClose(n: nat)
    ensures forall step | step in ReadLines(n) :: step == ReadLine
  {
    if n > 0 { ReadLinesClose(n - 1); }
  }

  /**
   The first condition, exact. With every abandoned batch closed by a line break, some interleaving makes
   the gate say "no history" about an acknowledged prompt if and only if the file did not end in a line
   break and its finished lines hold no entry.
   */
  lemma MissedIff(lines: seq<Line>, tail: seq<Line>, ticket: nat)
    ensures (exists steps :: Closes(steps) && Misses(Reach(Start(lines, tail), steps), ticket)) <==>
            tail != [] && Parsed(lines).entries == []
  {
    if tail != [] && Parsed(lines).entries == [] {
      MissingRunMisses(lines, tail, PromptFor(ticket));
      ReadLinesClose(|lines| + 2);
      assert Closes(MissingRun(lines, PromptFor(ticket)));
    }
    forall steps | Closes(steps) && Misses(Reach(Start(lines, tail), steps), ticket)
      ensures tail != [] && Parsed(lines).entries == []
    {
      RunPasses(lines, tail, steps);
      if tail == [] { CleanFilesGlueNothing(lines, steps); }
    }
  }

  /** A turn end whose batch is abandoned unclosed, and the eviction that forgets the poison. */
  function TearingRun(): seq<Step> {
    [Take(Queued(Item(TurnEnd(0, None, None, None)), 0)), Offer(0, true), Receive(false)] +
    [Abandon([], [Line(None, None)]), DropGuard] + [Evict]
  }

  lemma TearingRunTears(lines: seq<Line>, tail: seq<Line>)
    ensures Reach(Start(lines, tail), TearingRun()) == Start(lines, [Line(None, None)])
  {
    var s0, q, torn := Start(lines, tail), Queued(Item(TurnEnd(0, None, None, None)), 0), [Line(None, None)];
    var comes, leaves := [Take(q), Offer(0, true), Receive(false)], [Abandon([], torn), DropGuard];
    NoPromptInIt(q);
    BufferedOther(s0, q);
    var buffered := s0.(buffer := [q]);
    ReachAppend(s0, comes, leaves);
    AbandonedOther(lines, tail, buffered, q);
    ReachAppend(s0, comes + leaves, [Evict]);
    ReachTwo(Start(lines, torn), Evict, Evict);
  }

  lemma NoPromptInIt(q: Queued)
    requires !IsPrompt(q)
    ensures Prompts([q]) == 0 && Tickets([q]) == {}
  {
    assert [q][..0] == [];
  }

  lemma BufferedOther(s: State, q: Queued)
    requires !IsPrompt(q) && s.hands == [] && s.queue == [] && s.buffer == [] && s.prompts == {}
    ensures Reach(s, [Take(q), Offer(0, true), Receive(false)]) == s.(buffer := [q])
  {
    var steps := [Take(q), Offer(0, true), Receive(false)];
    assert steps[..2] == [Take(q), Offer(0, true)];
    ReachTwo(s, Take(q), Offer(0, true));
    NoPromptInIt(q);
    var s1 := s.(hands := [q]);
    assert Act(s, Take(q)) == s1;
    assert Act(s1, Offer(0, true)) == s1.(hands := [], queue := [q]);
  }

  lemma AbandonedOther(lines: seq<Line>, tail: seq<Line>, s: State, q: Queued)
    requires !IsPrompt(q) && s == Start(lines, tail).(buffer := [q])
    ensures Reach(s, [Abandon([], [Line(None, None)]), DropGuard]) == Start(lines, [Line(None, None)])
  {
    ReachTwo(s, Abandon([], [Line(None, None)]), DropGuard);
    NoPromptInIt(q);
    assert (lines + tail)[..|lines|] + [] == lines;
    var t := Act(s, Abandon([], [Line(None, None)]));
    assert t == Start(lines, [Line(None, None)]).(leaving := [q]);
  }

  /**
   The second condition, exact. If batches may also be abandoned unclosed, it can happen to every file whose
   finished lines hold no entry, and to no other.
   */
  lemma MissedUnclosedIff(lines: seq<Line>, tail: seq<Line>, ticket: nat)
    ensures (exists steps :: Misses(Reach(Start(lines, tail), steps), ticket)) <==> Parsed(lines).entries == []
  {
    if Parsed(lines).entries == [] {
      TearingRunTears(lines, tail);
      var missing := MissingRun(lines, PromptFor(ticket));
      MissingRunMisses(lines, [Line(None, None)], PromptFor(ticket));
      ReachAppend(Start(lines, tail), TearingRun(), missing);
      assert Misses(Reach(Start(lines, tail), TearingRun() + missing), ticket);
    }
    forall steps | Misses(Reach(Start(lines, tail), steps), ticket) ensures Parsed(lines).entries == [] {
      RunPasses(lines, tail, steps);
    }
  }

  /**
   A torn line left by an earlier process is enough, without poison or eviction: the first prompt is
   acknowledged, its guard is dropped, and the gate finds nothing.
   */
  lemma TornTailHidesAPrompt(q: Queued)
    requires IsPrompt(q)
    ensures var s := Reach(Start([], [Line(None, None)]), MissingRun([], q));
            s.gate == Answered(false) && q.ticket in s.known && q.ticket in s.glued && q.ticket !in s.discarded
  {
    MissingRunMisses([], [Line(None, None)], q);
  }

  // ---- the landing that glues

  lemma LandsGlued(lines: seq<Line>, tail: seq<Line>, s: State, q: Queued)
    requires IsPrompt(q) && tail != [] && s == Start(lines, tail).(buffer := [q], prompts := {q.ticket}, count := 1)
    ensures Reach(s, [Land, DropGuard]) ==
            s.(buffer := [], count := 0, lines := lines + [Line(None, None)], stable := |lines| + 1, tail := [],
               compactable := true, glued := {q.ticket})
  {
    ReachTwo(s, Land, DropGuard);
    GluedLanding(lines, tail, s, q);
    LastGuard(Act(s, Land), q);
  }

  lemma LastGuard(s: State, q: Queued)
    requires IsPrompt(q) && s.leaving == [q] && s.count == 1
    ensures Act(s, DropGuard) == s.(leaving := [], count := 0)
  {
    OnePrompt(q);
  }

  lemma GluedLanding(lines: seq<Line>, tail: seq<Line>, s: State, q: Queued)
    requires IsPrompt(q) && tail != [] && s == Start(lines, tail).(buffer := [q], prompts := {q.ticket}, count := 1)
    ensures Act(s, Land) ==
            s.(buffer := [], leaving := [q], lines := lines + [Line(None, None)], stable := |lines| + 1, tail := [],
               compactable := true, glued := {q.ticket})
  {
    OnePrompt(q);
    assert Records([q]) == [q.record];
    OnePromptWritten(q.record);
    assert GluedTo(s) == [q] && s.buffer[1..] == [] && Tickets([]) == {};
    assert LandedLines(s.tail, [q.record]) == [Line(None, None)];
    assert (lines + tail)[..|lines|] == lines;
  }

  lemma OnePromptWritten(r: Record)
    requires r.Item? && r.entry.Prompt?
    ensures Compacted([r], false) == [r] && NextFlag([r], false)
  {
    var start := Batch([], None, false);
    assert [r][..0] == [] && PutAll(start, []) == start;
  }
}
