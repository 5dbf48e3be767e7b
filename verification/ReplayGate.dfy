/**
 The replay gate (src-tauri/src/acp_transcript.rs): `PENDING_PROMPTS` with its guards, and every
 interleaving of recorders, the writer thread, guard drops and the gate's two reads.
 */
module ReplayGate {
  import opened Options
  import opened Conversation
  import opened Compaction
  import opened TranscriptReader
  import opened TranscriptFile
  import opened SessionWriter

  type Path = string

  /** The process-wide counter; `live` is the guards that exist. */
  class PendingPrompts {
    var counts: map<Path, nat>
    ghost var live: multiset<Path>

    /** A path is in the map exactly while guards for it exist, and counts them. */
    ghost predicate Valid()
      reads this
    {
      forall p: Path :: (p in counts <==> p in live) && (p in counts ==> counts[p] == live[p])
    }

    constructor ()
      ensures Valid() && live == multiset{}
    {
      counts, live := map[], multiset{};
    }

    /** `PendingPromptGuard::new`. */
    method Hold(path: Path)
      requires Valid()
      modifies this
      ensures Valid() && live == old(live) + multiset{path}
    {
      var n := if path in counts then counts[path] else 0;
      counts := counts[path := n + 1];
      live := live + multiset{path};
    }

    /** `PendingPromptGuard::drop`. */
    method Release(path: Path)
      requires Valid() && path in live
      modifies this
      ensures Valid() && live == old(live) - multiset{path}
    {
      if path in counts {
        var n := counts[path] - 1;
        counts := if n == 0 then map p | p in counts && p != path :: counts[p] else counts[path := n];
      }
      live := live - multiset{path};
    }

    /** `has_pending_prompt`. */
    method HasPending(path: Path) returns (pending: bool)
      requires Valid()
      ensures pending <==> live[path] > 0
    {
      pending := path in counts;
    }
  }

  // ---- one path, every interleaving

  const QUEUE_CAP: nat := 8192

  /** The gate between its two reads: line `at` is the next one it will look at. */
  datatype Gate = Waiting | Scanning(at: nat, headerSeen: bool) | Answered(history: bool)

  /**
   Where the records of one transcript are. `hands`: guard taken, not yet offered to the queue;
   `leaving`: out of the writer, guard not yet dropped. `lines` is what a reader sees now: the first
   `stable` are finished, and between writes only `tail` follows, a last line without its line break.
   `prompts`, `landed`, `glued` and `discarded` are tickets of prompts, `glued` those acknowledged
   although their line was joined to such a tail; `known` are the prompts whose guard existed when the
   gate last looked at the counter.
   */
  datatype State = State(
    count: nat, hands: seq<Queued>, queue: seq<Queued>, buffer: seq<Queued>, leaving: seq<Queued>,
    lines: seq<Line>, stable: nat, tail: seq<Line>, compactable: bool,
    prompts: set<nat>, landed: set<nat>, glued: set<nat>, discarded: set<nat>, known: set<nat>, gate: Gate)

  datatype Step =
    | Take(q: Queued)
    | Offer(i: nat, accepted: bool)
    | Receive(refused: bool)
    | Progress(partial: seq<Line>)
    | RollBack
    | Land
    | Abandon(partial: seq<Line>, tail: seq<Line>)
    | DropGuard
    | Evict
    | ReadCounter
    | ReadLine

  predicate IsPrompt(q: Queued) {
    q.record.Item? && q.record.entry.Prompt?
  }

  function Prompts(qs: seq<Queued>): nat {
    if qs == [] then 0 else Prompts(qs[..|qs| - 1]) + if IsPrompt(qs[|qs| - 1]) then 1 else 0
  }

  function Tickets(qs: seq<Queued>): set<nat> {
    set q | q in qs && IsPrompt(q) :: q.ticket
  }

  /** What one atomic step does; a step that is not enabled does nothing. */
  function Act(s: State, step: Step): State {
    match step
    case Take(q) =>
      s.(hands := s.hands + [q], prompts := s.prompts + Tickets([q]), count := s.count + Prompts([q]))
    case Offer(i, accepted) =>
      if i >= |s.hands| then s
      else
        var q, rest := s.hands[i], s.hands[..i] + s.hands[i + 1..];
        if accepted && |s.queue| < QUEUE_CAP then s.(hands := rest, queue := s.queue + [q])
        else s.(hands := rest, leaving := s.leaving + [q], discarded := s.discarded + Tickets([q]))
    case Receive(refused) =>
      if s.queue == [] then s
      else
        var q, rest := s.queue[0], s.queue[1..];
        if refused then s.(queue := rest, leaving := s.leaving + [q], discarded := s.discarded + Tickets([q]))
        else s.(queue := rest, buffer := s.buffer + [q])
    case Progress(partial) => Grown(s, partial)
    case RollBack => Grown(s, s.tail)
    case Land =>
      var rs := Records(s.buffer);
      var g := Grown(s, LandedLines(s.tail, Compacted(rs, s.compactable)));
      g.(stable := |g.lines|, tail := [], compactable := NextFlag(rs, s.compactable),
         buffer := [], leaving := s.leaving + s.buffer,
         landed := s.landed + Tickets(s.buffer[|GluedTo(s)|..]), glued := s.glued + Tickets(GluedTo(s)))
    case Abandon(partial, tail) =>
      var g := Grown(s, partial);
      g.(stable := |g.lines|, lines := g.lines + tail, tail := tail,
         buffer := [], leaving := s.leaving + s.buffer, discarded := s.discarded + Tickets(s.buffer))
    case DropGuard =>
      if s.leaving == [] then s
      else s.(leaving := s.leaving[1..],
              count := if s.count >= Prompts([s.leaving[0]]) then s.count - Prompts([s.leaving[0]]) else 0)
    case Evict => if s.buffer == [] then s.(compactable := false) else s
    case ReadCounter =>
      s.(known := s.prompts, gate := if s.count > 0 then Answered(true) else Scanning(0, false))
    case ReadLine =>
      if !s.gate.Scanning? then s
      else if s.gate.at >= |s.lines| then s.(gate := Answered(false))
      else
        var line := s.lines[s.gate.at];
        if !s.gate.headerSeen && line.header.Some? then s.(gate := Scanning(s.gate.at + 1, true))
        else if line.entry.Some? then s.(gate := Answered(true))
        else s.(gate := Scanning(s.gate.at + 1, s.gate.headerSeen))
  }

  /** The lines a batch is read as: its first record's is lost if the file did not end in a line break. */
  function LandedLines(tail: seq<Line>, written: seq<Record>): seq<Line> {
    if tail == [] || written == [] then RecordLines(written) else [Line(None, None)] + RecordLines(written[1..])
  }

  /** The record whose line a landing loses. */
  function GluedTo(s: State): seq<Queued> {
    if s.tail == [] || s.buffer == [] then [] else s.buffer[..1]
  }

  /** The finished lines followed by whatever the write in progress shows. */
  function Grown(s: State, partial: seq<Line>): State {
    if s.stable <= |s.lines| then s.(lines := s.lines[..s.stable] + partial) else s
  }

  function Reach(s: State, steps: seq<Step>): State {
    if steps == [] then s else Act(Reach(s, steps[..|steps| - 1]), steps[|steps| - 1])
  }

  function Start(lines: seq<Line>, tail: seq<Line>): State {
    State(0, [], [], [], [], lines + tail, |lines|, tail, false, {}, {}, {}, {}, {}, Waiting)
  }

  /** A line from `from` on, among the finished ones, that makes the scan answer yes. */
  ghost predicate HistoryFrom(s: State, from: nat) {
    exists j :: from <= j < s.stable <= |s.lines| && CountsAsHistory(s.lines[j])
  }

  /** The counter is the prompts whose guard still exists. */
  predicate Counted(s: State) {
    s.count == Prompts(s.hands) + Prompts(s.queue) + Prompts(s.buffer) + Prompts(s.leaving)
  }

  /** Every prompt is on its way, landed or lost. */
  predicate Placed(s: State) {
    && s.prompts <= Tickets(s.hands) + Tickets(s.queue) + Tickets(s.buffer) + s.landed + Lost(s)
    && s.known <= s.prompts
  }

  /** A landed prompt is a finished line, and a known one lies ahead of the scan unless it is lost. */
  ghost predicate Traced(s: State) {
    && s.stable <= |s.lines|
    && (s.landed != {} ==> HistoryFrom(s, 0))
    && (s.gate.Scanning? && !(s.known <= Lost(s)) ==> HistoryFrom(s, s.gate.at))
    && (s.gate == Answered(false) ==> s.known <= Lost(s))
  }

  ghost predicate GateInv(s: State) {
    Counted(s) && Placed(s) && Traced(s)
  }

  /** Prompts that never became a line of their own. */
  function Lost(s: State): set<nat> {
    s.glued + s.discarded
  }

  lemma {:induction false} PromptsAppend(a: seq<Queued>, b: seq<Queued>)
    ensures Prompts(a + b) == Prompts(a) + Prompts(b)
    decreases |b|
  {
    if b == [] {
      assert a + b == a;
    } else {
      assert (a + b)[..|a + b| - 1] == a + b[..|b| - 1];
      PromptsAppend(a, b[..|b| - 1]);
    }
  }

  lemma PromptsCons(q: Queued, qs: seq<Queued>)
    ensures Prompts([q] + qs) == Prompts([q]) + Prompts(qs)
    ensures Tickets([q] + qs) == Tickets([q]) + Tickets(qs)
  {
    PromptsAppend([q], qs);
    TicketsAppend([q], qs);
  }

  lemma PromptsWithout(a: seq<Queued>, q: Queued, b: seq<Queued>)
    ensures Prompts(a + ([q] + b)) == Prompts(a + b) + Prompts([q])
    ensures Tickets(a + ([q] + b)) == Tickets(a + b) + Tickets([q])
  {
    PromptsAppend(a, [q] + b);
    PromptsAppend(a, b);
    PromptsCons(q, b);
    TicketsAppend(a, [q] + b);
    TicketsAppend(a, b);
  }

  lemma TicketsAppend(a: seq<Queued>, b: seq<Queued>)
    ensures Tickets(a + b) == Tickets(a) + Tickets(b)
  {
  }

  /** A counter of zero means no prompt is on its way. */
  lemma {:induction false} NoPromptsNoTickets(qs: seq<Queued>)
    ensures Prompts(qs) == 0 <==> Tickets(qs) == {}
  {
    if qs == [] {
    } else {
      var n := |qs| - 1;
      NoPromptsNoTickets(qs[..n]);
      TicketsAppend(qs[..n], [qs[n]]);
      assert qs == qs[..n] + [qs[n]];
      assert IsPrompt(qs[n]) ==> qs[n].ticket in Tickets([qs[n]]);
    }
  }

  /** Merging leaves prompts alone: a batch holding one writes a line the scan will count. */
  lemma {:induction false} UntouchableMembers(rs: seq<Record>, r: Record)
    ensures r in Untouchable(rs) <==> r in rs && !(r.Item? && Mergeable(r.entry))
  {
    if rs != [] {
      UntouchableMembers(rs[..|rs| - 1], r);
      assert rs == rs[..|rs| - 1] + [rs[|rs| - 1]];
    }
  }

  lemma LandedPromptIsALine(buffer: seq<Queued>, compactable: bool)
    requires Tickets(buffer) != {}
    ensures exists i :: 0 <= i < |RecordLines(Compacted(Records(buffer), compactable))| &&
                        CountsAsHistory(RecordLines(Compacted(Records(buffer), compactable))[i])
  {
    var rs := Records(buffer);
    var q :| q in buffer && IsPrompt(q);
    var k :| 0 <= k < |buffer| && buffer[k] == q;
    assert rs[k] == q.record && q.record in rs;
    EverythingElseIsVerbatim(rs, compactable);
    UntouchableMembers(rs, q.record);
    UntouchableMembers(Compacted(rs, compactable), q.record);
    var i :| 0 <= i < |Compacted(rs, compactable)| && Compacted(rs, compactable)[i] == q.record;
    assert CountsAsHistory(RecordLines(Compacted(rs, compactable))[i]);
  }

  // ---- a batch that lands on an unfinished line

  lemma {:induction false} FirstKind(rs: seq<Record>, compactable: bool)
    requires rs != []
    ensures var written := Compacted(rs, compactable);
            && written != []
            && (rs[0].Item? && rs[0].entry.Prompt? <==> written[0].Item? && written[0].entry.Prompt?)
            && ((PutAll(Batch([], None, compactable), rs).open.Some?) ==>
                Mergeable(PutAll(Batch([], None, compactable), rs).open.value))
  {
    var n := |rs| - 1;
    var b := PutAll(Batch([], None, compactable), rs[..n]);
    if n == 0 {
      assert rs[..0] == [] && b == Batch([], None, compactable);
    } else {
      FirstKind(rs[..n], compactable);
      assert Close(b)[0] == if b.out == [] then Item(b.open.value) else b.out[0];
    }
  }

  /** Prompt records, counted. */
  function PromptRecords(rs: seq<Record>): nat {
    if rs == [] then 0
    else PromptRecords(rs[..|rs| - 1]) + if rs[|rs| - 1].Item? && rs[|rs| - 1].entry.Prompt? then 1 else 0
  }

  lemma {:induction false} PromptRecordsAppend(a: seq<Record>, b: seq<Record>)
    ensures PromptRecords(a + b) == PromptRecords(a) + PromptRecords(b)
    decreases |b|
  {
    if b == [] {
      assert a + b == a;
    } else {
      assert (a + b)[..|a + b| - 1] == a + b[..|b| - 1];
      PromptRecordsAppend(a, b[..|b| - 1]);
    }
  }

  lemma PromptRecordsSnoc(rs: seq<Record>, r: Record)
    ensures PromptRecords(rs + [r]) == PromptRecords(rs) + if r.Item? && r.entry.Prompt? then 1 else 0
  {
    assert (rs + [r])[..|rs|] == rs;
  }

  lemma {:induction false} PromptRecordsUntouched(rs: seq<Record>)
    ensures PromptRecords(Untouchable(rs)) == PromptRecords(rs)
  {
    if rs != [] {
      var n := |rs| - 1;
      PromptRecordsUntouched(rs[..n]);
      if rs[n].Item? && Mergeable(rs[n].entry) {
        assert Untouchable(rs[..n]) + [] == Untouchable(rs[..n]);
      } else {
        PromptRecordsSnoc(Untouchable(rs[..n]), rs[n]);
      }
    }
  }

  lemma {:induction false} PromptRecordsOf(qs: seq<Queued>)
    ensures PromptRecords(Records(qs)) == Prompts(qs)
  {
    if qs != [] {
      PromptRecordsOf(qs[..|qs| - 1]);
      assert Records(qs)[..|qs| - 1] == Records(qs[..|qs| - 1]);
    }
  }

  lemma {:induction false} SomePromptRecord(rs: seq<Record>) returns (i: nat)
    requires PromptRecords(rs) > 0
    ensures i < |rs| && rs[i].Item? && rs[i].entry.Prompt?
  {
    var n := |rs| - 1;
    if rs[n].Item? && rs[n].entry.Prompt? { i := n; } else { i := SomePromptRecord(rs[..n]); }
  }

  lemma PromptRecordsFirst(rs: seq<Record>)
    requires rs != []
    ensures PromptRecords(rs) == PromptRecords(rs[1..]) + if rs[0].Item? && rs[0].entry.Prompt? then 1 else 0
  {
    PromptRecordsAppend([rs[0]], rs[1..]);
    assert rs == [rs[0]] + rs[1..] && [rs[0]][..0] == [];
  }

  /** Whatever the file ended in, a batch writes a line the scan counts for each prompt but one glued first. */
  lemma LandedPromptIsSeen(tail: seq<Line>, buffer: seq<Queued>, compactable: bool) returns (i: nat)
    requires Tickets(if tail == [] || buffer == [] then buffer else buffer[1..]) != {}
    ensures var lines := LandedLines(tail, Compacted(Records(buffer), compactable));
            i < |lines| && CountsAsHistory(lines[i])
  {
    var rs := Records(buffer);
    if tail == [] {
      LandedPromptIsALine(buffer, compactable);
      i :| 0 <= i < |RecordLines(Compacted(rs, compactable))| && CountsAsHistory(RecordLines(Compacted(rs, compactable))[i]);
    } else {
      NoPromptsNoTickets(buffer[1..]);
      PromptRecordsOf(buffer[1..]);
      assert Records(buffer[1..]) == rs[1..];
      FirstKind(rs, compactable);
      var k := LaterPromptStays(rs, compactable);
      i := k + 1;
      assert LandedLines(tail, Compacted(rs, compactable))[i] == RecordLines(Compacted(rs, compactable)[1..])[k];
    }
  }

  /** A prompt after the first record of a batch is written after its first line. */
  lemma LaterPromptStays(rs: seq<Record>, compactable: bool) returns (k: nat)
    requires rs != [] && PromptRecords(rs[1..]) > 0 && Compacted(rs, compactable) != []
    ensures var later := Compacted(rs, compactable)[1..];
            k < |later| && later[k].Item? && later[k].entry.Prompt?
  {
    var written := Compacted(rs, compactable);
    FirstKind(rs, compactable);
    SamePromptRecords(rs, compactable);
    PromptRecordsFirst(rs);
    PromptRecordsFirst(written);
    k := SomePromptRecord(written[1..]);
  }

  lemma SamePromptRecords(rs: seq<Record>, compactable: bool)
    ensures PromptRecords(Compacted(rs, compactable)) == PromptRecords(rs)
  {
    EverythingElseIsVerbatim(rs, compactable);
    PromptRecordsUntouched(rs);
    PromptRecordsUntouched(Compacted(rs, compactable));
  }

  lemma HistoryKept(s: State, t: State, from: nat)
    requires HistoryFrom(s, from) && s.stable <= t.stable <= |t.lines|
    requires forall j | 0 <= j < s.stable :: t.lines[j] == s.lines[j]
    ensures HistoryFrom(t, from)
  {
    var j :| from <= j < s.stable && CountsAsHistory(s.lines[j]);
    assert CountsAsHistory(t.lines[j]);
  }

  /** A landing splits its batch into the glued record, if any, and the rest. */
  lemma GluedAndRest(s: State)
    ensures Tickets(s.buffer) == Tickets(GluedTo(s)) + Tickets(s.buffer[|GluedTo(s)|..])
  {
    assert s.buffer == GluedTo(s) + s.buffer[|GluedTo(s)|..];
    TicketsAppend(GluedTo(s), s.buffer[|GluedTo(s)|..]);
  }

  /** A step that only adds finished lines keeps the history there was. */
  lemma HistoryAllKept(s: State, t: State)
    requires GateInv(s) && s.stable <= t.stable <= |t.lines| && t.gate == s.gate
    requires forall j | 0 <= j < s.stable :: t.lines[j] == s.lines[j]
    ensures HistoryFrom(s, 0) ==> HistoryFrom(t, 0)
    ensures s.gate.Scanning? && HistoryFrom(s, s.gate.at) ==> HistoryFrom(t, t.gate.at)
  {
    if HistoryFrom(s, 0) { HistoryKept(s, t, 0); }
    if s.gate.Scanning? && HistoryFrom(s, s.gate.at) { HistoryKept(s, t, s.gate.at); }
  }

  lemma LandKeepsCount(s: State)
    requires Counted(s)
    ensures Counted(Act(s, Land))
  {
    var t := Act(s, Land);
    assert t.hands == s.hands && t.queue == s.queue && t.buffer == [] && t.leaving == s.leaving + s.buffer;
    PromptsAppend(s.leaving, s.buffer);
  }

  lemma LandKeepsPlaces(s: State)
    requires Placed(s)
    ensures Placed(Act(s, Land))
  {
    GluedAndRest(s);
  }

  lemma LandKeepsTrace(s: State)
    requires GateInv(s)
    ensures Traced(Act(s, Land))
  {
    var t := Act(s, Land);
    HistoryAllKept(s, t);
    if Tickets(s.buffer[|GluedTo(s)|..]) != {} {
      var i := LandedPromptIsSeen(s.tail, s.buffer, s.compactable);
      assert t.lines[s.stable + i] == LandedLines(s.tail, Compacted(Records(s.buffer), s.compactable))[i];
      assert HistoryFrom(t, 0);
    }
  }

  lemma LandKeepsInv(s: State)
    requires GateInv(s)
    ensures GateInv(Act(s, Land))
  {
    LandKeepsCount(s);
    LandKeepsPlaces(s);
    LandKeepsTrace(s);
  }

  lemma GrowKeepsInv(s: State, step: Step)
    requires GateInv(s) && (step.Progress? || step.RollBack? || step.Abandon?)
    ensures GateInv(Act(s, step))
  {
    PromptsAppend(s.leaving, s.buffer);
    HistoryAllKept(s, Act(s, step));
  }

  /** Moving records about leaves the file and the gate alone. */
  lemma MovedKeepsInv(s: State, t: State)
    requires GateInv(s)
    requires t.lines == s.lines && t.stable == s.stable && t.gate == s.gate && t.landed == s.landed && t.glued == s.glued
    requires t.known == s.known && s.discarded <= t.discarded && s.prompts <= t.prompts
    requires Counted(t) && Placed(t)
    ensures GateInv(t)
  {
    assert HistoryFrom(s, 0) ==> HistoryFrom(t, 0);
    assert s.gate.Scanning? && HistoryFrom(s, s.gate.at) ==> HistoryFrom(t, s.gate.at);
  }

  lemma TakeKeepsInv(s: State, q: Queued)
    requires GateInv(s)
    ensures GateInv(Act(s, Take(q)))
  {
    PromptsAppend(s.hands, [q]);
    TicketsAppend(s.hands, [q]);
    MovedKeepsInv(s, Act(s, Take(q)));
  }

  lemma SplitAround(qs: seq<Queued>, i: nat)
    requires i < |qs|
    ensures qs == qs[..i] + ([qs[i]] + qs[i + 1..])
  {
  }

  lemma HandsWithout(hands: seq<Queued>, i: nat)
    requires i < |hands|
    ensures Prompts(hands) == Prompts(hands[..i] + hands[i + 1..]) + Prompts([hands[i]])
    ensures Tickets(hands) == Tickets(hands[..i] + hands[i + 1..]) + Tickets([hands[i]])
  {
    SplitAround(hands, i);
    PromptsWithout(hands[..i], hands[i], hands[i + 1..]);
  }

  lemma QueuedKeepsCount(s: State, i: nat)
    requires Counted(s) && i < |s.hands|
    ensures Counted(s.(hands := s.hands[..i] + s.hands[i + 1..], queue := s.queue + [s.hands[i]]))
  {
    HandsWithout(s.hands, i);
    PromptsAppend(s.queue, [s.hands[i]]);
  }

  lemma TurnedAwayKeepsCount(s: State, i: nat)
    requires Counted(s) && i < |s.hands|
    ensures Counted(s.(hands := s.hands[..i] + s.hands[i + 1..], leaving := s.leaving + [s.hands[i]]))
  {
    HandsWithout(s.hands, i);
    PromptsAppend(s.leaving, [s.hands[i]]);
  }

  lemma OfferKeepsCount(s: State, i: nat, accepted: bool)
    requires Counted(s) && i < |s.hands|
    ensures Counted(Act(s, Offer(i, accepted)))
  {
    QueuedKeepsCount(s, i);
    TurnedAwayKeepsCount(s, i);
  }

  lemma OfferKeepsPlaces(s: State, i: nat, accepted: bool)
    requires Placed(s) && i < |s.hands|
    ensures Placed(Act(s, Offer(i, accepted)))
  {
    HandsWithout(s.hands, i);
    TicketsAppend(s.queue, [s.hands[i]]);
  }

  lemma OfferKeepsInv(s: State, i: nat, accepted: bool)
    requires GateInv(s)
    ensures GateInv(Act(s, Offer(i, accepted)))
  {
    if i < |s.hands| {
      OfferKeepsCount(s, i, accepted);
      OfferKeepsPlaces(s, i, accepted);
      MovedKeepsInv(s, Act(s, Offer(i, accepted)));
    }
  }

  lemma QueueFirst(queue: seq<Queued>)
    requires queue != []
    ensures Prompts(queue) == Prompts([queue[0]]) + Prompts(queue[1..])
    ensures Tickets(queue) == Tickets([queue[0]]) + Tickets(queue[1..])
  {
    PromptsCons(queue[0], queue[1..]);
    assert queue == [queue[0]] + queue[1..];
  }

  lemma ReceiveKeepsCount(s: State, refused: bool)
    requires Counted(s) && s.queue != []
    ensures Counted(Act(s, Receive(refused)))
  {
    QueueFirst(s.queue);
    PromptsAppend(s.buffer, [s.queue[0]]);
    PromptsAppend(s.leaving, [s.queue[0]]);
  }

  lemma ReceiveKeepsPlaces(s: State, refused: bool)
    requires Placed(s) && s.queue != []
    ensures Placed(Act(s, Receive(refused)))
  {
    QueueFirst(s.queue);
    TicketsAppend(s.buffer, [s.queue[0]]);
  }

  lemma ReceiveKeepsInv(s: State, refused: bool)
    requires GateInv(s)
    ensures GateInv(Act(s, Receive(refused)))
  {
    if s.queue != [] {
      ReceiveKeepsCount(s, refused);
      ReceiveKeepsPlaces(s, refused);
      MovedKeepsInv(s, Act(s, Receive(refused)));
    }
  }

  lemma DropKeepsInv(s: State)
    requires GateInv(s)
    ensures GateInv(Act(s, DropGuard))
  {
    if s.leaving != [] {
      PromptsCons(s.leaving[0], s.leaving[1..]);
      assert s.leaving == [s.leaving[0]] + s.leaving[1..];
      MovedKeepsInv(s, Act(s, DropGuard));
    }
  }

  lemma ReadCounterKeepsInv(s: State)
    requires GateInv(s)
    ensures GateInv(Act(s, ReadCounter))
  {
    var t := Act(s, ReadCounter);
    assert HistoryFrom(s, 0) ==> HistoryFrom(t, 0);
    if s.count == 0 {
      NoPromptsNoTickets(s.hands);
      NoPromptsNoTickets(s.queue);
      NoPromptsNoTickets(s.buffer);
      assert s.prompts <= s.landed + Lost(s);
    }
  }

  lemma GateMovedKeepsInv(s: State, gate: Gate)
    requires GateInv(s)
    requires gate.Scanning? && !(s.known <= Lost(s)) ==> HistoryFrom(s, gate.at)
    requires gate == Answered(false) ==> s.known <= Lost(s)
    ensures GateInv(s.(gate := gate))
  {
    var t := s.(gate := gate);
    assert HistoryFrom(s, 0) ==> HistoryFrom(t, 0);
    if gate.Scanning? { assert HistoryFrom(s, gate.at) ==> HistoryFrom(t, gate.at); }
  }

  /** The scan never passes a line that counts. */
  lemma ReadLineFinds(s: State)
    requires s.gate.Scanning? && HistoryFrom(s, s.gate.at)
    ensures var t := Act(s, ReadLine);
            t.gate == Answered(true) || (t.gate.Scanning? && HistoryFrom(s, t.gate.at))
  {
    var j :| s.gate.at <= j < s.stable && CountsAsHistory(s.lines[j]);
    if j > s.gate.at { assert HistoryFrom(s, s.gate.at + 1); }
  }

  lemma ReadLineKeepsInv(s: State)
    requires GateInv(s)
    ensures GateInv(Act(s, ReadLine))
  {
    var t := Act(s, ReadLine);
    assert t == s.(gate := t.gate);
    if s.gate.Scanning? && HistoryFrom(s, s.gate.at) { ReadLineFinds(s); }
    GateMovedKeepsInv(s, t.gate);
  }

  lemma {:induction false} ReachKeepsInv(lines: seq<Line>, tail: seq<Line>, steps: seq<Step>)
    ensures GateInv(Reach(Start(lines, tail), steps))
  {
    if steps != [] {
      var n := |steps| - 1;
      ReachKeepsInv(lines, tail, steps[..n]);
      var s, step := Reach(Start(lines, tail), steps[..n]), steps[n];
      match step {
        case Land => LandKeepsInv(s);
        case Progress(_) => GrowKeepsInv(s, step);
        case RollBack => GrowKeepsInv(s, step);
        case Abandon(_, _) => GrowKeepsInv(s, step);
        case ReadCounter => ReadCounterKeepsInv(s);
        case ReadLine => ReadLineKeepsInv(s);
        case Take(q) => TakeKeepsInv(s, q);
        case Offer(i, accepted) => OfferKeepsInv(s, i, accepted);
        case Receive(refused) => ReceiveKeepsInv(s, refused);
        case DropGuard => DropKeepsInv(s);
        case Evict => MovedKeepsInv(s, Act(s, step));
      }
    }
  }

  /**
   No interleaving yields a false "no history": when the gate answers no, every prompt whose record
   was already on its way when the gate read the counter has been discarded, or was acknowledged by a
   landing that glued its line to an unfinished one.
   */
  lemma NoFalseNo(lines: seq<Line>, tail: seq<Line>, steps: seq<Step>, ticket: nat)
    ensures var s := Reach(Start(lines, tail), steps);
            s.gate == Answered(false) && ticket in s.known ==> ticket in s.discarded || ticket in s.glued
  {
    ReachKeepsInv(lines, tail, steps);
  }

  /** The queue holds at most 8192 records; an offer beyond that is discarded, and its guard is to be dropped. */
  lemma {:induction false} QueueIsBounded(lines: seq<Line>, tail: seq<Line>, steps: seq<Step>)
    ensures |Reach(Start(lines, tail), steps).queue| <= 8192
  {
    if steps != [] {
      QueueIsBounded(lines, tail, steps[..|steps| - 1]);
      StepBoundsQueue(Reach(Start(lines, tail), steps[..|steps| - 1]), steps[|steps| - 1]);
    }
  }

  lemma StepBoundsQueue(s: State, step: Step)
    requires |s.queue| <= 8192
    ensures |Act(s, step).queue| <= 8192
    ensures step.Offer? && step.i < |s.hands| ==>
              var q := s.hands[step.i];
              if step.accepted && |s.queue| < 8192 then Act(s, step).queue == s.queue + [q]
              else Act(s, step).leaving == s.leaving + [q] && Act(s, step).discarded == s.discarded + Tickets([q])
  {
  }

  predicate NoCounterRead(steps: seq<Step>) {
    forall step | step in steps :: !step.ReadCounter?
  }

  /**
   What "no history" means. If the gate answers no, then when it read the counter no prompt was on its
   way, none had ever landed on a line of its own, and no finished line of the file was history, be it
   from an earlier process or what an abandoned batch left behind.
   */
  lemma NoMeansNoHistory(lines: seq<Line>, tail: seq<Line>, before: seq<Step>, after: seq<Step>)
    requires NoCounterRead(after)
    ensures var s := Reach(Start(lines, tail), before);
            Reach(Start(lines, tail), before + [ReadCounter] + after).gate == Answered(false) ==>
              s.count == 0 && !HistoryFrom(s, 0) && s.landed == {} && s.prompts <= s.discarded + s.glued
  {
    var s := Reach(Start(lines, tail), before);
    ReachKeepsInv(lines, tail, before);
    ReachThrough(Start(lines, tail), before, ReadCounter, after);
    if s.count > 0 || HistoryFrom(s, 0) {
      LookedAnswer(s, after);
    } else {
      NoPromptsNoTickets(s.hands);
      NoPromptsNoTickets(s.queue);
      NoPromptsNoTickets(s.buffer);
    }
  }

  /** From its look at the counter on, a gate that should say yes never says no. */
  lemma LookedAnswer(s: State, after: seq<Step>)
    requires NoCounterRead(after) && s.stable <= |s.lines| && (s.count > 0 || HistoryFrom(s, 0))
    ensures Reach(Act(s, ReadCounter), after).gate != Answered(false)
  {
    var looked := Act(s, ReadCounter);
    if HistoryFrom(s, 0) { assert HistoryFrom(looked, 0); }
    ScanFinds(looked, after);
  }

  lemma ReachThrough(s: State, before: seq<Step>, step: Step, after: seq<Step>)
    ensures Reach(s, before + [step] + after) == Reach(Act(Reach(s, before), step), after)
  {
    ReachAppend(s, before + [step], after);
    assert (before + [step])[..|before|] == before;
  }

  lemma {:induction false} ReachAppend(s: State, a: seq<Step>, b: seq<Step>)
    ensures Reach(s, a + b) == Reach(Reach(s, a), b)
    decreases |b|
  {
    if b == [] {
      assert a + b == a;
    } else {
      assert (a + b)[..|a + b| - 1] == a + b[..|b| - 1];
      ReachAppend(s, a, b[..|b| - 1]);
    }
  }

  lemma AnswerStandsStep(s: State, step: Step)
    requires s.gate.Answered? && !step.ReadCounter?
    ensures Act(s, step).gate == s.gate
  {
  }

  lemma {:induction false} AnswerStands(s: State, steps: seq<Step>)
    requires s.gate.Answered? && NoCounterRead(steps)
    ensures Reach(s, steps).gate == s.gate
  {
    if steps != [] {
      var n := |steps| - 1;
      assert steps[n] in steps && forall step | step in steps[..n] :: step in steps;
      AnswerStands(s, steps[..n]);
      AnswerStandsStep(Reach(s, steps[..n]), steps[n]);
    }
  }

  /** History ahead of the scan stays ahead of it until the scan finds it. */
  ghost predicate WillFind(s: State) {
    s.stable <= |s.lines| && (s.gate == Answered(true) || (s.gate.Scanning? && HistoryFrom(s, s.gate.at)))
  }

  lemma WillFindStep(s: State, step: Step)
    requires WillFind(s) && !step.ReadCounter?
    ensures WillFind(Act(s, step))
  {
    var t := Act(s, step);
    if step.ReadLine? {
      if s.gate.Scanning? {
        ReadLineFinds(s);
        if t.gate.Scanning? { HistoryKept(s, t, t.gate.at); }
      }
    } else if s.gate.Scanning? {
      HistoryKept(s, t, s.gate.at);
    }
  }

  lemma {:induction false} ScanFinds(s: State, steps: seq<Step>)
    requires WillFind(s) && NoCounterRead(steps)
    ensures WillFind(Reach(s, steps))
  {
    if steps != [] {
      var n := |steps| - 1;
      assert steps[n] in steps && forall step | step in steps[..n] :: step in steps;
      ScanFinds(s, steps[..n]);
      WillFindStep(Reach(s, steps[..n]), steps[n]);
    }
  }

  lemma ReachTwo(s: State, a: Step, b: Step)
    ensures Reach(s, [a]) == Act(s, a)
    ensures Reach(s, [a, b]) == Act(Act(s, a), b)
  {
    assert [a, b][..1] == [a] && [a][..0] == [];
    assert Reach(s, [a]) == Act(s, a);
  }

  /** Once nothing is in flight the counter is zero: no path out of the writer leaks a claim. */
  lemma NoLeakedClaim(lines: seq<Line>, tail: seq<Line>, steps: seq<Step>)
    ensures var s := Reach(Start(lines, tail), steps);
            s.hands == [] && s.queue == [] && s.buffer == [] && s.leaving == [] ==> s.count == 0
  {
    ReachKeepsInv(lines, tail, steps);
  }

  // ---- the two reads the other way round

  /** A gate that scans first and asks the counter when the scan has found nothing. */
  datatype Backwards = Backwards(s: State, verdict: Option<bool>)

  function ActBackwards(b: Backwards, step: Step): Backwards {
    if !step.ReadCounter? then b.(s := Act(b.s, step))
    else if b.s.gate.Answered? then b.(verdict := Some(b.s.gate.history || b.s.count > 0))
    else b
  }

  function ReachBackwards(b: Backwards, steps: seq<Step>): Backwards {
    if steps == [] then b else ActBackwards(ReachBackwards(b, steps[..|steps| - 1]), steps[|steps| - 1])
  }

  lemma {:induction false} ScanningSteps(s: State, steps: seq<Step>)
    requires NoCounterRead(steps)
    ensures ReachBackwards(Backwards(s, None), steps) == Backwards(Reach(s, steps), None)
  {
    if steps != [] {
      var n := |steps| - 1;
      assert steps[n] in steps && forall step | step in steps[..n] :: step in steps;
      ScanningSteps(s, steps[..n]);
    }
  }

  /**
   The order of the two reads matters. A gate that scans first passes an empty file, the prompt lands and
   drops its guard, and the counter then says nothing is on its way: "no history" about a landed prompt.
   */
  lemma ScanningFirstIsUnsound(q: Queued)
    requires IsPrompt(q)
    ensures var start := Start([], []).(gate := Scanning(0, false));
            var steps := [Take(q), Offer(0, true), Receive(false)] + [ReadLine] + [Land, DropGuard] + [ReadCounter];
            var b := ReachBackwards(Backwards(start, None), steps);
            b.verdict == Some(false) && b.s.landed == {q.ticket} && b.s.discarded == {} && b.s.glued == {}
  {
    var start := Start([], []).(gate := Scanning(0, false));
    var first := [Take(q), Offer(0, true), Receive(false)];
    var scans := first + [ReadLine] + [Land, DropGuard];
    BufferedPrompt(start, q);
    var buffered := start.(buffer := [q], prompts := {q.ticket}, count := 1);
    ReachAppend(start, first, [ReadLine]);
    assert [ReadLine][..0] == [] && Reach(buffered, [ReadLine]) == Act(buffered, ReadLine);
    var scanned := Act(buffered, ReadLine);
    assert scanned == buffered.(gate := Answered(false));
    ReachAppend(start, first + [ReadLine], [Land, DropGuard]);
    LandsAndLeaves(scanned, q);
    ScanningSteps(start, scans);
    assert (scans + [ReadCounter])[..|scans|] == scans;
    AnswerStands(scanned, [Land, DropGuard]);
  }

  lemma LandsAndLeaves(s: State, q: Queued)
    requires IsPrompt(q) && s.buffer == [q] && s.leaving == [] && s.count == 1 && s.tail == []
    ensures var after := Reach(s, [Land, DropGuard]);
            && after.count == 0 && after.landed == s.landed + {q.ticket}
            && after.discarded == s.discarded && after.glued == s.glued
  {
    ReachTwo(s, Land, DropGuard);
    OnePrompt(q);
    assert Act(s, Land).leaving == [q] && [q][0..] == [q] && Tickets([]) == {};
  }

  lemma OnePrompt(q: Queued)
    requires IsPrompt(q)
    ensures Prompts([q]) == 1 && Tickets([q]) == {q.ticket}
  {
    assert [q][..0] == [];
  }

  /** A prompt taken, offered and received, with nothing else on its way. */
  lemma BufferedPrompt(s: State, q: Queued)
    requires IsPrompt(q) && s.hands == [] && s.queue == [] && s.buffer == [] && s.count == 0 && s.prompts == {}
    ensures Reach(s, [Take(q), Offer(0, true), Receive(false)]) ==
            s.(buffer := [q], prompts := {q.ticket}, count := 1)
  {
    var steps := [Take(q), Offer(0, true), Receive(false)];
    assert steps[..2] == [Take(q), Offer(0, true)];
    ReachTwo(s, Take(q), Offer(0, true));
    OnePrompt(q);
    var s1 := s.(hands := [q], prompts := {q.ticket}, count := 1);
    assert Act(s, Take(q)) == s1;
    assert Act(s1, Offer(0, true)) == s1.(hands := [], queue := [q]);
  }
}
