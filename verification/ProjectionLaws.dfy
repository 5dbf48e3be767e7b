/**
 What the projection keeps (src-tauri/src/parsers/acp_native.rs): the numbers of turns, the agent's prose,
 the shape of a live turn, and the one card of a tool call.
 */
module ProjectionLaws {
  import opened Sequences
  import opened Options
  import opened Conversation

  // ---- numbers

  predicate Numbered(turns: seq<Turn>) {
    forall i | 0 <= i < |turns| :: turns[i].id == i
  }

  lemma FlushNumbers(r: Reader)
    requires Numbered(r.turns)
    ensures Numbered(Flush(r).turns)
  {
  }

  lemma EntryNumbers(r: Reader, e: Entry)
    requires Numbered(r.turns)
    ensures Numbered(ReadEntry(r, e).turns)
  {
    FlushNumbers(r);
    if e.TurnEnd? && r.pending.Some? {
      FlushNumbers(r.(pending := Some(r.pending.value.(duration := e.duration.Or(r.pending.value.duration),
                                                       model := if e.model.Some? && e.model.value != "" then e.model else r.pending.value.model,
                                                       usage := e.usage.Or(r.pending.value.usage), last := e.t))));
    }
  }

  lemma {:induction false} EntriesNumber(es: seq<Entry>)
    ensures Numbered(ReadAll(FRESH_READER, es).turns)
  {
    if es != [] {
      EntriesNumber(es[..|es| - 1]);
      EntryNumbers(ReadAll(FRESH_READER, es[..|es| - 1]), es[|es| - 1]);
    }
  }

  /** Turns are numbered as they stand. */
  lemma TurnsAreNumbered(es: seq<Entry>)
    ensures forall i | 0 <= i < |ProjectTurns(es)| :: ProjectTurns(es)[i].id == i
  {
    EntriesNumber(es);
    FlushNumbers(ReadAll(FRESH_READER, es));
  }

  // ---- prose

  function BlockProse(b: Block, kind: ChunkKind): string {
    match b
    case TextBlock(text) => if kind == Message then text else ""
    case Thinking(text) => if kind == Thought then text else ""
    case _ => ""
  }

  function BlocksProse(bs: seq<Block>, kind: ChunkKind): string {
    if bs == [] then "" else BlocksProse(bs[..|bs| - 1], kind) + BlockProse(bs[|bs| - 1], kind)
  }

  /** What the agent's turns say, one after another. */
  function TurnsProse(ts: seq<Turn>, kind: ChunkKind): string {
    if ts == [] then ""
    else
      var last := ts[|ts| - 1];
      TurnsProse(ts[..|ts| - 1], kind) + if last.role == Assistant then BlocksProse(last.blocks, kind) else ""
  }

  /** What the agent has said, chunk by chunk. */
  function Said(es: seq<Entry>, kind: ChunkKind): string {
    if es == [] then ""
    else
      var e := es[|es| - 1];
      Said(es[..|es| - 1], kind) +
      if e.Update? && e.update.AgentChunk? && e.update.kind == kind && !e.update.content.Picture?
      then e.update.content.text else ""
  }

  function ReaderProse(r: Reader, kind: ChunkKind): string {
    TurnsProse(r.turns, kind) + if r.pending.Some? then BlocksProse(r.pending.value.blocks, kind) else ""
  }

  /** A turn without content has no blocks to lose. */
  predicate NothingToLose(r: Reader) {
    r.pending.Some? && !r.pending.value.hasContent ==> r.pending.value.blocks == []
  }

  lemma BlocksSnoc(bs: seq<Block>, b: Block, kind: ChunkKind)
    ensures BlocksProse(bs + [b], kind) == BlocksProse(bs, kind) + BlockProse(b, kind)
  {
    assert (bs + [b])[..|bs|] == bs;
  }

  lemma TurnsSnoc(ts: seq<Turn>, t: Turn, kind: ChunkKind)
    ensures TurnsProse(ts + [t], kind) ==
            TurnsProse(ts, kind) + if t.role == Assistant then BlocksProse(t.blocks, kind) else ""
  {
    assert (ts + [t])[..|ts|] == ts;
  }

  /** Exchanging a block for one that says the same changes nothing. */
  lemma {:induction false} BlockExchanged(bs: seq<Block>, i: nat, b: Block, kind: ChunkKind)
    requires i < |bs| && BlockProse(b, kind) == BlockProse(bs[i], kind)
    ensures BlocksProse(bs[i := b], kind) == BlocksProse(bs, kind)
  {
    var n := |bs| - 1;
    if i < n {
      BlockExchanged(bs[..n], i, b, kind);
      assert bs[i := b][..n] == bs[..n][i := b];
    } else {
      assert bs[i := b][..n] == bs[..n];
    }
  }

  lemma LastBlockGrows(bs: seq<Block>, b: Block, kind: ChunkKind)
    requires bs != []
    ensures BlocksProse(bs[|bs| - 1 := b], kind) == BlocksProse(bs[..|bs| - 1], kind) + BlockProse(b, kind)
  {
    assert bs[|bs| - 1 := b][..|bs| - 1] == bs[..|bs| - 1];
  }

  lemma NothingAdded(a: string)
    ensures a + "" == a && "" + a == a
  {
  }

  /** Pushed text grows the last block or becomes one. */
  lemma PushedBlocks(p: Pending, text: string, kind: ChunkKind) returns (grows: bool, b: Block)
    requires text != []
    ensures grows ==> p.blocks != [] && PushText(p, text, kind).blocks == p.blocks[|p.blocks| - 1 := b]
    ensures grows ==> (kind == Message && p.blocks[|p.blocks| - 1].TextBlock? && b == TextBlock(p.blocks[|p.blocks| - 1].text + text)) ||
                      (kind == Thought && p.blocks[|p.blocks| - 1].Thinking? && b == Thinking(p.blocks[|p.blocks| - 1].text + text))
    ensures !grows ==> PushText(p, text, kind).blocks == p.blocks + [b] &&
                       b == if kind == Message then TextBlock(text) else Thinking(text)
  {
    var n := |p.blocks|;
    grows := n > 0 && if kind == Message then p.blocks[n - 1].TextBlock? else p.blocks[n - 1].Thinking?;
    if grows {
      b := p.blocks[n - 1].(text := p.blocks[n - 1].text + text);
    } else {
      b := if kind == Message then TextBlock(text) else Thinking(text);
    }
  }

  lemma PushProse(p: Pending, text: string, kind: ChunkKind, told: ChunkKind)
    ensures BlocksProse(PushText(p, text, kind).blocks, told) ==
            BlocksProse(p.blocks, told) + if told == kind then text else ""
  {
    if text == [] {
      NothingAdded(BlocksProse(p.blocks, told));
    } else {
      var grows, b := PushedBlocks(p, text, kind);
      if grows { GrownProse(p.blocks, b, text, kind, told); } else { BlocksSnoc(p.blocks, b, told); }
    }
  }

  lemma GrownProse(bs: seq<Block>, b: Block, text: string, kind: ChunkKind, told: ChunkKind)
    requires bs != []
    requires (kind == Message && bs[|bs| - 1].TextBlock? && b == TextBlock(bs[|bs| - 1].text + text)) ||
             (kind == Thought && bs[|bs| - 1].Thinking? && b == Thinking(bs[|bs| - 1].text + text))
    ensures BlocksProse(bs[|bs| - 1 := b], told) == BlocksProse(bs, told) + if told == kind then text else ""
  {
    LastBlockGrows(bs, b, told);
    var init, last := BlocksProse(bs[..|bs| - 1], told), BlockProse(bs[|bs| - 1], told);
    Associates(init, last, text);
    NothingAdded(init + last);
  }

  lemma ToolKeepsProse(p: Pending, call: ToolPatch, kind: ChunkKind)
    ensures BlocksProse(UpsertTool(p, call).blocks, kind) == BlocksProse(p.blocks, kind)
  {
    var p0 := p.(hasContent := true);
    UseKeepsProse(p0, call, kind);
    ResultKeepsProse(UpsertUse(p0, call), call, kind);
  }

  lemma ResultKeepsProse(q: Pending, call: ToolPatch, kind: ChunkKind)
    ensures call.id in q.results && q.results[call.id] < |q.blocks| ==>
              var i := q.results[call.id];
              BlocksProse(q.blocks[i := PatchResult(q.blocks[i], call)], kind) == BlocksProse(q.blocks, kind)
    ensures BlocksProse(q.blocks + [ToolResult(call.id, call.output, call.failed, call.images)], kind) ==
            BlocksProse(q.blocks, kind)
  {
    if call.id in q.results && q.results[call.id] < |q.blocks| {
      var i := q.results[call.id];
      BlockExchanged(q.blocks, i, PatchResult(q.blocks[i], call), kind);
    }
    BlocksSnoc(q.blocks, ToolResult(call.id, call.output, call.failed, call.images), kind);
    NothingAdded(BlocksProse(q.blocks, kind));
  }

  lemma UseKeepsProse(p: Pending, call: ToolPatch, kind: ChunkKind)
    ensures BlocksProse(UpsertUse(p, call).blocks, kind) == BlocksProse(p.blocks, kind)
  {
    if call.id in p.uses {
      var i := p.uses[call.id];
      if i < |p.blocks| { BlockExchanged(p.blocks, i, PatchUse(p.blocks[i], call), kind); }
    } else {
      var name := if call.title.Some? then call.title.value else "tool";
      BlocksSnoc(p.blocks, ToolUse(call.id, name, call.input, call.meta), kind);
      assert BlocksProse(p.blocks, kind) + "" == BlocksProse(p.blocks, kind);
    }
  }

  lemma PlanKeepsProse(p: Pending, todos: string, kind: ChunkKind)
    ensures BlocksProse(UpsertPlan(p, todos).blocks, kind) == BlocksProse(p.blocks, kind)
  {
    if PLAN_ID in p.uses {
      var i := p.uses[PLAN_ID];
      if i < |p.blocks| && p.blocks[i].ToolUse? { BlockExchanged(p.blocks, i, p.blocks[i].(input := Some(todos)), kind); }
    } else {
      BlocksSnoc(p.blocks, ToolUse(PLAN_ID, "TodoWrite", Some(todos), None), kind);
      assert BlocksProse(p.blocks, kind) + "" == BlocksProse(p.blocks, kind);
    }
  }

  lemma FlushKeepsProse(r: Reader, kind: ChunkKind)
    requires NothingToLose(r)
    ensures TurnsProse(Flush(r).turns, kind) == ReaderProse(r, kind) && Flush(r).pending.None?
  {
    assert TurnsProse(r.turns, kind) + "" == TurnsProse(r.turns, kind);
    if r.pending.Some? && r.pending.value.hasContent {
      TurnsSnoc(r.turns, Flush(r).turns[|r.turns|], kind);
    }
  }

  /** What the agent said in this entry. */
  function SaidIn(e: Entry, kind: ChunkKind): string {
    if e.Update? && e.update.AgentChunk? && e.update.kind == kind && !e.update.content.Picture? then e.update.content.text
    else ""
  }

  lemma ContentProse(p: Pending, kind: ChunkKind, content: Content, told: ChunkKind)
    ensures BlocksProse(PushContent(p, kind, content).blocks, told) ==
            BlocksProse(p.blocks, told) + if told == kind && !content.Picture? then content.text else ""
  {
    match content {
      case Text(text) => PushProse(p, text, kind, told);
      case Projected(text) => PushProse(p, text, kind, told);
      case Picture(image) =>
        BlocksSnoc(p.blocks, ImageBlock(image), told);
        NothingAdded(BlocksProse(p.blocks, told));
    }
  }

  /** Output that touches the open turn: what it leaves there and what it adds. */
  function Touched(r: Reader, e: Entry): Pending
    requires e.Update? && (e.update.AgentChunk? || e.update.ToolCall? || e.update.Plan?)
  {
    var p := OpenTurn(r, e.t).(last := e.t);
    match e.update
    case AgentChunk(kind, content, _, _) => PushContent(p, kind, content)
    case ToolCall(patch) => UpsertTool(p, patch)
    case Plan(todos) => UpsertPlan(p, todos)
  }

  lemma TouchedIsKept(r: Reader, e: Entry)
    requires NothingToLose(r) && e.Update? && (e.update.AgentChunk? || e.update.ToolCall? || e.update.Plan?)
    ensures ReadEntry(r, e).pending == Some(Touched(r, e)) && ReadEntry(r, e).turns == r.turns
    ensures !Touched(r, e).hasContent ==> Touched(r, e).blocks == []
  {
  }

  lemma TouchedProse(r: Reader, e: Entry, kind: ChunkKind)
    requires e.Update? && (e.update.AgentChunk? || e.update.ToolCall? || e.update.Plan?)
    ensures BlocksProse(Touched(r, e).blocks, kind) == BlocksProse(OpenTurn(r, e.t).blocks, kind) + SaidIn(e, kind)
  {
    var p := OpenTurn(r, e.t).(last := e.t);
    NothingAdded(BlocksProse(p.blocks, kind));
    if e.update.AgentChunk? {
      ContentProse(p, e.update.kind, e.update.content, kind);
    } else if e.update.ToolCall? {
      ToolKeepsProse(p, e.update.patch, kind);
    } else {
      PlanKeepsProse(p, e.update.todos, kind);
    }
  }

  lemma AgentOutputAddsItsProse(r: Reader, e: Entry, kind: ChunkKind)
    requires NothingToLose(r) && e.Update? && (e.update.AgentChunk? || e.update.ToolCall? || e.update.Plan?)
    ensures NothingToLose(ReadEntry(r, e)) && ReaderProse(ReadEntry(r, e), kind) == ReaderProse(r, kind) + SaidIn(e, kind)
  {
    TouchedIsKept(r, e);
    TouchedProse(r, e, kind);
    var before, open := TurnsProse(r.turns, kind), BlocksProse(OpenTurn(r, e.t).blocks, kind);
    Associates(before, open, SaidIn(e, kind));
    NothingAdded(before);
  }

  lemma OthersAddNoProse(r: Reader, e: Entry, kind: ChunkKind)
    requires NothingToLose(r) && !(e.Update? && (e.update.AgentChunk? || e.update.ToolCall? || e.update.Plan?))
    ensures NothingToLose(ReadEntry(r, e)) && ReaderProse(ReadEntry(r, e), kind) == ReaderProse(r, kind)
  {
    match e {
      case Prompt(t, blocks, _) =>
        FlushKeepsProse(r, kind);
        TurnsSnoc(Flush(r).turns, Turn(|Flush(r).turns|, User, blocks, t, None, None, None, None), kind);
        assert TurnsProse(Flush(r).turns, kind) + "" == TurnsProse(Flush(r).turns, kind);
        assert ReaderProse(ReadEntry(r, e), kind) == TurnsProse(Flush(r).turns, kind) + "";
      case TurnEnd(_, _, _, _) => EndKeepsProse(r, e, kind);
      case Update(t, u) =>
        if u.UserChunk? && u.shown.Some? && !r.echo { UserChunkKeepsProse(r, u.shown.value, t, kind); }
    }
  }

  lemma EndKeepsProse(r: Reader, e: Entry, kind: ChunkKind)
    requires NothingToLose(r) && e.TurnEnd?
    ensures NothingToLose(ReadEntry(r, e)) && ReaderProse(ReadEntry(r, e), kind) == ReaderProse(r, kind)
  {
    var ended := match r.pending
      case None => r
      case Some(p) =>
        r.(pending := Some(p.(duration := e.duration.Or(p.duration),
                              model := if e.model.Some? && e.model.value != "" then e.model else p.model,
                              usage := e.usage.Or(p.usage), last := e.t)));
    assert ReaderProse(ended, kind) == ReaderProse(r, kind);
    FlushKeepsProse(ended, kind);
    assert ReadEntry(r, e) == Flush(ended).(echo := false, startHint := None, proseOpen := false);
    assert TurnsProse(Flush(ended).turns, kind) + "" == TurnsProse(Flush(ended).turns, kind);
  }

  /** A user chunk adds a user turn or exchanges the last one for another. */
  lemma UserChunkTurns(r: Reader, shown: UserBlock, at: nat) returns (t: Turn)
    ensures t.role == User && ReadUserChunk(r, shown, at).pending.None?
    ensures var f := Flush(r).turns;
            ReadUserChunk(r, shown, at).turns ==
            if f != [] && f[|f| - 1].role == User then f[|f| - 1 := t] else f + [t]
  {
    var u := ReadUserChunk(r, shown, at).turns;
    t := u[|u| - 1];
  }

  lemma UserChunkKeepsProse(r: Reader, shown: UserBlock, at: nat, kind: ChunkKind)
    requires NothingToLose(r)
    ensures var u := ReadUserChunk(r, shown, at);
            u.pending.None? && ReaderProse(u, kind) == ReaderProse(r, kind)
  {
    FlushKeepsProse(r, kind);
    var t := UserChunkTurns(r, shown, at);
    var f := Flush(r).turns;
    NothingAdded(TurnsProse(f, kind));
    if f != [] && f[|f| - 1].role == User { UserTurnExchanged(f, t, kind); } else { TurnsSnoc(f, t, kind); }
  }

  lemma UserTurnExchanged(ts: seq<Turn>, t: Turn, kind: ChunkKind)
    requires ts != [] && ts[|ts| - 1].role == User && t.role == User
    ensures TurnsProse(ts[|ts| - 1 := t], kind) == TurnsProse(ts, kind)
  {
    assert ts[|ts| - 1 := t][..|ts| - 1] == ts[..|ts| - 1];
  }

  /**
   No word of the agent is lost, doubled or reordered: what its turns say, messages and thoughts apart, is
   what its chunks said, whatever tool calls, plans, prompts and turn ends lie between.
   */
  lemma {:induction false} ProseIsKept(es: seq<Entry>, kind: ChunkKind)
    ensures TurnsProse(ProjectTurns(es), kind) == Said(es, kind)
    ensures NothingToLose(ReadAll(FRESH_READER, es)) && ReaderProse(ReadAll(FRESH_READER, es), kind) == Said(es, kind)
  {
    if es != [] {
      var r, e := ReadAll(FRESH_READER, es[..|es| - 1]), es[|es| - 1];
      ProseIsKept(es[..|es| - 1], kind);
      assert Said(es[..|es| - 1], kind) + "" == Said(es[..|es| - 1], kind);
      if e.Update? && (e.update.AgentChunk? || e.update.ToolCall? || e.update.Plan?) {
        AgentOutputAddsItsProse(r, e, kind);
      } else {
        OthersAddNoProse(r, e, kind);
      }
    }
    FlushKeepsProse(ReadAll(FRESH_READER, es), kind);
  }

  // ---- a live turn

  /** Message chunks of plain text. */
  predicate Replies(es: seq<Entry>) {
    forall e | e in es :: e.Update? && e.update.AgentChunk? && e.update.kind == Message && e.update.content.Text?
  }

  lemma {:induction false} RepliesGather(r: Reader, es: seq<Entry>, start: nat)
    requires Replies(es) && r.pending.None? && r.startHint == Some(start)
    ensures var q := ReadAll(r, es);
            if es == [] then q == r
            else q.turns == r.turns && q.pending.Some? && q.pending.value.started == start && q.pending.value.last == es[|es| - 1].t
                 && (if Said(es, Message) == "" then q.pending.value == NewTurn(start).(last := es[|es| - 1].t)
                     else q.pending.value == NewTurn(start).(last := es[|es| - 1].t, hasContent := true,
                                                             blocks := [TextBlock(Said(es, Message))]))
  {
    if es != [] {
      var init, e := es[..|es| - 1], es[|es| - 1];
      assert e in es && Replies(init);
      RepliesGather(r, init, start);
      var before, text := Said(init, Message), e.update.content.text;
      assert "" + text == text && before + "" == before;
    }
  }

  /**
   A live turn: the prompt's own blocks at its time, then one message with all the reply's text, from the
   moment the prompt was sent to the turn's end, with the duration the end reports or else the time between.
   */
  lemma LiveTurnReads(r: Reader, prompt: Entry, reply: seq<Entry>, end: Entry)
    requires r.pending.None? && prompt.Prompt? && end.TurnEnd? && Replies(reply) && Said(reply, Message) != ""
    ensures var n := |r.turns|;
            ReadEntry(ReadAll(ReadEntry(r, prompt), reply), end).turns == r.turns +
            [Turn(n, User, prompt.blocks, prompt.t, None, None, None, None),
             Turn(n + 1, Assistant, [TextBlock(Said(reply, Message))], prompt.t, end.usage,
                  end.duration.Or(if end.t >= prompt.t then Some(end.t - prompt.t) else None),
                  if end.model.Some? && end.model.value != "" then end.model else None, Some(end.t))]
  {
    RepliesGather(ReadEntry(r, prompt), reply, prompt.t);
  }

  // ---- echoes and replays

  /** Until the agent answers, user chunks only repeat the prompt that was recorded. */
  lemma EchoIsIgnored(r: Reader, prompt: Entry, shown: Option<UserBlock>, t: nat)
    requires prompt.Prompt?
    ensures ReadEntry(ReadEntry(r, prompt), Update(t, UserChunk(shown))) == ReadEntry(r, prompt)
  {
  }

  /** A replay has no prompts: its user chunks are the message, prose joined to prose, and its answer starts with the last. */
  lemma ReplayedMessageReads(a: string, b: string, t: nat, u: nat, answer: string, v: nat)
    requires answer != ""
    ensures ProjectTurns([Update(t, UserChunk(Some(UserBlock(TextBlock(a), true)))),
                          Update(u, UserChunk(Some(UserBlock(TextBlock(b), true))))] +
                         [Update(v, AgentChunk(Message, Text(answer), None, ""))]) ==
            [Turn(0, User, [TextBlock(a + b)], t, None, None, None, None),
             Turn(1, Assistant, [TextBlock(answer)], u, None, if v >= u then Some(v - u) else None, None, Some(v))]
  {
    var e0 := Update(t, UserChunk(Some(UserBlock(TextBlock(a), true))));
    var e1 := Update(u, UserChunk(Some(UserBlock(TextBlock(b), true))));
    var e2 := Update(v, AgentChunk(Message, Text(answer), None, ""));
    ReadAppend(FRESH_READER, [e0, e1], [e2]);
    assert [e0, e1][..1] == [e0] && [e0][..0] == [] && [e2][..0] == [];
    var r1 := ReadEntry(FRESH_READER, e0);
    assert r1.turns == [Turn(0, User, [TextBlock(a)], t, None, None, None, None)] && r1.proseOpen;
    assert ReadAll(FRESH_READER, [e0]) == r1;
    var r2 := ReadEntry(r1, e1);
    assert ReadAll(FRESH_READER, [e0, e1]) == r2;
    assert [TextBlock(a)][0 := TextBlock(a + b)] == [TextBlock(a + b)];
    assert r2.turns[0] == Turn(0, User, [TextBlock(a + b)], t, None, None, None, None);
    var r3 := ReadEntry(r2, e2);
    assert [] + [TextBlock(answer)] == [TextBlock(answer)];
    assert ReadAll(r2, [e2]) == r3;
    assert r3.pending == Some(NewTurn(u).(last := v, blocks := [TextBlock(answer)], hasContent := true));
  }

  /** An attachment stays a block of its own: prose is joined neither to it nor over it. */
  lemma AttachmentsStandApart(r: Reader, turn: Turn, marker: string, t: nat, prose: string, u: nat)
    requires r.turns != [] && r.turns[|r.turns| - 1] == turn && turn.role == User && r.pending.None? && !r.echo
    ensures var attached := ReadEntry(r, Update(t, UserChunk(Some(UserBlock(TextBlock(marker), false)))));
            var said := ReadEntry(attached, Update(u, UserChunk(Some(UserBlock(TextBlock(prose), true)))));
            var blocks := said.turns[|said.turns| - 1].blocks;
            |said.turns| == |r.turns| && blocks == turn.blocks + [TextBlock(marker), TextBlock(prose)]
  {
    assert turn.blocks + [TextBlock(marker)] + [TextBlock(prose)] == turn.blocks + [TextBlock(marker), TextBlock(prose)];
  }

  /** Once the agent has answered, a user chunk is a message of its own, and ends the agent's turn. */
  lemma MidTurnMessageReads(r: Reader, prompt: Entry, answer: string, t: nat, shown: UserBlock, u: nat)
    requires prompt.Prompt? && answer != ""
    ensures var answered := ReadEntry(ReadEntry(r, prompt), Update(t, AgentChunk(Message, Text(answer), None, "")));
            var after := ReadEntry(answered, Update(u, UserChunk(Some(shown))));
            var n := |after.turns|;
            && n >= 3 && after.pending.None?
            && after.turns[n - 1] == Turn(n - 1, User, [shown.block], u, None, None, None, None)
            && after.turns[n - 2].role == Assistant && after.turns[n - 2].blocks == [TextBlock(answer)]
            && after.turns[n - 2].timestamp == prompt.t && after.turns[n - 2].completedAt == Some(t)
  {
    assert [] + [TextBlock(answer)] == [TextBlock(answer)];
  }

  /** A recorded prompt is complete: prose that follows an empty answer is a block beside it, not more of it. */
  lemma PromptIsNeverExtended(r: Reader, prompt: Entry, t: nat, prose: string, u: nat)
    requires prompt.Prompt?
    ensures var answered := ReadEntry(ReadEntry(r, prompt), Update(t, AgentChunk(Message, Text(""), None, "")));
            var after := ReadEntry(answered, Update(u, UserChunk(Some(UserBlock(TextBlock(prose), true)))));
            after.turns[|after.turns| - 1].blocks == prompt.blocks + [TextBlock(prose)]
  {
  }

  /** A thought has no picture: one leaves its blocks as they are and says only that the agent is at work. */
  lemma ThoughtsHaveNoPictures(r: Reader, image: string, t: nat)
    ensures var after := ReadEntry(r, Update(t, AgentChunk(Thought, Picture(image), None, "")));
            after.turns == r.turns && after.pending.Some? &&
            after.pending.value == (if r.pending.Some? then r.pending.value
                                    else NewTurn(if r.startHint.Some? then r.startHint.value else t)).(last := t)
  {
  }

  /** A message's picture is a block where it came. */
  lemma MessagePicturesAreBlocks(p: Pending, image: string)
    ensures PushContent(p, Message, Picture(image)).blocks == p.blocks + [ImageBlock(image)]
    ensures PushContent(p, Message, Picture(image)).hasContent
  {
  }

  // ---- the rest of an opened conversation

  /** It began when its header says, or else with its first entry, and ended with its last. */
  lemma ConversationTimes(header: Option<Header>, es: seq<Entry>)
    ensures header.Some? ==> Show(header, es).startedAt == Some(header.value.startedAt)
    ensures header.None? && es != [] ==> Show(header, es).startedAt == Some(es[0].t)
    ensures header.None? && es == [] ==> Show(header, es).startedAt == None
    ensures Show(header, es).endedAt == if es == [] then None else Some(es[|es| - 1].t)
  {
  }

  /** The context window is the last one reported, unless that one was of size nothing. */
  lemma {:induction false} LastWindowCounts(es: seq<Entry>, i: nat)
    requires i < |es| && es[i].Update? && es[i].update.Usage?
    requires forall j | i < j < |es| :: !(es[j].Update? && es[j].update.Usage?)
    ensures ContextWindow(es) ==
            if es[i].update.size.Some? && es[i].update.size.value > 0 then (es[i].update.used, es[i].update.size)
            else (None, None)
  {
    if i < |es| - 1 { LastWindowCounts(es[..|es| - 1], i); }
  }

  /** The title is cut from the first prompt. */
  lemma {:induction false} FirstPromptNames(es: seq<Entry>, i: nat)
    requires i < |es| && es[i].Prompt? && forall j | 0 <= j < i :: !es[j].Prompt?
    ensures FirstPrompt(es) == Some(es[i].text)
  {
    if i < |es| - 1 { FirstPromptNames(es[..|es| - 1], i); } else { NoPromptNoName(es[..i]); }
  }

  lemma {:induction false} NoPromptNoName(es: seq<Entry>)
    requires forall j | 0 <= j < |es| :: !es[j].Prompt?
    ensures FirstPrompt(es) == None
  {
    if es != [] { NoPromptNoName(es[..|es| - 1]); }
  }

  // ---- tools

  /**
   A tool call has one card, patched in place: what a later update gives replaces, what it leaves out stays,
   and its result, once there is one, is one block more.
   */
  lemma ToolCallHasOneCard(p: Pending, first: ToolPatch, later: ToolPatch)
    requires first.id == later.id && first.id !in p.uses && first.id !in p.results
    ensures var q := UpsertTool(UpsertTool(p, first), later);
            var n := |p.blocks|;
            && q.hasContent && |q.blocks| >= n + 1 && q.blocks[..n] == p.blocks
            && q.blocks[n] == ToolUse(first.id,
                                      if later.title.Some? && later.title.value != "" then later.title.value
                                      else if first.title.Some? then first.title.value else "tool",
                                      later.input.Or(first.input), later.meta.Or(first.meta))
            && (HasResult(first) || HasResult(later) <==> |q.blocks| == n + 2)
            && (HasResult(first) && HasResult(later) ==>
                  q.blocks[n + 1] == ToolResult(first.id, later.output.Or(first.output), later.failed,
                                                if later.images != [] then later.images else first.images))
            && (!HasResult(first) && HasResult(later) ==>
                  q.blocks[n + 1] == ToolResult(first.id, later.output, later.failed, later.images))
  {
    var one := UpsertTool(p, first);
    assert one.blocks[..|p.blocks|] == p.blocks;
    var two := UpsertTool(one, later);
    assert two.blocks[..|p.blocks|] == p.blocks;
  }

  /** The update says something about the result. */
  predicate HasResult(call: ToolPatch) {
    call.output.Some? || call.images != [] || call.failed
  }

  /** A later plan replaces the earlier one on its card. */
  lemma PlanHasOneCard(p: Pending, first: string, later: string)
    requires PLAN_ID !in p.uses
    ensures UpsertPlan(UpsertPlan(p, first), later).blocks == p.blocks + [ToolUse(PLAN_ID, "TodoWrite", Some(later), None)]
  {
  }
}
