/**
 Transcript records and the conversation a reader projects out of them:
 `TranscriptHeader` and `TranscriptEntry` (src-tauri/src/acp_transcript.rs) and
 `project_turns` with its companions (src-tauri/src/parsers/acp_native.rs).

 A JSON payload is represented by what the reader takes from it. Sub-projections that
 do not depend on the reader's state (tool previews, prompt blocks) are already applied.
 */
module Conversation {
  import opened Options

  datatype Header = Header(sessionId: string, cwd: string, startedAt: nat, continuesFrom: Option<string>)

  datatype ChunkKind = Message | Thought

  /** Content of an agent chunk: plain text, an image, or a block that only has a textual projection. */
  datatype Content = Text(text: string) | Picture(image: string) | Projected(text: string)

  datatype Block =
    | TextBlock(text: string)
    | Thinking(text: string)
    | ImageBlock(image: string)
    | ToolUse(id: string, name: string, input: Option<string>, meta: Option<string>)
    | ToolResult(id: string, output: Option<string>, isError: bool, images: seq<string>)

  /** One rendered block of a replayed user message; `prose` is text a later chunk may extend. */
  datatype UserBlock = UserBlock(block: Block, prose: bool)

  datatype ToolPatch = ToolPatch(
    id: string, title: Option<string>, input: Option<string>, output: Option<string>,
    images: seq<string>, failed: bool, meta: Option<string>)

  datatype Update =
    | UserChunk(shown: Option<UserBlock>)
    | AgentChunk(kind: ChunkKind, content: Content, meta: Option<string>, rest: string)
    | ToolCall(patch: ToolPatch)
    | Plan(todos: string)
    | Usage(used: Option<nat>, size: Option<nat>)
    | Unread  // a kind the projection ignores, or one this build cannot parse

  datatype Entry =
    | Prompt(t: nat, blocks: seq<Block>, text: string)
    | TurnEnd(t: nat, duration: Option<nat>, model: Option<string>, usage: Option<string>)
    | Update(t: nat, update: Update)

  datatype Role = User | Assistant

  datatype Turn = Turn(
    id: nat, role: Role, blocks: seq<Block>, timestamp: nat, usage: Option<string>,
    duration: Option<nat>, model: Option<string>, completedAt: Option<nat>)

  /** The assistant turn under construction. */
  datatype Pending = Pending(
    blocks: seq<Block>, started: nat, last: nat, uses: map<string, nat>, results: map<string, nat>,
    usage: Option<string>, duration: Option<nat>, model: Option<string>, hasContent: bool)

  function NewTurn(at: nat): Pending {
    Pending([], at, at, map[], map[], None, None, None, false)
  }

  /** The loop state of `project_turns`; `echo` is `prompt_just_recorded`. */
  datatype Reader = Reader(
    turns: seq<Turn>, pending: Option<Pending>, echo: bool, startHint: Option<nat>, proseOpen: bool)

  const FRESH_READER := Reader([], None, false, None, false)

  function Flush(r: Reader): Reader {
    match r.pending
    case None => r
    case Some(p) =>
      var cleared := r.(pending := None);
      if !p.hasContent then cleared
      else
        var elapsed := if p.last >= p.started then Some(p.last - p.started) else None;
        cleared.(turns := r.turns + [Turn(|r.turns|, Assistant, p.blocks, p.started, p.usage,
                                          p.duration.Or(elapsed), p.model, Some(p.last))])
  }

  /** Append text, joining it to a trailing block of the same kind. */
  function PushText(p: Pending, text: string, kind: ChunkKind): Pending {
    if text == [] then p
    else
      var n := |p.blocks|;
      var grown :=
        if kind == Message && n > 0 && p.blocks[n - 1].TextBlock? then
          p.blocks[n - 1 := TextBlock(p.blocks[n - 1].text + text)]
        else if kind == Thought && n > 0 && p.blocks[n - 1].Thinking? then
          p.blocks[n - 1 := Thinking(p.blocks[n - 1].text + text)]
        else p.blocks + [if kind == Message then TextBlock(text) else Thinking(text)];
      p.(blocks := grown, hasContent := true)
  }

  function PushContent(p: Pending, kind: ChunkKind, content: Content): Pending {
    match content
    case Text(text) => PushText(p, text, kind)
    case Projected(text) => PushText(p, text, kind)
    case Picture(image) =>
      // A thought has no image block; its textual projection is empty.
      if kind == Message then p.(blocks := p.blocks + [ImageBlock(image)], hasContent := true) else p
  }

  function PatchUse(b: Block, call: ToolPatch): Block {
    if !b.ToolUse? then b
    else b.(name := if call.title.Some? && call.title.value != "" then call.title.value else b.name,
            input := call.input.Or(b.input),
            meta := call.meta.Or(b.meta))
  }

  function PatchResult(b: Block, call: ToolPatch): Block {
    if !b.ToolResult? then b
    else b.(output := call.output.Or(b.output),
            isError := call.failed,
            images := if call.images != [] then call.images else b.images)
  }

  function UpsertUse(p: Pending, call: ToolPatch): Pending {
    if call.id in p.uses then
      var i := p.uses[call.id];
      if i < |p.blocks| then p.(blocks := p.blocks[i := PatchUse(p.blocks[i], call)]) else p
    else
      var name := if call.title.Some? then call.title.value else "tool";
      p.(uses := p.uses[call.id := |p.blocks|],
         blocks := p.blocks + [ToolUse(call.id, name, call.input, call.meta)])
  }

  function UpsertTool(p: Pending, call: ToolPatch): Pending {
    var q := UpsertUse(p.(hasContent := true), call);
    if call.output.None? && call.images == [] && !call.failed then q
    else if call.id in q.results then
      var i := q.results[call.id];
      if i < |q.blocks| then q.(blocks := q.blocks[i := PatchResult(q.blocks[i], call)]) else q
    else
      q.(results := q.results[call.id := |q.blocks|],
         blocks := q.blocks + [ToolResult(call.id, call.output, call.failed, call.images)])
  }

  const PLAN_ID := "acp-plan"

  /** Plans are cumulative: a later one replaces the input of the one card. */
  function UpsertPlan(p: Pending, todos: string): Pending {
    var q := p.(hasContent := true);
    if PLAN_ID in q.uses then
      var i := q.uses[PLAN_ID];
      if i < |q.blocks| && q.blocks[i].ToolUse?
      then q.(blocks := q.blocks[i := q.blocks[i].(input := Some(todos))]) else q
    else
      q.(uses := q.uses[PLAN_ID := |q.blocks|],
         blocks := q.blocks + [ToolUse(PLAN_ID, "TodoWrite", Some(todos), None)])
  }

  /** The open turn, or a new one that consumes the prompt's timestamp. */
  function OpenTurn(r: Reader, at: nat): Pending {
    match r.pending
    case Some(p) => p
    case None => NewTurn(if r.startHint.Some? then r.startHint.value else at)
  }

  /** Store `p` as the open turn touched at `at`: agent output ends the echo window. */
  function Keep(r: Reader, p: Pending): Reader {
    r.(pending := Some(p), echo := false,
       startHint := if r.pending.Some? then r.startHint else None)
  }

  function ReadUserChunk(r: Reader, shown: UserBlock, at: nat): Reader {
    var f := Flush(r).(startHint := Some(at), proseOpen := shown.prose);
    var n := |f.turns|;
    if n > 0 && f.turns[n - 1].role == User then
      var bs := f.turns[n - 1].blocks;
      var m := |bs|;
      var joined :=
        if shown.prose && r.proseOpen && m > 0 && bs[m - 1].TextBlock? && shown.block.TextBlock?
        then bs[m - 1 := TextBlock(bs[m - 1].text + shown.block.text)]
        else bs + [shown.block];
      f.(turns := f.turns[n - 1 := f.turns[n - 1].(blocks := joined)])
    else
      f.(turns := f.turns + [Turn(n, User, [shown.block], at, None, None, None, None)])
  }

  function ReadUpdate(r: Reader, u: Update, at: nat): Reader {
    match u
    case UserChunk(shown) =>
      if r.echo || shown.None? then r else ReadUserChunk(r, shown.value, at)
    case AgentChunk(kind, content, _, _) =>
      Keep(r, PushContent(OpenTurn(r, at).(last := at), kind, content))
    case ToolCall(patch) => Keep(r, UpsertTool(OpenTurn(r, at).(last := at), patch))
    case Plan(todos) => Keep(r, UpsertPlan(OpenTurn(r, at).(last := at), todos))
    case Usage(_, _) => r
    case Unread => r
  }

  /** One iteration of `project_turns`. */
  function ReadEntry(r: Reader, e: Entry): Reader {
    match e
    case Prompt(t, blocks, _) =>
      var f := Flush(r);
      f.(turns := f.turns + [Turn(|f.turns|, User, blocks, t, None, None, None, None)],
         echo := true, startHint := Some(t), proseOpen := false)
    case TurnEnd(t, duration, model, usage) =>
      var ended := match r.pending
        case None => r
        case Some(p) =>
          r.(pending := Some(p.(duration := duration.Or(p.duration),
                                model := if model.Some? && model.value != "" then model else p.model,
                                usage := usage.Or(p.usage),
                                last := t)));
      Flush(ended).(echo := false, startHint := None, proseOpen := false)
    case Update(t, u) => ReadUpdate(r, u, t)
  }

  function ReadAll(r: Reader, es: seq<Entry>): Reader {
    if es == [] then r else ReadEntry(ReadAll(r, es[..|es| - 1]), es[|es| - 1])
  }

  /** `project_turns`. */
  function ProjectTurns(es: seq<Entry>): seq<Turn> {
    Flush(ReadAll(FRESH_READER, es)).turns
  }

  // ---- the other readings `get_conversation` takes from the same entries

  /** `latest_context_window`: a scan from the end for the last usage record. */
  function ContextWindow(es: seq<Entry>): (Option<nat>, Option<nat>) {
    if es == [] then (None, None)
    else
      var e := es[|es| - 1];
      if e.Update? && e.update.Usage? then
        if e.update.size.Some? && e.update.size.value > 0 then (e.update.used, e.update.size) else (None, None)
      else ContextWindow(es[..|es| - 1])
  }

  function PromptCount(es: seq<Entry>): nat {
    if es == [] then 0 else PromptCount(es[..|es| - 1]) + if es[|es| - 1].Prompt? then 1 else 0
  }

  /** The text the title is cut from: the first prompt's prose. */
  function FirstPrompt(es: seq<Entry>): Option<string> {
    if es == [] then None
    else FirstPrompt(es[..|es| - 1]).Or(if es[|es| - 1].Prompt? then Some(es[|es| - 1].text) else None)
  }

  /** Everything a listing row or an opened conversation shows. */
  datatype Shown = Shown(
    turns: seq<Turn>, window: (Option<nat>, Option<nat>), startedAt: Option<nat>, endedAt: Option<nat>,
    messages: nat, titleSource: Option<string>)

  /** `get_conversation`: the header's start time wins over the first entry's. */
  function Show(header: Option<Header>, es: seq<Entry>): Shown {
    Shown(ProjectTurns(es), ContextWindow(es),
          if header.Some? then Some(header.value.startedAt) else if es != [] then Some(es[0].t) else None,
          if es != [] then Some(es[|es| - 1].t) else None,
          PromptCount(es), FirstPrompt(es))
  }

  // ---- composition

  lemma {:induction false} ReadAppend(r: Reader, a: seq<Entry>, b: seq<Entry>)
    ensures ReadAll(r, a + b) == ReadAll(ReadAll(r, a), b)
    decreases |b|
  {
    if b == [] {
      assert a + b == a;
    } else {
      var n := |b| - 1;
      assert (a + b)[..|a + b| - 1] == a + b[..n];
      ReadAppend(r, a, b[..n]);
    }
  }

  // ---- when the reader no longer takes a turn's start from a chunk

  /** The next agent chunk cannot set a turn's start: a turn is open, or a timestamp waits for it. */
  predicate StartFixed(r: Reader) {
    r.pending.Some? || r.startHint.Some?
  }

  /** Reachable reader states: the echo window is only open while the prompt's timestamp waits. */
  predicate EchoHasHint(r: Reader) {
    r.echo ==> StartFixed(r)
  }

  /** Entries that leave the start fixed, entries that unfix it, and entries that do neither. */
  predicate OpensTurn(e: Entry) {
    e.Prompt? || (e.Update? && !e.update.Usage? && !e.update.Unread? && e.update != UserChunk(None))
  }

  /** A syntactic reading of `es`: whether its last telling entry leaves the start fixed. */
  predicate EndsFixed(es: seq<Entry>, before: bool) {
    if es == [] then before
    else if OpensTurn(es[|es| - 1]) then true
    else if es[|es| - 1].TurnEnd? then false
    else EndsFixed(es[..|es| - 1], before)
  }

  lemma {:induction false} EchoKept(r: Reader, es: seq<Entry>)
    requires EchoHasHint(r)
    ensures EchoHasHint(ReadAll(r, es))
  {
    if es != [] { EchoKept(r, es[..|es| - 1]); }
  }

  lemma StartFixedStep(r: Reader, e: Entry)
    requires EchoHasHint(r)
    ensures StartFixed(ReadEntry(r, e)) <==> OpensTurn(e) || (!e.TurnEnd? && StartFixed(r))
  {
  }

  /** The start is fixed after reading `es` exactly when the entries themselves say so. */
  lemma {:induction false} StartFixedIff(r: Reader, es: seq<Entry>)
    requires EchoHasHint(r)
    ensures StartFixed(ReadAll(r, es)) <==> EndsFixed(es, StartFixed(r))
  {
    if es != [] {
      EchoKept(r, es[..|es| - 1]);
      StartFixedIff(r, es[..|es| - 1]);
      StartFixedStep(ReadAll(r, es[..|es| - 1]), es[|es| - 1]);
    }
  }
}
