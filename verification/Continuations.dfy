/**
 Continuation chains (src-tauri/src/acp_transcript.rs): the two walks over `continues_from`, and the
 listing that hides every transcript another one continues.
 */
module Continuations {
  import opened Sequences
  import opened Options
  import opened Conversation
  import opened TranscriptReader

  type Id = string

  /** One agent's directory: what each transcript file's lines parse as. */
  type Dir = map<Id, seq<Line>>

  const MAX_CONTINUATION_DEPTH: nat := 512

  predicate SafeChar(c: char) {
    'a' <= c <= 'z' || 'A' <= c <= 'Z' || '0' <= c <= '9' || c == '-' || c == '_' || c == '.'
  }

  /** `safe_component`: fit to be one path component. */
  predicate SafeComponent(s: string) {
    0 < |s| <= 128 && s[0] != '.' && forall c | c in s :: SafeChar(c)
  }

  /** What each transcript of a directory says; a file whose name is unsafe as an id reads as nothing. */
  type Shelf = map<Id, Transcript>

  const NOTHING := Transcript(None, [])

  function Shelved(dir: Dir): Shelf {
    map id | id in dir :: if SafeComponent(id) then Parsed(dir[id]) else NOTHING
  }

  function Read(shelf: Shelf, id: Id): Transcript {
    if id in shelf then shelf[id] else NOTHING
  }

  function Link(shelf: Shelf, id: Id): Option<Id> {
    var header := Read(shelf, id).header;
    if header.Some? then header.value.continuesFrom else None
  }

  /** The ids a walk visits from `cursor`: it stops at a missing link, a repeated id, or the limit. */
  function Walk(shelf: Shelf, cursor: Option<Id>, seen: set<Id>, room: nat): (ids: seq<Id>)
    ensures |ids| <= room
    decreases room
  {
    if cursor.None? || cursor.value in seen || room == 0 then []
    else [cursor.value] + Walk(shelf, Link(shelf, cursor.value), seen + {cursor.value}, room - 1)
  }

  /** A walk visits distinct new ids, each linked from the one before. */
  lemma {:induction false} WalkFacts(shelf: Shelf, cursor: Option<Id>, seen: set<Id>, room: nat)
    ensures var ids := Walk(shelf, cursor, seen, room);
            && (forall i | 0 <= i < |ids| :: ids[i] !in seen)
            && (forall i, j | 0 <= i < j < |ids| :: ids[i] != ids[j])
            && (ids != [] ==> cursor == Some(ids[0]))
            && (forall i | 0 <= i < |ids| - 1 :: Link(shelf, ids[i]) == Some(ids[i + 1]))
    decreases room
  {
    if cursor.Some? && cursor.value !in seen && room > 0 {
      WalkFacts(shelf, Link(shelf, cursor.value), seen + {cursor.value}, room - 1);
    }
  }

  /**
   A walk stops only for a reason: the last id has no link, links back to a visited id, or is the
   last the limit allows.
   */
  lemma {:induction false} WalkIsMaximal(shelf: Shelf, cursor: Option<Id>, seen: set<Id>, room: nat)
    ensures var ids := Walk(shelf, cursor, seen, room);
            var next := if ids == [] then cursor else Link(shelf, ids[|ids| - 1]);
            next.None? || next.value in seen || next.value in ids || |ids| == room
    decreases room
  {
    if cursor.Some? && cursor.value !in seen && room > 0 {
      var id := cursor.value;
      var rest := Walk(shelf, Link(shelf, id), seen + {id}, room - 1);
      WalkIsMaximal(shelf, Link(shelf, id), seen + {id}, room - 1);
      assert Walk(shelf, cursor, seen, room) == [id] + rest;
      if rest != [] { assert ([id] + rest)[|rest|] == rest[|rest| - 1]; }
    }
  }

  /** One step of a walk, as a loop takes it. */
  lemma WalkStep(shelf: Shelf, ids: seq<Id>, id: Id, seen: set<Id>, room: nat)
    requires id !in seen && room > 0
    ensures ids + Walk(shelf, Some(id), seen, room) ==
            (ids + [id]) + Walk(shelf, Link(shelf, id), seen + {id}, room - 1)
  {
    var rest := Walk(shelf, Link(shelf, id), seen + {id}, room - 1);
    assert ids + ([id] + rest) == (ids + [id]) + rest;
  }

  function ChainIds(shelf: Shelf, s: Id, depth: nat): seq<Id> {
    Walk(shelf, Some(s), {}, depth)
  }

  function AncestorIds(shelf: Shelf, s: Id, depth: nat): seq<Id> {
    Walk(shelf, Link(shelf, s), {s}, depth)
  }

  /** Transcripts, newest first, as one: entries oldest first, the oldest header there is. */
  function Merged(ts: seq<Transcript>): Transcript {
    if ts == [] then Transcript(None, [])
    else
      var older := Merged(ts[1..]);
      Transcript(older.header.Or(ts[0].header), older.entries + ts[0].entries)
  }

  function ReadIds(shelf: Shelf, ids: seq<Id>): seq<Transcript> {
    seq(|ids|, (i: nat) requires i < |ids| => Read(shelf, ids[i]))
  }

  /** What `read_chain_in` returns. */
  function ChainOf(shelf: Shelf, s: Id, depth: nat): Transcript {
    Merged(ReadIds(shelf, ChainIds(shelf, s, depth)))
  }

  method ReadTranscript(dir: Dir, id: Id) returns (t: Transcript)
    ensures t == Read(Shelved(dir), id)
  {
    if !SafeComponent(id) || id !in dir {
      return Transcript(None, []);
    }
    t := ParseTranscript(dir[id]);
  }

  method ReadHeaderOf(dir: Dir, id: Id) returns (header: Option<Header>)
    ensures header == Read(Shelved(dir), id).header
  {
    if !SafeComponent(id) || id !in dir { return None; }
    header := ReadHeader(dir[id]);
  }

  /** `read_chain_in`: first the walk, newest to oldest; then the merge, the other way. */
  method ReadChain(dir: Dir, s: Id, depth: nat) returns (merged: Transcript)
    ensures merged == ChainOf(Shelved(dir), s, depth)
  {
    var chain := CollectChain(dir, s, depth);
    merged := Transcript(None, []);
    for i := |chain| downto 0
      invariant merged == Merged(chain[i..])
    {
      assert chain[i..][1..] == chain[i + 1..];
      merged := Transcript(merged.header.Or(chain[i].header), merged.entries + chain[i].entries);
    }
    assert chain[0..] == chain;
  }

  method CollectChain(dir: Dir, s: Id, depth: nat) returns (chain: seq<Transcript>)
    ensures chain == ReadIds(Shelved(dir), ChainIds(Shelved(dir), s, depth))
  {
    chain := [];
    ghost var ids: seq<Id> := [];
    var visited: set<Id> := {};
    var cursor := Some(s);
    while cursor.Some?
      invariant |chain| == |ids| <= depth
      invariant chain == ReadIds(Shelved(dir), ids)
      invariant ChainIds(Shelved(dir), s, depth) == ids + Walk(Shelved(dir), cursor, visited, depth - |ids|)
      decreases depth - |chain|, cursor.Some?
    {
      var id := cursor.value;
      if id in visited || |chain| >= depth { break; }
      WalkStep(Shelved(dir), ids, id, visited, depth - |ids|);
      visited := visited + {id};
      var transcript := ReadTranscript(dir, id);
      cursor := if transcript.header.Some? then transcript.header.value.continuesFrom else None;
      ReadIdsSnoc(Shelved(dir), ids, id);
      chain, ids := chain + [transcript], ids + [id];
    }
    assert ids + [] == ids;
  }

  lemma ReadIdsSnoc(shelf: Shelf, ids: seq<Id>, id: Id)
    ensures ReadIds(shelf, ids + [id]) == ReadIds(shelf, ids) + [Read(shelf, id)]
  {
  }

  /** `continuation_ancestors_in`. */
  method ContinuationAncestors(dir: Dir, s: Id, depth: nat) returns (out: seq<Id>)
    ensures out == AncestorIds(Shelved(dir), s, depth)
  {
    out := [];
    var visited := {s};
    var header := ReadHeaderOf(dir, s);
    var cursor := if header.Some? then header.value.continuesFrom else None;
    while cursor.Some?
      invariant |out| <= depth
      invariant AncestorIds(Shelved(dir), s, depth) == out + Walk(Shelved(dir), cursor, visited, depth - |out|)
      decreases depth - |out|, cursor.Some?
    {
      var id := cursor.value;
      if id in visited || |out| >= depth { break; }
      WalkStep(Shelved(dir), out, id, visited, depth - |out|);
      visited := visited + {id};
      header := ReadHeaderOf(dir, id);
      cursor := if header.Some? then header.value.continuesFrom else None;
      out := out + [id];
    }
    assert out + [] == out;
  }

  /** The two walks as the source calls them. */
  method ReadChainIn(dir: Dir, s: Id) returns (merged: Transcript)
    ensures merged == ChainOf(Shelved(dir), s, 512)
  {
    merged := ReadChain(dir, s, MAX_CONTINUATION_DEPTH);
  }

  method ContinuationAncestorsIn(dir: Dir, s: Id) returns (out: seq<Id>)
    ensures out == AncestorIds(Shelved(dir), s, 512)
  {
    out := ContinuationAncestors(dir, s, MAX_CONTINUATION_DEPTH);
  }

  // ---- the two walks agree

  lemma {:induction false} WalkRoom(shelf: Shelf, cursor: Option<Id>, seen: set<Id>, room: nat)
    ensures Walk(shelf, cursor, seen, room) ==
            var more := Walk(shelf, cursor, seen, room + 1); if |more| <= room then more else more[..room]
    decreases room
  {
    if cursor.Some? && cursor.value !in seen && room > 0 {
      WalkRoom(shelf, Link(shelf, cursor.value), seen + {cursor.value}, room - 1);
    }
  }

  /** On any link graph, `read_chain_in` reads the first 512 of the session and its ancestors. */
  lemma WalksAgree(shelf: Shelf, s: Id, depth: nat)
    ensures var all := [s] + AncestorIds(shelf, s, depth);
            ChainIds(shelf, s, depth) == if |all| <= depth then all else all[..depth]
  {
    if depth > 0 { WalkRoom(shelf, Link(shelf, s), {s}, depth - 1); }
    assert {} + {s} == {s};
  }

  // ---- a walk that passes through a session, against the walk from that session

  function Elements(ids: seq<Id>): set<Id> {
    set id | id in ids
  }

  /** From any id on, a walk is the walk from that id with the earlier ones seen. */
  lemma {:induction false} WalkSplit(shelf: Shelf, cursor: Option<Id>, seen: set<Id>, room: nat, i: nat)
    requires i < |Walk(shelf, cursor, seen, room)|
    ensures var ids := Walk(shelf, cursor, seen, room);
            ids[i..] == Walk(shelf, Some(ids[i]), seen + Elements(ids[..i]), room - i)
    decreases i
  {
    var ids := Walk(shelf, cursor, seen, room);
    if i == 0 {
      assert seen + Elements(ids[..0]) == seen;
    } else {
      var rest := Walk(shelf, Link(shelf, ids[0]), seen + {ids[0]}, room - 1);
      WalkSplit(shelf, Link(shelf, ids[0]), seen + {ids[0]}, room - 1, i - 1);
      assert ids == [ids[0]] + rest;
      assert ids[..i] == [ids[0]] + rest[..i - 1];
      assert seen + Elements(ids[..i]) == seen + {ids[0]} + Elements(rest[..i - 1]);
    }
  }

  /** Having seen more, with less room, changes a walk exactly if it meets what was seen or runs out of room. */
  lemma {:induction false} WalkUnhindered(shelf: Shelf, cursor: Option<Id>, seen: set<Id>, more: set<Id>, room: nat, less: nat)
    requires seen <= more && less <= room
    ensures var ids := Walk(shelf, cursor, seen, room);
            Walk(shelf, cursor, more, less) == ids <==> (forall id | id in ids :: id !in more) && |ids| <= less
    decreases room
  {
    var ids := Walk(shelf, cursor, seen, room);
    if ids != [] && cursor.value !in more && less > 0 {
      var id := cursor.value;
      var rest := Walk(shelf, Link(shelf, id), seen + {id}, room - 1);
      WalkUnhindered(shelf, Link(shelf, id), seen + {id}, more + {id}, room - 1, less - 1);
      WalkFacts(shelf, Link(shelf, id), seen + {id}, room - 1);
      assert ids == [id] + rest;
      assert ids[1..] == rest;
    } else if ids != [] {
      assert ids[0] == cursor.value;
    }
  }

  /** The sessions before `x` on a chain do not come back in the chain from `x`, which fits after them. */
  predicate Unhindered(shelf: Shelf, newer: seq<Id>, x: Id, depth: nat) {
    (forall id | id in newer :: id !in ChainIds(shelf, x, depth)) && |newer| + |ChainIds(shelf, x, depth)| <= depth
  }

  /** A chain goes on as the chain from a session it holds if and only if nothing hinders it. */
  lemma ChainContainsIff(shelf: Shelf, head: Id, i: nat, depth: nat)
    requires i < |ChainIds(shelf, head, depth)|
    ensures var ids := ChainIds(shelf, head, depth);
            ids == ids[..i] + ChainIds(shelf, ids[i], depth) <==> Unhindered(shelf, ids[..i], ids[i], depth)
  {
    var ids := ChainIds(shelf, head, depth);
    WalkSplit(shelf, Some(head), {}, depth, i);
    assert {} + Elements(ids[..i]) == Elements(ids[..i]);
    WalkUnhindered(shelf, Some(ids[i]), {}, Elements(ids[..i]), depth, depth - i);
    assert ids == ids[..i] + ids[i..];
    assert ids == ids[..i] + ChainIds(shelf, ids[i], depth) ==> ids[i..] == ChainIds(shelf, ids[i], depth);
  }

  /** The same for one link, which needs no index: a session and what it continues. */
  lemma SuccessorChainIff(shelf: Shelf, y: Id, x: Id, depth: nat)
    requires depth > 0 && Link(shelf, y) == Some(x)
    ensures ChainIds(shelf, y, depth) == [y] + ChainIds(shelf, x, depth) <==>
            y !in ChainIds(shelf, x, depth) && |ChainIds(shelf, x, depth)| < depth
  {
    WalkUnhindered(shelf, Some(x), {}, {} + {y}, depth, depth - 1);
    var rest := Walk(shelf, Some(x), {} + {y}, depth - 1);
    assert ChainIds(shelf, y, depth) == [y] + rest;
    assert [y] + rest == [y] + ChainIds(shelf, x, depth) ==>
             ([y] + rest)[1..] == ([y] + ChainIds(shelf, x, depth))[1..];
  }

  lemma {:induction false} MergedAppend(newer: seq<Transcript>, older: seq<Transcript>)
    ensures Merged(newer + older).entries == Merged(older).entries + Merged(newer).entries
    ensures Merged(newer + older).header == Merged(older).header.Or(Merged(newer).header)
  {
    if newer == [] {
      assert newer + older == older;
    } else {
      assert (newer + older)[1..] == newer[1..] + older;
      MergedAppend(newer[1..], older);
      Associates(Merged(older).entries, Merged(newer[1..]).entries, newer[0].entries);
    }
  }

  lemma ReadIdsAppend(shelf: Shelf, a: seq<Id>, b: seq<Id>)
    ensures ReadIds(shelf, a + b) == ReadIds(shelf, a) + ReadIds(shelf, b)
  {
  }

  /** Unhindered, the conversation of a chain begins with that of each session on it, under its header. */
  lemma ConversationExtends(shelf: Shelf, head: Id, i: nat, depth: nat)
    requires i < |ChainIds(shelf, head, depth)|
    requires Unhindered(shelf, ChainIds(shelf, head, depth)[..i], ChainIds(shelf, head, depth)[i], depth)
    ensures var ids := ChainIds(shelf, head, depth);
            var newer := Merged(ReadIds(shelf, ids[..i]));
            && ChainOf(shelf, head, depth).entries == ChainOf(shelf, ids[i], depth).entries + newer.entries
            && ChainOf(shelf, head, depth).header == ChainOf(shelf, ids[i], depth).header.Or(newer.header)
  {
    var ids := ChainIds(shelf, head, depth);
    ChainContainsIff(shelf, head, i, depth);
    ReadIdsAppend(shelf, ids[..i], ChainIds(shelf, ids[i], depth));
    MergedAppend(ReadIds(shelf, ids[..i]), ReadIds(shelf, ChainIds(shelf, ids[i], depth)));
  }

  /** Hindered or not, every session on a chain has its own entries whole in the chain's conversation. */
  lemma StandsWhole(shelf: Shelf, head: Id, x: Id, depth: nat) returns (at: nat)
    requires x in ChainIds(shelf, head, depth)
    ensures var own, all := Read(shelf, x).entries, ChainOf(shelf, head, depth).entries;
            at + |own| <= |all| && all[at..at + |own|] == own
  {
    var ids := ChainIds(shelf, head, depth);
    var i :| 0 <= i < |ids| && ids[i] == x;
    MergedAround(ReadIds(shelf, ids), i);
    var ts := ReadIds(shelf, ids);
    at := Between(Merged(ts[i + 1..]).entries, ts[i].entries, Merged(ts[..i]).entries);
  }

  lemma MergedAround(ts: seq<Transcript>, i: nat)
    requires i < |ts|
    ensures Merged(ts).entries == Merged(ts[i + 1..]).entries + ts[i].entries + Merged(ts[..i]).entries
  {
    assert ts == ts[..i] + ts[i..] && ts[i..][1..] == ts[i + 1..];
    MergedAppend(ts[..i], ts[i..]);
  }

  lemma Between(a: seq<Entry>, own: seq<Entry>, c: seq<Entry>) returns (at: nat)
    ensures at + |own| <= |a + own + c| && (a + own + c)[at..at + |own|] == own
  {
    at := |a|;
  }
}
