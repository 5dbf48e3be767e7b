/**
 The listing (src-tauri/src/acp_transcript.rs): it hides every transcript another one continues. Which
 sessions stay reachable through one that is listed, on any link graph.
 */
module Listing {
  import opened Options
  import opened Conversation
  import opened TranscriptReader
  import opened Continuations

  /** `superseded_session_ids_in`. */
  ghost predicate Superseded(shelf: Shelf, id: Id) {
    exists y :: y in shelf && Link(shelf, y) == Some(id)
  }

  method SupersededIds(dir: Dir) returns (ids: set<Id>)
    ensures forall id :: id in ids <==> Superseded(Shelved(dir), id)
  {
    ids := {};
    var todo := dir.Keys;
    while todo != {}
      invariant todo <= dir.Keys
      invariant forall id | id in ids :: Superseded(Shelved(dir), id)
      invariant forall y | y in dir.Keys - todo && Link(Shelved(dir), y).Some? :: Link(Shelved(dir), y).value in ids
      decreases todo
    {
      var y :| y in todo;
      var header := ReadHeaderOf(dir, y);
      if header.Some? && header.value.continuesFrom.Some? {
        assert Link(Shelved(dir), y) == Some(header.value.continuesFrom.value);
        ids := ids + {header.value.continuesFrom.value};
      }
      todo := todo - {y};
    }
  }

  // ---- one link

  /**
   A superseded transcript is a prefix of its successor, and the older header is kept, if the successor
   is not on the superseded one's own chain and that chain leaves room for it; the chain of ids goes on
   as the superseded one's if and only if this is so.
   */
  lemma SuccessorExtends(shelf: Shelf, y: Id, x: Id, depth: nat)
    requires depth > 0 && Link(shelf, y) == Some(x)
    ensures ChainIds(shelf, y, depth) == [y] + ChainIds(shelf, x, depth) <==>
            y !in ChainIds(shelf, x, depth) && |ChainIds(shelf, x, depth)| < depth
    ensures y !in ChainIds(shelf, x, depth) && |ChainIds(shelf, x, depth)| < depth ==>
              && ChainOf(shelf, y, depth).entries == ChainOf(shelf, x, depth).entries + Read(shelf, y).entries
              && ChainOf(shelf, y, depth).header == ChainOf(shelf, x, depth).header.Or(Read(shelf, y).header)
  {
    SuccessorChainIff(shelf, y, x, depth);
    if y !in ChainIds(shelf, x, depth) && |ChainIds(shelf, x, depth)| < depth {
      ReadIdsAppend(shelf, [y], ChainIds(shelf, x, depth));
      assert ReadIds(shelf, [y]) == [Read(shelf, y)];
      MergedAppend([Read(shelf, y)], ReadIds(shelf, ChainIds(shelf, x, depth)));
    }
  }

  // ---- chains without the limit

  /** More room than there are transcripts, so that only the links decide where a walk ends. */
  function Enough(shelf: Shelf): nat {
    |shelf| + 2
  }

  function Full(shelf: Shelf, id: Id): seq<Id> {
    ChainIds(shelf, id, Enough(shelf))
  }

  lemma {:induction false} DistinctFit(ids: seq<Id>, all: set<Id>)
    requires forall id | id in ids :: id in all
    requires forall i, j | 0 <= i < j < |ids| :: ids[i] != ids[j]
    ensures |ids| <= |all|
  {
    if ids != [] {
      var n := |ids| - 1;
      assert forall id | id in ids[..n] :: id in all - {ids[n]};
      DistinctFit(ids[..n], all - {ids[n]});
    }
  }

  /** A walk never fills that room: every id but its last has a transcript. */
  lemma FullIsFull(shelf: Shelf, id: Id)
    ensures 0 < |Full(shelf, id)| < Enough(shelf) && Full(shelf, id)[0] == id
  {
    var ids := Full(shelf, id);
    WalkFacts(shelf, Some(id), {}, Enough(shelf));
    var known := ids[..|ids| - 1];
    forall k | k in known ensures k in shelf.Keys {
      var i :| 0 <= i < |known| && known[i] == k;
      assert Link(shelf, ids[i]) == Some(ids[i + 1]);
    }
    DistinctFit(known, shelf.Keys);
  }

  /** The limit only cuts: within it a walk reads the first ids of the full chain. */
  lemma {:induction false} LimitOnlyCuts(shelf: Shelf, cursor: Option<Id>, seen: set<Id>, room: nat, more: nat)
    requires room <= more
    ensures var ids := Walk(shelf, cursor, seen, more);
            Walk(shelf, cursor, seen, room) == if |ids| <= room then ids else ids[..room]
    decreases room
  {
    if cursor.Some? && cursor.value !in seen && room > 0 {
      LimitOnlyCuts(shelf, Link(shelf, cursor.value), seen + {cursor.value}, room - 1, more - 1);
    }
  }

  lemma ChainIsCutFull(shelf: Shelf, id: Id, depth: nat)
    ensures var ids := Full(shelf, id);
            ChainIds(shelf, id, depth) == if |ids| <= depth then ids else ids[..depth]
  {
    FullIsFull(shelf, id);
    if depth <= Enough(shelf) {
      LimitOnlyCuts(shelf, Some(id), {}, depth, Enough(shelf));
    } else {
      LimitOnlyCuts(shelf, Some(id), {}, Enough(shelf), depth);
    }
  }

  /** A full chain holds what its sessions continue. */
  lemma FullIsClosed(shelf: Shelf, x: Id, y: Id, z: Id)
    requires y in Full(shelf, x) && Link(shelf, y) == Some(z)
    ensures z in Full(shelf, x)
  {
    var ids := Full(shelf, x);
    FullIsFull(shelf, x);
    WalkFacts(shelf, Some(x), {}, Enough(shelf));
    WalkIsMaximal(shelf, Some(x), {}, Enough(shelf));
    var i :| 0 <= i < |ids| && ids[i] == y;
    if i < |ids| - 1 { assert ids[i + 1] == z; }
  }

  /** What comes after `x` on a full chain is on the full chain of `x`. */
  lemma {:induction false} AfterIsReached(shelf: Shelf, head: Id, i: nat, k: nat)
    requires i <= k < |Full(shelf, head)|
    ensures Full(shelf, head)[k] in Full(shelf, Full(shelf, head)[i])
    decreases k - i
  {
    var ids := Full(shelf, head);
    if i == k {
      FullIsFull(shelf, ids[i]);
    } else {
      AfterIsReached(shelf, head, i, k - 1);
      WalkFacts(shelf, Some(head), {}, Enough(shelf));
      FullIsClosed(shelf, ids[i], ids[k - 1], ids[k]);
    }
  }

  // ---- which sessions are hidden

  /** A listed session whose chain holds `x`. */
  ghost predicate Shows(shelf: Shelf, head: Id, x: Id, depth: nat) {
    head in shelf && !Superseded(shelf, head) && x in ChainIds(shelf, head, depth)
  }

  ghost predicate Covered(shelf: Shelf, x: Id, depth: nat) {
    exists head :: Shows(shelf, head, x, depth)
  }

  /** `x` lies on a cycle, and no session outside the cycle leads into it. */
  ghost predicate OnClosedCycle(shelf: Shelf, x: Id) {
    Superseded(shelf, x) && forall h | h in shelf && x in Full(shelf, h) :: h in Full(shelf, x)
  }

  /** Climbing from a session outside the chain of `x` ends at one nothing continues. */
  lemma {:induction false} Climb(shelf: Shelf, x: Id, h: Id) returns (head: Id)
    requires h in shelf && x in Full(shelf, h) && h !in Full(shelf, x)
    ensures Shows(shelf, head, x, Enough(shelf))
    decreases Enough(shelf) - |Full(shelf, h)|
  {
    if !Superseded(shelf, h) {
      head := h;
    } else {
      var y :| y in shelf && Link(shelf, y) == Some(h);
      if y in Full(shelf, x) { FullIsClosed(shelf, x, y, h); }
      NotAbove(shelf, x, h, y);
      FullIsFull(shelf, h);
      SuccessorChainIff(shelf, y, h, Enough(shelf));
      FullIsFull(shelf, y);
      head := Climb(shelf, x, y);
    }
  }

  /** A session that continues `h` is not on the chain from `h` unless it is on that from `x`. */
  lemma NotAbove(shelf: Shelf, x: Id, h: Id, y: Id)
    requires x in Full(shelf, h) && Link(shelf, y) == Some(h) && y !in Full(shelf, x)
    ensures y !in Full(shelf, h)
  {
    var ids := Full(shelf, h);
    FullIsFull(shelf, h);
    WalkFacts(shelf, Some(h), {}, Enough(shelf));
    var i :| 0 <= i < |ids| && ids[i] == x;
    forall k | 0 <= k < |ids| ensures ids[k] != y {
      if k >= i {
        AfterIsReached(shelf, h, i, k);
      } else {
        assert Link(shelf, ids[k]) == Some(ids[k + 1]) && ids[k + 1] != ids[0];
      }
    }
  }

  /** A session on a closed cycle is only on chains of superseded sessions. */
  lemma ClosedCycleHides(shelf: Shelf, x: Id, h: Id)
    requires OnClosedCycle(shelf, x) && h in shelf && x in Full(shelf, h)
    ensures Superseded(shelf, h)
  {
    var ids := Full(shelf, x);
    FullIsFull(shelf, x);
    WalkFacts(shelf, Some(x), {}, Enough(shelf));
    var i :| 0 <= i < |ids| && ids[i] == h;
    if i > 0 { assert Link(shelf, ids[i - 1]) == Some(ids[i]); }
  }

  /** Limit aside, a session is hidden for good if and only if it lies on a cycle nothing outside leads into. */
  lemma HiddenIffOnClosedCycle(shelf: Shelf, x: Id)
    requires x in shelf
    ensures Covered(shelf, x, Enough(shelf)) <==> !OnClosedCycle(shelf, x)
  {
    FullIsFull(shelf, x);
    if OnClosedCycle(shelf, x) {
      forall h | Shows(shelf, h, x, Enough(shelf)) ensures false {
        ClosedCycleHides(shelf, x, h);
      }
    } else if !Superseded(shelf, x) {
      assert Shows(shelf, x, x, Enough(shelf));
    } else {
      var h :| h in shelf && x in Full(shelf, h) && h !in Full(shelf, x);
      var head := Climb(shelf, x, h);
    }
  }

  /** Under a limit, exactly the sessions stay reachable that stand within it on some listed session's chain. */
  lemma CoveredIffWithin(shelf: Shelf, x: Id, depth: nat)
    ensures Covered(shelf, x, depth) <==>
            exists head, i :: head in shelf && !Superseded(shelf, head) && 0 <= i < |Full(shelf, head)| &&
                              Full(shelf, head)[i] == x && i < depth
  {
    if Covered(shelf, x, depth) {
      var head :| Shows(shelf, head, x, depth);
      ChainIsCutFull(shelf, head, depth);
      var i :| 0 <= i < |ChainIds(shelf, head, depth)| && ChainIds(shelf, head, depth)[i] == x;
      assert Full(shelf, head)[i] == x;
    }
    if head, i :| head in shelf && !Superseded(shelf, head) && 0 <= i < |Full(shelf, head)| &&
                  Full(shelf, head)[i] == x && i < depth
    {
      ChainIsCutFull(shelf, head, depth);
      assert ChainIds(shelf, head, depth)[i] == x;
      assert Shows(shelf, head, x, depth);
    }
  }

  /**
   Nothing a listing hides is lost. Whatever the rest of the directory looks like, if no chain that holds
   a session is longer than the limit, the session is on the chain of a listed one if and only if it does
   not lie on a cycle that nothing outside leads into; and on every chain that holds it its entries stand
   whole and in order in the conversation shown, which, if the session is on no cycle at all, begins
   with the session's own conversation.
   */
  lemma ListingCoversEverything(shelf: Shelf, x: Id, depth: nat)
    requires x in shelf
    requires forall h | h in shelf && x in Full(shelf, h) :: |Full(shelf, h)| <= depth
    ensures Covered(shelf, x, depth) <==> !OnClosedCycle(shelf, x)
    ensures forall h | Shows(shelf, h, x, depth) ::
              exists at: nat :: StandsAt(Read(shelf, x).entries, ChainOf(shelf, h, depth).entries, at)
    ensures !OnCycle(shelf, x) ==> Covered(shelf, x, depth)
    ensures !OnCycle(shelf, x) ==> forall h | Shows(shelf, h, x, depth) ::
              ChainOf(shelf, x, depth).entries <= ChainOf(shelf, h, depth).entries
  {
    HiddenIffOnClosedCycle(shelf, x);
    forall h | h in shelf ensures x in Full(shelf, h) <==> x in ChainIds(shelf, h, depth) {
      ChainIsCutFull(shelf, h, depth);
      NeverCut(shelf, x, h, depth);
    }
    assert forall h :: Shows(shelf, h, x, depth) <==> Shows(shelf, h, x, Enough(shelf));
    forall h | Shows(shelf, h, x, depth)
      ensures exists at: nat :: StandsAt(Read(shelf, x).entries, ChainOf(shelf, h, depth).entries, at)
    {
      var at := StandsWhole(shelf, h, x, depth);
      assert StandsAt(Read(shelf, x).entries, ChainOf(shelf, h, depth).entries, at);
    }
    if !OnCycle(shelf, x) {
      ClosedCycleIsCycle(shelf, x);
      forall h | Shows(shelf, h, x, depth)
        ensures ChainOf(shelf, x, depth).entries <= ChainOf(shelf, h, depth).entries
      {
        OffCycleExtends(shelf, x, h, depth);
      }
    }
  }

  /** A session of its own chain continues `x`. */
  ghost predicate OnCycle(shelf: Shelf, x: Id) {
    exists y :: y in Full(shelf, x) && Link(shelf, y) == Some(x)
  }

  lemma ClosedCycleIsCycle(shelf: Shelf, x: Id)
    ensures OnClosedCycle(shelf, x) ==> OnCycle(shelf, x)
  {
    if OnClosedCycle(shelf, x) {
      var y :| y in shelf && Link(shelf, y) == Some(x);
      FullIsFull(shelf, y);
      FullIsClosed(shelf, y, y, x);
    }
  }

  /** If `x` is on no cycle, the sessions before it on a chain are not on its own. */
  lemma {:induction false} BeforeIsElsewhere(shelf: Shelf, x: Id, h: Id, i: nat, j: nat)
    requires j < i < |Full(shelf, h)| && Full(shelf, h)[i] == x && !OnCycle(shelf, x)
    ensures Full(shelf, h)[j] !in Full(shelf, x)
    decreases i - j
  {
    var ids := Full(shelf, h);
    WalkFacts(shelf, Some(h), {}, Enough(shelf));
    assert Link(shelf, ids[j]) == Some(ids[j + 1]);
    if j + 1 < i { BeforeIsElsewhere(shelf, x, h, i, j + 1); }
    if ids[j] in Full(shelf, x) { FullIsClosed(shelf, x, ids[j], ids[j + 1]); }
  }

  /** Sessions that lead to one another outside the chain of `x`, and that chain, fit the room there is. */
  lemma BothFit(shelf: Shelf, newer: seq<Id>, x: Id)
    requires forall id | id in newer :: id in shelf && id !in Full(shelf, x)
    requires forall i, j | 0 <= i < j < |newer| :: newer[i] != newer[j]
    ensures |newer| + |Full(shelf, x)| <= Enough(shelf)
  {
    var ids := Full(shelf, x);
    FullIsFull(shelf, x);
    WalkFacts(shelf, Some(x), {}, Enough(shelf));
    var known := ids[..|ids| - 1];
    forall k | k in known ensures k in shelf.Keys {
      var i :| 0 <= i < |known| && known[i] == k;
      assert Link(shelf, ids[i]) == Some(ids[i + 1]);
    }
    var all := newer + known;
    forall i, j | 0 <= i < j < |all| ensures all[i] != all[j] {
      if i < |newer| <= j { assert all[i] in newer && all[j] == ids[j - |newer|]; }
    }
    DistinctFit(all, shelf.Keys);
  }

  lemma OffCycleExtends(shelf: Shelf, x: Id, h: Id, depth: nat)
    requires !OnCycle(shelf, x) && x in Full(shelf, h) && |Full(shelf, h)| <= depth
    ensures ChainOf(shelf, x, depth).entries <= ChainOf(shelf, h, depth).entries
  {
    var ids := Full(shelf, h);
    var i :| 0 <= i < |ids| && ids[i] == x;
    OffCycleUnhindered(shelf, x, h, i);
    ChainContainsIff(shelf, h, i, Enough(shelf));
    ChainIsCutFull(shelf, h, depth);
    ChainIsCutFull(shelf, x, depth);
    ConversationExtends(shelf, h, i, depth);
  }

  lemma OffCycleUnhindered(shelf: Shelf, x: Id, h: Id, i: nat)
    requires !OnCycle(shelf, x) && i < |Full(shelf, h)| && Full(shelf, h)[i] == x
    ensures Unhindered(shelf, Full(shelf, h)[..i], x, Enough(shelf))
  {
    var ids := Full(shelf, h);
    var newer := ids[..i];
    WalkFacts(shelf, Some(h), {}, Enough(shelf));
    forall id | id in newer ensures id in shelf && id !in Full(shelf, x) {
      var j :| 0 <= j < i && newer[j] == id;
      assert Link(shelf, ids[j]) == Some(ids[j + 1]);
      BeforeIsElsewhere(shelf, x, h, i, j);
    }
    BothFit(shelf, newer, x);
  }

  predicate StandsAt(own: seq<Entry>, all: seq<Entry>, at: nat) {
    at + |own| <= |all| && all[at..at + |own|] == own
  }

  lemma NeverCut(shelf: Shelf, x: Id, h: Id, depth: nat)
    requires x in Full(shelf, h) ==> |Full(shelf, h)| <= depth
    ensures x in Full(shelf, h) <==> x in ChainIds(shelf, h, depth)
  {
    ChainIsCutFull(shelf, h, depth);
  }

  /** Two sessions that continue each other are hidden if and only if nothing else leads to them. */
  lemma MutualPairHiddenIff(shelf: Shelf, a: Id, b: Id)
    requires a != b && a in shelf && b in shelf && Link(shelf, a) == Some(b) && Link(shelf, b) == Some(a)
    ensures Covered(shelf, a, Enough(shelf)) <==>
            exists h :: h in shelf && h != a && h != b && a in Full(shelf, h)
  {
    HiddenIffOnClosedCycle(shelf, a);
    PairChain(shelf, a, b);
    assert forall h :: h in Full(shelf, a) <==> h == a || h == b;
  }

  lemma PairChain(shelf: Shelf, a: Id, b: Id)
    requires a != b && Link(shelf, a) == Some(b) && Link(shelf, b) == Some(a)
    ensures Full(shelf, a) == [a, b]
  {
    var seen := {} + {a};
    assert a in seen + {b};
    assert Walk(shelf, Some(a), seen + {b}, Enough(shelf) - 2) == [];
    assert Walk(shelf, Some(b), seen, Enough(shelf) - 1) == [b] + [];
    assert Full(shelf, a) == [a] + [b];
  }

  // ---- the limit

  /** Of a line longer than the limit only the newest sessions are read from its newest one. */
  lemma LimitHidesTheOldest(shelf: Shelf, line: seq<Id>, depth: nat)
    requires |line| > depth && forall i, j | 0 <= i < j < |line| :: line[i] != line[j]
    requires forall i | 0 <= i < |line| - 1 :: Link(shelf, line[i]) == Some(line[i + 1])
    ensures ChainIds(shelf, line[0], depth) == line[..depth]
    ensures line[|line| - 1] !in ChainIds(shelf, line[0], depth)
  {
    LineWalk(shelf, line, 0, {}, depth);
  }

  lemma {:induction false} LineWalk(shelf: Shelf, line: seq<Id>, from: nat, seen: set<Id>, room: nat)
    requires from + room < |line| && forall i, j | 0 <= i < j < |line| :: line[i] != line[j]
    requires forall i | 0 <= i < |line| - 1 :: Link(shelf, line[i]) == Some(line[i + 1])
    requires forall i | from <= i < |line| :: line[i] !in seen
    ensures Walk(shelf, Some(line[from]), seen, room) == line[from..from + room]
    decreases room
  {
    if room > 0 {
      LineWalk(shelf, line, from + 1, seen + {line[from]}, room - 1);
      assert line[from..from + room] == [line[from]] + line[from + 1..from + room];
    }
  }
}
