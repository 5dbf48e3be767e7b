/**
 Snapshot refs (browser-agent/src/index.ts): the table a snapshot replaces, the token it hands out,
 and the floors that make a ref stop resolving once the page may have moved.
 */
module SnapshotRefs {
  import opened Options
  import opened SnapshotCap

  type Element = nat

  // ---- tokens

  function Digit(d: nat): char
    requires d < 10
  {
    ('0' as int + d) as char
  }

  /** Decimal rendering. */
  function Dec(n: nat): (s: string)
    ensures s != [] && forall c | c in s :: '0' <= c <= '9'
  {
    if n < 10 then [Digit(n)] else Dec(n / 10) + [Digit(n % 10)]
  }

  function Undec(s: string): int {
    if s == [] then 0 else 10 * Undec(s[..|s| - 1]) + (s[|s| - 1] as int - '0' as int)
  }

  lemma {:induction false} UndecDec(n: nat)
    ensures Undec(Dec(n)) == n
  {
    if n < 10 {
      assert [Digit(n)][..0] == [];
    } else {
      UndecDec(n / 10);
      assert (Dec(n / 10) + [Digit(n % 10)])[..|Dec(n / 10)|] == Dec(n / 10);
    }
  }

  /** The world's generation, the snapshot's number, and the host's epoch if it sent one. */
  function Token(generation: string, seqNo: nat, epoch: Option<string>): string {
    generation + "." + Dec(seqNo) + if epoch.Some? then "." + epoch.value else ""
  }

  function UpToDot(s: string): string {
    if s == [] || s[0] == '.' then [] else [s[0]] + UpToDot(s[1..])
  }

  lemma {:induction false} UpToDotStops(digits: string, rest: string)
    requires forall c | c in digits :: c != '.'
    requires rest == [] || rest[0] == '.'
    ensures UpToDot(digits + rest) == digits
  {
    if digits == [] {
      assert digits + rest == rest;
    } else {
      assert digits[0] in digits && forall c | c in digits[1..] :: c in digits;
      assert (digits + rest)[1..] == digits[1..] + rest;
      UpToDotStops(digits[1..], rest);
    }
  }

  /** Two snapshots of one world never hand out the same token, whatever epochs the host chooses. */
  lemma TokensNeverRepeat(generation: string, n: nat, m: nat, e: Option<string>, f: Option<string>)
    ensures Token(generation, n, e) == Token(generation, m, f) ==> n == m
    ensures Token(generation, n, e) != ""
  {
    var tn := if e.Some? then "." + e.value else "";
    var tm := if f.Some? then "." + f.value else "";
    var skip := |generation| + 1;
    assert Token(generation, n, e)[skip..] == Dec(n) + tn;
    assert Token(generation, m, f)[skip..] == Dec(m) + tm;
    UpToDotStops(Dec(n), tn);
    UpToDotStops(Dec(m), tm);
    UndecDec(n);
    UndecDec(m);
  }

  /** An empty epoch is one the host chose: its token is not the token of a snapshot without an epoch. */
  lemma EpochsAreTold(generation: string, n: nat, e: Option<string>, f: Option<string>)
    ensures Token(generation, n, e) == Token(generation, n, f) <==> e == f
    ensures Token(generation, n, None) == generation + "." + Dec(n)
    ensures e.Some? ==> Token(generation, n, e) == generation + "." + Dec(n) + "." + e.value
  {
    var own := generation + "." + Dec(n);
    var te := if e.Some? then "." + e.value else "";
    var tf := if f.Some? then "." + f.value else "";
    assert (own + te)[|own|..] == te && (own + tf)[|own|..] == tf;
    assert own + "" == own;
    if e.Some? {
      assert te[1..] == e.value && own + ("." + e.value) == own + "." + e.value;
    }
    if f.Some? { assert tf[1..] == f.value; }
  }

  // ---- the module's state and the page it looks at

  /** What the page can be seen to be. `entryId` is absent where the engine has no Navigation API. */
  datatype Page = Page(href: string, historyLength: nat, entryId: Option<nat>, connected: set<Element>)

  datatype World = World(
    refs: map<Ref, Element>, superseded: set<Ref>, supersededToken: string, cutAway: set<Ref>,
    takenAt: string, historyLength: nat, refsNavTicks: nat, navTicks: nat, entryId: Option<nat>,
    snapshotSeq: nat, token: string)

  const FRESH_WORLD := World(map[], {}, "", {}, "", 0, 0, 0, None, 0, "")

  /** The tree a snapshot reads: its refs, the rendering, and the renderer's line map. */
  datatype Tree = Tree(refs: map<Ref, Element>, rendered: string, lines: LineMap)

  function Kept(tree: Tree, maxChars: Option<int>): map<Ref, Element> {
    if !Cuts(tree.rendered, maxChars) then tree.refs
    else
      var shown := Shown(tree.lines, tree.rendered, Truncate(tree.rendered, maxChars));
      map r | r in tree.refs && r in shown :: tree.refs[r]
  }

  function Snapshotted(w: World, generation: string, page: Page, tree: Tree, maxChars: Option<int>, epoch: Option<string>): World {
    var kept := Kept(tree, maxChars);
    World(kept, w.refs.Keys, w.token, tree.refs.Keys - kept.Keys, page.href, page.historyLength,
          w.navTicks, w.navTicks, page.entryId, w.snapshotSeq + 1, Token(generation, w.snapshotSeq + 1, epoch))
  }

  predicate RefsAreCurrent(w: World, page: Page, token: string) {
    && w.token != "" && token == w.token
    && page.href == w.takenAt && page.historyLength == w.historyLength
    && w.navTicks == w.refsNavTicks && page.entryId == w.entryId
  }

  function ElementForRef(w: World, page: Page, token: string, ref: Ref): Option<Element> {
    if RefsAreCurrent(w, page, token) && ref in w.refs && w.refs[ref] in page.connected
    then Some(w.refs[ref]) else None
  }

  /** `stale`'s special answer: the caller's own cap unmade this ref. */
  predicate BlamesTheCap(w: World, page: Page, token: string, ref: Ref) {
    && ref in w.cutAway && ref in w.superseded
    && (RefsAreCurrent(w, page, token) || (token == w.supersededToken && page.href == w.takenAt))
  }

  /** The module variables, rewritten by each snapshot. */
  class Agent {
    const generation: string
    var refs: map<Ref, Element>
    var superseded: set<Ref>
    var supersededToken: string
    var cutAway: set<Ref>
    var refsTakenAt: string
    var refsHistoryLength: nat
    var refsNavTicks: nat
    var navTicks: nat
    var refsEntryId: Option<nat>
    var snapshotSeq: nat
    var refsToken: string

    function Value(): World
      reads this
    {
      World(refs, superseded, supersededToken, cutAway, refsTakenAt, refsHistoryLength,
            refsNavTicks, navTicks, refsEntryId, snapshotSeq, refsToken)
    }

    constructor (generation: string)
      ensures Value() == FRESH_WORLD && this.generation == generation
    {
      this.generation := generation;
      refs, superseded, supersededToken, cutAway := map[], {}, "", {};
      refsTakenAt, refsHistoryLength, refsNavTicks, navTicks, refsEntryId := "", 0, 0, 0, None;
      snapshotSeq, refsToken := 0, "";
    }

    /** Whatever the cap cuts from the text is cut from the table too. */
    static method CutRefs(tree: Tree, maxChars: Option<int>) returns (text: string, next: map<Ref, Element>, cut: set<Ref>)
      ensures text == Truncate(tree.rendered, maxChars)
      ensures next == Kept(tree, maxChars) && cut == tree.refs.Keys - next.Keys
    {
      text, next, cut := Truncate(tree.rendered, maxChars), tree.refs, {};
      if !Cuts(tree.rendered, maxChars) { return; }
      var shown := ShownRefs(tree.lines, tree.rendered, text);
      var todo := next.Keys;
      while todo != {}
        invariant todo <= tree.refs.Keys
        invariant next == map r | r in tree.refs && (r in todo || r in shown) :: tree.refs[r]
        invariant cut == tree.refs.Keys - next.Keys
        decreases todo
      {
        var ref :| ref in todo;
        if ref !in shown { next, cut := next - {ref}, cut + {ref}; }
        todo := todo - {ref};
      }
    }

    /** The new table and the floors it stands on; the old table survives as names. */
    method TakeOver(page: Page, next: map<Ref, Element>, cut: set<Ref>)
      modifies this
      ensures Value() == old(Value()).(refs := next, superseded := old(refs).Keys, supersededToken := old(refsToken),
                                       cutAway := cut, takenAt := page.href, historyLength := page.historyLength,
                                       refsNavTicks := old(navTicks), entryId := page.entryId)
    {
      superseded, supersededToken := refs.Keys, refsToken;
      refs, cutAway := next, cut;
      refsTakenAt, refsHistoryLength, refsNavTicks, refsEntryId := page.href, page.historyLength, navTicks, page.entryId;
    }

    method Snapshot(page: Page, tree: Tree, maxChars: Option<int>, epoch: Option<string>)
      returns (token: string, text: string, refsCount: nat, truncated: bool)
      modifies this
      ensures Value() == Snapshotted(old(Value()), generation, page, tree, maxChars, epoch)
      ensures token == refsToken && text == Truncate(tree.rendered, maxChars)
      ensures refsCount == |refs| && truncated == Cuts(tree.rendered, maxChars)
    {
      var next, cut;
      text, next, cut := CutRefs(tree, maxChars);
      TakeOver(page, next, cut);
      snapshotSeq := snapshotSeq + 1;
      refsToken := Token(generation, snapshotSeq, epoch);
      token, refsCount, truncated := refsToken, |refs|, Cuts(tree.rendered, maxChars);
    }

    /** `popstate` or `hashchange`. */
    method NavTick()
      modifies this`navTicks
      ensures navTicks == old(navTicks) + 1
    {
      navTicks := navTicks + 1;
    }
  }

  // ---- every run of snapshots and navigations

  /** A snapshot as the caller remembers it. */
  datatype Shot = Shot(token: string, epoch: Option<string>, tree: Tree, maxChars: Option<int>, page: Page)

  datatype Event =
    | Snapshot(tree: Tree, maxChars: Option<int>, epoch: Option<string>)
    | Push(href: string, historyLength: nat)  // the length stops growing at the engine's cap
    | Replace(href: string)
    | Traverse(href: string, entry: nat)      // back to an entry minted earlier; fires popstate
    | Tick
    | Connect(e: Element)
    | Disconnect(e: Element)

  /**
   `moved`: a push, a replace or a traversal since the last snapshot; `ticked`: a traversal or a hash
   change since. Entry ids are minted in order.
   */
  datatype State = State(
    generation: string, w: World, page: Page, minted: nat, shots: seq<Shot>, moved: bool, ticked: bool)

  function Moved(s: State, page: Page): State {
    s.(page := page, moved := true)
  }

  function Act(s: State, e: Event): State {
    match e
    case Snapshot(tree, maxChars, epoch) =>
      var w := Snapshotted(s.w, s.generation, s.page, tree, maxChars, epoch);
      s.(w := w, shots := s.shots + [Shot(w.token, epoch, tree, maxChars, s.page)], moved := false, ticked := false)
    case Push(href, length) =>
      Moved(s, s.page.(href := href, historyLength := length,
                       entryId := if s.page.entryId.Some? then Some(s.minted) else None)).(minted := s.minted + 1)
    case Replace(href) =>
      Moved(s, s.page.(href := href,
                       entryId := if s.page.entryId.Some? then Some(s.minted) else None)).(minted := s.minted + 1)
    case Traverse(href, entry) =>
      var id := if entry < s.minted then entry else 0;
      Moved(s, s.page.(href := href, entryId := if s.page.entryId.Some? then Some(id) else None))
        .(w := s.w.(navTicks := s.w.navTicks + 1), ticked := true)
    case Tick => s.(w := s.w.(navTicks := s.w.navTicks + 1), ticked := true)
    case Connect(e) => s.(page := s.page.(connected := s.page.connected + {e}))
    case Disconnect(e) => s.(page := s.page.(connected := s.page.connected - {e}))
  }

  function Run(s: State, es: seq<Event>): State {
    if es == [] then s else Act(Run(s, es[..|es| - 1]), es[|es| - 1])
  }

  /** A new document: nothing snapshotted, entry 0 minted. */
  function Loaded(generation: string, href: string, historyLength: nat, api: bool): State {
    State(generation, FRESH_WORLD, Page(href, historyLength, if api then Some(0) else None, {}), 1, [], false, false)
  }

  ghost predicate RunInv(s: State, api: bool) {
    && s.w.snapshotSeq == |s.shots|
    && (forall i | 0 <= i < |s.shots| :: s.shots[i].token == Token(s.generation, i + 1, s.shots[i].epoch))
    && (s.page.entryId.Some? <==> api) && (api ==> s.page.entryId.value < s.minted)
    && s.w.refsNavTicks <= s.w.navTicks
    && (s.shots == [] ==> s.w.token == "" && s.w.cutAway == {})
    && (s.shots != [] ==> LastShot(s, api))
    && (|s.shots| >= 2 ==> var before := s.shots[|s.shots| - 2];
                           s.w.superseded == Kept(before.tree, before.maxChars).Keys && s.w.supersededToken == before.token)
    && (|s.shots| < 2 ==> s.w.superseded == {})
    && (s.shots == [] ==> s.w.refs == map[])
  }

  predicate LastShot(s: State, api: bool)
    requires s.shots != []
  {
    var shot := s.shots[|s.shots| - 1];
    && s.w.token == shot.token
    && s.w.takenAt == shot.page.href && s.w.historyLength == shot.page.historyLength
    && (s.ticked <==> s.w.navTicks > s.w.refsNavTicks)
    && s.w.refs == Kept(shot.tree, shot.maxChars)
    && s.w.cutAway == shot.tree.refs.Keys - s.w.refs.Keys
    && (s.w.entryId.Some? <==> api) && (api ==> s.w.entryId.value < s.minted)
    && (!s.moved ==> s.page.href == s.w.takenAt && s.page.historyLength == s.w.historyLength && s.page.entryId == s.w.entryId)
    && (api && s.moved && s.page.entryId.Some? && s.w.navTicks == s.w.refsNavTicks ==> s.page.entryId.value > s.w.entryId.value)
  }

  lemma SnapshotKeepsInv(s: State, e: Event, api: bool)
    requires RunInv(s, api) && e.Snapshot?
    ensures RunInv(Act(s, e), api)
  {
    assert Act(s, e).shots[|s.shots|].token == Token(s.generation, |s.shots| + 1, e.epoch);
  }

  /** What no event but a snapshot touches. */
  lemma MoveLeavesTable(s: State, e: Event)
    requires !e.Snapshot?
    ensures var t := Act(s, e);
            && t.shots == s.shots && t.generation == s.generation && t.w == s.w.(navTicks := t.w.navTicks)
            && t.w.navTicks >= s.w.navTicks
  {
  }

  lemma MoveKeepsInv(s: State, e: Event, api: bool)
    requires RunInv(s, api) && !e.Snapshot?
    ensures RunInv(Act(s, e), api)
  {
    MoveLeavesTable(s, e);
    if s.shots != [] { MoveKeepsLastShot(s, e, api); }
  }

  lemma MoveKeepsLastShot(s: State, e: Event, api: bool)
    requires s.shots != [] && LastShot(s, api) && !e.Snapshot? && s.w.refsNavTicks <= s.w.navTicks
    requires (s.page.entryId.Some? <==> api) && (api ==> s.page.entryId.value < s.minted)
    ensures Act(s, e).shots == s.shots && LastShot(Act(s, e), api)
  {
  }

  lemma ActKeepsInv(s: State, e: Event, api: bool)
    requires RunInv(s, api)
    ensures RunInv(Act(s, e), api)
  {
    if e.Snapshot? { SnapshotKeepsInv(s, e, api); } else { MoveKeepsInv(s, e, api); }
  }

  lemma {:induction false} RunKeepsInv(generation: string, href: string, length: nat, api: bool, es: seq<Event>)
    ensures RunInv(Run(Loaded(generation, href, length, api), es), api)
    ensures Run(Loaded(generation, href, length, api), es).generation == generation
  {
    if es != [] {
      RunKeepsInv(generation, href, length, api, es[..|es| - 1]);
      ActKeepsInv(Run(Loaded(generation, href, length, api), es[..|es| - 1]), es[|es| - 1], api);
    }
  }

  /**
   A ref resolves only to what the caller was last shown. Over any run, a token and a ref that resolve
   are the latest snapshot's and no earlier one's; the element is the one that snapshot mapped the ref
   to and is still connected; if its text was cut, the ref's line lies wholly inside what was returned;
   the address and the history's length are what they were, with no traversal or hash change since; and
   where the engine has entry ids there has been no push and no replace either.
   */
  lemma RefResolvesOnlyToTheLastSnapshot(
    generation: string, href: string, length: nat, api: bool, es: seq<Event>, token: string, ref: Ref)
    ensures var s := Run(Loaded(generation, href, length, api), es);
            var e := ElementForRef(s.w, s.page, token, ref);
            e.Some? ==>
              && s.shots != []
              && var shot := s.shots[|s.shots| - 1];
              && token == shot.token && (forall i | 0 <= i < |s.shots| - 1 :: s.shots[i].token != token)
              && ref in shot.tree.refs && shot.tree.refs[ref] == e.value && e.value in s.page.connected
              && (Cuts(shot.tree.rendered, shot.maxChars) ==>
                    var text := Truncate(shot.tree.rendered, shot.maxChars);
                    && ref in Shown(shot.tree.lines, shot.tree.rendered, text)
                    && ref in Inside(shot.tree.lines, shot.tree.rendered, |text|))
              && s.page.href == shot.page.href && s.page.historyLength == shot.page.historyLength
              && !s.ticked && (api ==> !s.moved)
  {
    RunKeepsInv(generation, href, length, api, es);
    var s := Run(Loaded(generation, href, length, api), es);
    if ElementForRef(s.w, s.page, token, ref).Some? {
      var n := |s.shots| - 1;
      var shot := s.shots[n];
      TruncateIsCappedPrefix(shot.tree.rendered, shot.maxChars);
      ShownIsInside(shot.tree.lines, shot.tree.rendered, Truncate(shot.tree.rendered, shot.maxChars));
      forall i | 0 <= i < n ensures s.shots[i].token != token {
        TokensNeverRepeat(s.generation, i + 1, n + 1, s.shots[i].epoch, s.shots[n].epoch);
      }
    }
  }

  /**
   When a ref resolves, exactly, in an engine with entry ids or without: the token is the latest, the cap
   left the ref, its element is connected, address and history length are what they were, nothing has
   traversed or changed the hash, and, where entries have ids, nothing was pushed or replaced.
   */
  lemma RefResolvesIff(
    generation: string, href: string, length: nat, api: bool, es: seq<Event>, token: string, ref: Ref)
    ensures var s := Run(Loaded(generation, href, length, api), es);
            ElementForRef(s.w, s.page, token, ref).Some? <==>
              && s.shots != []
              && var shot := s.shots[|s.shots| - 1];
              && token == shot.token
              && ref in Kept(shot.tree, shot.maxChars) && shot.tree.refs[ref] in s.page.connected
              && s.page.href == shot.page.href && s.page.historyLength == shot.page.historyLength
              && !s.ticked && (api ==> !s.moved)
  {
    RunKeepsInv(generation, href, length, api, es);
    var s := Run(Loaded(generation, href, length, api), es);
    if s.shots != [] {
      var n := |s.shots| - 1;
      TokensNeverRepeat(s.generation, n + 1, n + 1, s.shots[n].epoch, None);
    }
  }

  lemma RunSnoc(s: State, es: seq<Event>, e: Event)
    ensures Run(s, es + [e]) == Act(Run(s, es), e)
  {
    assert (es + [e])[..|es|] == es;
  }

  /** Without entry ids a replace there and back goes unnoticed, as the source admits. */
  lemma ReplaceAndBackIsUnseen(generation: string, href: string, other: string, length: nat, ref: Ref, e: Element)
    ensures var tree := Tree(map[ref := e], "", map[]);
            var s := Run(Loaded(generation, href, length, false),
                         [Connect(e), Snapshot(tree, None, None), Replace(other), Replace(href)]);
            s.moved && ElementForRef(s.w, s.page, s.w.token, ref) == Some(e)
  {
    var tree := Tree(map[ref := e], "", map[]);
    var es := [Connect(e), Snapshot(tree, None, None), Replace(other), Replace(href)];
    var s0 := Loaded(generation, href, length, false);
    var s1 := Act(s0, Connect(e));
    var s2 := Act(s1, Snapshot(tree, None, None));
    var s3 := Act(s2, Replace(other));
    RunSnoc(s0, [], Connect(e));
    RunSnoc(s0, [Connect(e)], Snapshot(tree, None, None));
    RunSnoc(s0, [Connect(e), Snapshot(tree, None, None)], Replace(other));
    RunSnoc(s0, [Connect(e), Snapshot(tree, None, None), Replace(other)], Replace(href));
    assert es == [Connect(e), Snapshot(tree, None, None), Replace(other)] + [Replace(href)];
    assert [Connect(e), Snapshot(tree, None, None), Replace(other)] == [Connect(e), Snapshot(tree, None, None)] + [Replace(other)];
    assert [Connect(e), Snapshot(tree, None, None)] == [Connect(e)] + [Snapshot(tree, None, None)];
    assert [Connect(e)] == [] + [Connect(e)];
    TokensNeverRepeat(generation, 1, 1, None, None);
  }

  /**
   When the cap is blamed, exactly: the ref was in the latest tree and cut from it, the snapshot before had
   handed it out, and the caller quotes that one at an unchanged address, or the latest one on a page that
   has not moved.
   */
  lemma CapIsBlamedRightly(generation: string, href: string, length: nat, api: bool, es: seq<Event>, token: string, ref: Ref)
    ensures var s := Run(Loaded(generation, href, length, api), es);
            BlamesTheCap(s.w, s.page, token, ref) <==>
              && |s.shots| >= 2
              && var shot, before := s.shots[|s.shots| - 1], s.shots[|s.shots| - 2];
              && ref in shot.tree.refs && ref !in Kept(shot.tree, shot.maxChars)
              && ref in Kept(before.tree, before.maxChars)
              && s.page.href == shot.page.href
              && (token == before.token ||
                  (token == shot.token && s.page.historyLength == shot.page.historyLength && !s.ticked && (api ==> !s.moved)))
  {
    RunKeepsInv(generation, href, length, api, es);
    var s := Run(Loaded(generation, href, length, api), es);
    if s.shots != [] {
      var n := |s.shots| - 1;
      TokensNeverRepeat(s.generation, n + 1, n + 1, s.shots[n].epoch, None);
    }
  }
}
