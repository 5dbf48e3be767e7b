/**
 The console channel's rate budget (src/browser-injected/helper.js): `forwardConsole`,
 `noteDropped`, `flushDropped` and `clip`.
 */
module ConsoleBudget {
  import opened Options

  const BUDGET: nat := 200
  const WINDOW_MS: nat := 1000

  /** A posted message: a console entry, with the dropped count it carries, or a bare report. */
  datatype Post = Entry(at: nat, dropped: nat) | Report(dropped: nat)

  /**
   The variables, what has been posted and offered, and the engine's pending timeouts. `timer` is the
   variable; a page hide clears it without clearing the timeout it names.
   */
  datatype Console = Console(
    windowStart: nat, sent: nat, dropped: nat, timer: Option<nat>, timeouts: set<nat>, nextTimeout: nat,
    posts: seq<Post>, offered: nat)

  const QUIET := Console(0, 0, 0, None, {}, 0, [], 0)

  function Noted(c: Console): Console {
    var d := c.(dropped := c.dropped + 1);
    if c.timer.Some? then d
    else d.(timer := Some(c.nextTimeout), timeouts := c.timeouts + {c.nextTimeout}, nextTimeout := c.nextTimeout + 1)
  }

  function Flushed(c: Console): Console {
    var d := c.(timer := None);
    if c.dropped == 0 then d else d.(dropped := 0, posts := c.posts + [Report(c.dropped)])
  }

  /** The window an entry arriving at `t` falls in. */
  function Windowed(c: Console, t: nat): Console {
    if t >= c.windowStart + WINDOW_MS then c.(windowStart := t, sent := 0) else c
  }

  function Forwarded(c: Console, t: nat): Console {
    var w := Windowed(c, t).(offered := c.offered + 1);
    if w.sent >= BUDGET then Noted(w)
    else w.(sent := w.sent + 1, dropped := 0, posts := c.posts + [Entry(t, c.dropped)])
  }

  /** The page's side of the channel, updated by handlers and timers. */
  class Helper {
    var consoleWindowStart: nat
    var consoleSent: nat
    var consoleDropped: nat
    var consoleFlushTimer: Option<nat>
    var timeouts: set<nat>
    var nextTimeout: nat
    var posts: seq<Post>
    var offered: nat

    function Value(): Console
      reads this
    {
      Console(consoleWindowStart, consoleSent, consoleDropped, consoleFlushTimer, timeouts, nextTimeout, posts, offered)
    }

    constructor ()
      ensures Value() == QUIET
    {
      consoleWindowStart, consoleSent, consoleDropped, consoleFlushTimer := 0, 0, 0, None;
      timeouts, nextTimeout, posts, offered := {}, 0, [], 0;
    }

    method NoteDropped()
      modifies this
      ensures Value() == Noted(old(Value()))
    {
      consoleDropped := consoleDropped + 1;
      if consoleFlushTimer.None? {
        consoleFlushTimer, timeouts, nextTimeout := Some(nextTimeout), timeouts + {nextTimeout}, nextTimeout + 1;
      }
    }

    method FlushDropped()
      modifies this
      ensures Value() == Flushed(old(Value()))
    {
      consoleFlushTimer := None;
      if consoleDropped <= 0 { return; }
      var n := consoleDropped;
      consoleDropped := 0;
      posts := posts + [Report(n)];
    }

    method ForwardConsole(t: nat)
      modifies this
      ensures Value() == Forwarded(old(Value()), t)
    {
      offered := offered + 1;
      if t >= consoleWindowStart + WINDOW_MS {
        consoleWindowStart, consoleSent := t, 0;
      }
      if consoleSent >= BUDGET {
        NoteDropped();
        return;
      }
      consoleSent := consoleSent + 1;
      var carried := consoleDropped;
      if consoleDropped > 0 { consoleDropped := 0; }
      posts := posts + [Entry(t, carried)];
    }
  }

  // ---- runs

  datatype Event = Offer(t: nat) | TimeoutFires(id: nat) | PageHides

  function Do(c: Console, e: Event): Console {
    match e
    case Offer(t) => Forwarded(c, t)
    case TimeoutFires(id) => if id in c.timeouts then Flushed(c.(timeouts := c.timeouts - {id})) else c
    case PageHides => Flushed(c)
  }

  function DoAll(c: Console, es: seq<Event>): Console {
    if es == [] then c else Do(DoAll(c, es[..|es| - 1]), es[|es| - 1])
  }

  /** The times of the posted entries. */
  function Times(posts: seq<Post>): seq<nat> {
    if posts == [] then []
    else Times(posts[..|posts| - 1]) + if posts[|posts| - 1].Entry? then [posts[|posts| - 1].at] else []
  }

  function Reported(posts: seq<Post>): nat {
    if posts == [] then 0 else Reported(posts[..|posts| - 1]) + posts[|posts| - 1].dropped
  }

  function CountIn(times: seq<nat>, from: int): nat {
    if times == [] then 0
    else CountIn(times[..|times| - 1], from) + if from <= times[|times| - 1] < from + 1000 then 1 else 0
  }

  lemma PostsSnoc(posts: seq<Post>, p: Post)
    ensures Times(posts + [p]) == Times(posts) + if p.Entry? then [p.at] else []
    ensures Reported(posts + [p]) == Reported(posts) + p.dropped
  {
    assert (posts + [p])[..|posts|] == posts;
  }

  lemma {:induction false} CountAppend(a: seq<nat>, b: seq<nat>, from: int)
    ensures CountIn(a + b, from) == CountIn(a, from) + CountIn(b, from)
    ensures CountIn(b, from) <= |b|
    decreases |b|
  {
    if b == [] {
      assert a + b == a;
    } else {
      assert (a + b)[..|a + b| - 1] == a + b[..|b| - 1];
      CountAppend(a, b[..|b| - 1], from);
    }
  }

  lemma {:induction false} CountNone(times: seq<nat>, from: int)
    requires forall i | 0 <= i < |times| :: times[i] < from
    ensures CountIn(times, from) == 0
  {
    if times != [] { CountNone(times[..|times| - 1], from); }
  }

  // ---- conservation and the timer

  predicate Accounted(c: Console) {
    && c.offered == |Times(c.posts)| + Reported(c.posts) + c.dropped
    && (c.timer.Some? ==> c.timer.value in c.timeouts)
    && (c.dropped > 0 ==> c.timer.Some?)
  }

  lemma DoKeepsAccounts(c: Console, e: Event)
    requires Accounted(c)
    ensures Accounted(Do(c, e))
  {
    var d := Do(c, e);
    if d.posts != c.posts {
      PostsSnoc(c.posts, d.posts[|c.posts|]);
      assert d.posts == c.posts + [d.posts[|c.posts|]];
    }
  }

  /**
   Over any run of entries, timeouts (stale ones too) and page hides: every entry offered was posted,
   reported as dropped, or is still counted; and while any is still counted a timeout is really pending.
   */
  lemma {:induction false} NothingUncounted(es: seq<Event>)
    ensures var c := DoAll(QUIET, es);
            && c.offered == |Times(c.posts)| + Reported(c.posts) + c.dropped
            && (c.dropped > 0 ==> c.timer.Some? && c.timer.value in c.timeouts)
    ensures Accounted(DoAll(QUIET, es))
  {
    if es != [] {
      NothingUncounted(es[..|es| - 1]);
      DoKeepsAccounts(DoAll(QUIET, es[..|es| - 1]), es[|es| - 1]);
    }
  }

  // ---- the budget

  /** When the clock was last read. */
  function LastOffer(es: seq<Event>): nat {
    if es == [] then 0
    else if es[|es| - 1].Offer? then es[|es| - 1].t else LastOffer(es[..|es| - 1])
  }

  /** The clock never runs backwards. */
  predicate ClockRuns(es: seq<Event>) {
    es == [] || (ClockRuns(es[..|es| - 1]) && (es[|es| - 1].Offer? ==> es[|es| - 1].t >= LastOffer(es[..|es| - 1])))
  }

  /** The entries posted before the current window, and in it. */
  ghost predicate Windows(c: Console, before: seq<nat>, current: seq<nat>, now: nat) {
    && Times(c.posts) == before + current
    && |current| == c.sent <= BUDGET && c.windowStart <= now
    && (forall i | 0 <= i < |before| :: before[i] <= c.windowStart)
    && (forall i | 0 <= i < |current| :: c.windowStart <= current[i] <= now && current[i] < c.windowStart + WINDOW_MS)
    && (forall a: int | a > c.windowStart - WINDOW_MS :: CountIn(before, a) <= BUDGET)
    && (forall a: int :: CountIn(before + current, a) <= 2 * BUDGET)
  }

  /** A new window puts everything posted so far before it. */
  lemma NewWindow(c: Console, before: seq<nat>, current: seq<nat>, now: nat, t: nat)
    requires Windows(c, before, current, now) && now <= t && t >= c.windowStart + WINDOW_MS
    ensures Windows(Windowed(c, t), before + current, [], t)
  {
    forall a: int | a > t - WINDOW_MS ensures CountIn(before + current, a) <= BUDGET {
      CountNone(before, a);
      CountAppend(before, current, a);
    }
    assert before + current + [] == before + current;
  }

  lemma OneMore(c: Console, before: seq<nat>, current: seq<nat>, now: nat, t: nat)
    requires Windows(c, before, current, now) && now <= t < c.windowStart + WINDOW_MS && c.sent < BUDGET
    ensures Windows(c.(sent := c.sent + 1, posts := c.posts + [Entry(t, c.dropped)]), before, current + [t], t)
  {
    PostsSnoc(c.posts, Entry(t, c.dropped));
    assert before + (current + [t]) == before + current + [t];
    forall a: int ensures CountIn(before + (current + [t]), a) <= 2 * BUDGET {
      CountAppend(before + current, [t], a);
      CountAppend(before, current + [t], a);
      assert [t][..0] == [];
    }
  }

  lemma OfferKeepsWindows(c: Console, before: seq<nat>, current: seq<nat>, now: nat, t: nat)
    returns (b: seq<nat>, r: seq<nat>)
    requires Windows(c, before, current, now) && now <= t
    ensures Windows(Forwarded(c, t), b, r, t)
  {
    var w := Windowed(c, t);
    b, r := before, current;
    if t >= c.windowStart + WINDOW_MS {
      NewWindow(c, before, current, now, t);
      b, r := before + current, [];
    }
    if w.sent < BUDGET {
      OneMore(w, b, r, if w == c then now else t, t);
      r := r + [t];
    }
  }

  lemma {:induction false} RunKeepsWindows(es: seq<Event>) returns (before: seq<nat>, current: seq<nat>)
    requires ClockRuns(es)
    ensures Windows(DoAll(QUIET, es), before, current, LastOffer(es))
  {
    if es == [] {
      before, current := [], [];
    } else {
      var e := es[|es| - 1];
      var c := DoAll(QUIET, es[..|es| - 1]);
      before, current := RunKeepsWindows(es[..|es| - 1]);
      if e.Offer? {
        before, current := OfferKeepsWindows(c, before, current, LastOffer(es[..|es| - 1]), e.t);
      } else if Do(c, e).posts != c.posts {
        PostsSnoc(c.posts, Report(c.dropped));
      }
    }
  }

  /** With a clock that does not run backwards, any 1000 ms carry at most two budgets of entries. */
  lemma AnySecondIsBounded(es: seq<Event>, from: int)
    requires ClockRuns(es)
    ensures CountIn(Times(DoAll(QUIET, es).posts), from) <= 400
  {
    var before, current := RunKeepsWindows(es);
  }

  /** An entry is dropped only when a full budget has been posted within the second up to it. */
  lemma DroppedOnlyOverBudget(es: seq<Event>, t: nat)
    requires ClockRuns(es + [Offer(t)])
    ensures var c := DoAll(QUIET, es);
            Forwarded(c, t).dropped > c.dropped ==>
              exists from :: from <= t < from + 1000 && CountIn(Times(c.posts), from) >= 200
  {
    assert (es + [Offer(t)])[..|es|] == es;
    var before, current := RunKeepsWindows(es);
    var c := DoAll(QUIET, es);
    if Forwarded(c, t).dropped > c.dropped {
      CountAppend(before, current, c.windowStart);
      CountAll(current, c.windowStart);
    }
  }

  lemma {:induction false} CountAll(times: seq<nat>, from: int)
    requires forall i | 0 <= i < |times| :: from <= times[i] < from + WINDOW_MS
    ensures CountIn(times, from) == |times|
  {
    if times != [] { CountAll(times[..|times| - 1], from); }
  }

  // ---- clip

  /** UTF-16 code units. */
  type Unit = u: nat | u < 0x10000

  predicate High(u: Unit) {
    0xD800 <= u <= 0xDBFF
  }

  predicate Low(u: Unit) {
    0xDC00 <= u <= 0xDFFF
  }

  /** Every surrogate is half of a pair. */
  predicate WellFormed(s: seq<Unit>)
    decreases |s|
  {
    s == [] ||
    (if High(s[0]) then |s| >= 2 && Low(s[1]) && WellFormed(s[2..]) else !Low(s[0]) && WellFormed(s[1..]))
  }

  const ELLIPSIS: Unit := 0x2026

  /** Where the text is cut: one unit early rather than inside a pair. */
  function ClipAt(s: seq<Unit>, limit: nat): (end: nat)
    requires 0 < limit < |s|
    ensures limit - 1 <= end <= limit
  {
    if High(s[limit - 1]) then limit - 1 else limit
  }

  function Clip(s: seq<Unit>, limit: nat): seq<Unit>
    requires limit > 0
  {
    if |s| <= limit then s else s[..ClipAt(s, limit)] + [ELLIPSIS]
  }

  lemma {:induction false} CutBetweenCharacters(s: seq<Unit>, k: nat)
    requires WellFormed(s) && k <= |s| && (k == 0 || !High(s[k - 1]))
    ensures WellFormed(s[..k] + [ELLIPSIS])
    decreases |s|
  {
    var cut := s[..k] + [ELLIPSIS];
    if k == 0 {
      assert cut == [ELLIPSIS] && cut[1..] == [];
    } else if High(s[0]) {
      CutBetweenCharacters(s[2..], k - 2);
      assert cut[2..] == s[2..][..k - 2] + [ELLIPSIS];
    } else {
      CutBetweenCharacters(s[1..], k - 1);
      assert cut[1..] == s[1..][..k - 1] + [ELLIPSIS];
    }
  }

  /** Clipping never splits a character: well-formed text stays well-formed. */
  lemma ClipKeepsCharactersWhole(s: seq<Unit>, limit: nat)
    requires limit > 0 && WellFormed(s)
    ensures WellFormed(Clip(s, limit))
  {
    if |s| > limit {
      if High(s[limit - 1]) { NoTwoHighs(s, limit - 1); }
      CutBetweenCharacters(s, ClipAt(s, limit));
    }
  }

  /** In well-formed text a high surrogate never follows another. */
  lemma {:induction false} NoTwoHighs(s: seq<Unit>, k: nat)
    requires WellFormed(s) && k < |s| && High(s[k])
    ensures k == 0 || !High(s[k - 1])
    decreases |s|
  {
    if High(s[0]) {
      if k >= 2 { NoTwoHighs(s[2..], k - 2); }
    } else if k > 0 {
      NoTwoHighs(s[1..], k - 1);
    }
  }

  /**
   Short text is left alone; long well-formed text becomes its longest prefix within the limit that splits no
   character, and the ellipsis. Of any text at most one unit is given up, and only half a character.
   */
  lemma ClipIsLongest(s: seq<Unit>, limit: nat)
    requires limit > 0
    ensures |s| <= limit ==> Clip(s, limit) == s
    ensures |s| > limit ==>
              var kept := |Clip(s, limit)| - 1;
              && 0 <= kept <= limit && Clip(s, limit) == s[..kept] + [0x2026]
              && (kept == limit || (kept == limit - 1 && 0xD800 <= s[kept] <= 0xDBFF))
              && (WellFormed(s) ==> WellFormed(s[..kept]) && forall k | kept < k <= limit :: !WellFormed(s[..k]))
  {
    if |s| > limit && WellFormed(s) {
      var kept := ClipAt(s, limit);
      if High(s[limit - 1]) {
        NoTwoHighs(s, limit - 1);
        assert s[..limit][limit - 1] == s[limit - 1];
        EndsHigh(s[..limit]);
      }
      PrefixBetweenCharacters(s, kept);
    }
  }

  lemma {:induction false} PrefixBetweenCharacters(s: seq<Unit>, k: nat)
    requires WellFormed(s) && k <= |s| && (k == 0 || !High(s[k - 1]))
    ensures WellFormed(s[..k])
    decreases |s|
  {
    var cut := s[..k];
    if k == 0 {
      assert cut == [];
    } else if High(s[0]) {
      PrefixBetweenCharacters(s[2..], k - 2);
      assert cut[2..] == s[2..][..k - 2];
    } else {
      PrefixBetweenCharacters(s[1..], k - 1);
      assert cut[1..] == s[1..][..k - 1];
    }
  }

  /** Text that ends in the first half of a pair is not well-formed. */
  lemma {:induction false} EndsHigh(s: seq<Unit>)
    requires s != [] && High(s[|s| - 1])
    ensures !WellFormed(s)
    decreases |s|
  {
    if WellFormed(s) {
      if High(s[0]) {
        if |s| > 2 { EndsHigh(s[2..]); }
      } else {
        EndsHigh(s[1..]);
      }
    }
  }
}
