/**
 The pet's subscriber loop (src-tauri/src/pet_state_mapper.rs): events, overruns, and the recovery
 timer whose task handle may be dropped while the timer runs on.
 */
module PetTask {
  import opened Options
  import opened PetState

  const PET_FAILED_RECOVERY_MS: nat := 4000
  const CLEAR_CHANNEL_CAP: nat := 8

  /**
   The loop's variables. `live` holds every recovery timer still running with its due time, whether
   or not `timer` still names it; `queued` is how many clears wait in the channel.
   */
  datatype Task = Task(
    snapshot: Snapshot, last: Pet, handle: Pet, emitted: seq<Pet>, cues: seq<Pet>,
    timer: Option<nat>, live: map<nat, nat>, queued: nat, nextTimer: nat, clock: nat, running: bool)

  datatype Happening =
    | Acp(env: Envelope, now: nat)
    | Lagged
    | TimerFires(id: nat)
    | ClearArrives
    | Side(cue: Option<Pet>)  // a folder or app notification
    | Closed

  function Begin(now: nat): Task {
    Task(EMPTY, Idle, Idle, [Idle], [], None, map[], 0, 0, now, true)
  }

  /** `classify_turn_complete`. */
  function TurnCue(reason: string): Option<Pet> {
    if reason in {"refusal", "max_tokens", "max_turn_requests", "unknown", "empty", "auth_required", "rejected"}
    then Some(Failed) else None
  }

  function CueOf(payload: Event): Option<Pet> {
    match payload
    case TurnComplete(reason) => TurnCue(reason)
    case ConversationStatusChanged(review) => if review then Some(Review) else None
    case _ => None
  }

  function Cued(cues: seq<Pet>, cue: Option<Pet>): seq<Pet> {
    if cue.Some? then cues + [cue.value] else cues
  }

  function Cancelled(t: Task): Task {
    t.(timer := None, live := if t.timer.Some? then t.live - {t.timer.value} else t.live)
  }

  function Scheduled(t: Task, now: nat): Task {
    var c := Cancelled(t);
    c.(timer := Some(t.nextTimer), nextTimer := t.nextTimer + 1, live := c.live[t.nextTimer := now + PET_FAILED_RECOVERY_MS])
  }

  /** Recompute, and tell the handle and the stream only about a change. */
  function Announced(t: Task): Task {
    var next := Compute(t.snapshot);
    if next == t.last then t else t.(last := next, handle := next, emitted := t.emitted + [next])
  }

  predicate RaisesError(e: Event) {
    e.Failure? || e == StatusChanged(Errored)
  }

  /** The timer follows an event whose effect on the snapshot is already in. */
  function Retimed(t: Task, raised: bool, wasErroring: bool): Task {
    if raised && t.snapshot.erroring != {} then Scheduled(t, t.clock)
    else if wasErroring && t.snapshot.erroring == {} then Cancelled(t)
    else t
  }

  function AfterClock(t: Task, now: nat): Task {
    t.(clock := if now > t.clock then now else t.clock)
  }

  function OnAcp(t0: Task, env: Envelope, now: nat): Task {
    var t := AfterClock(t0, now);
    if !Relevant(env.payload) then t
    else
      var applied := t.(snapshot := Applied(t.snapshot, env), cues := Cued(t.cues, CueOf(env.payload)));
      Announced(Retimed(applied, RaisesError(env.payload), t.snapshot.erroring != {}))
  }

  function OnLagged(t: Task): Task {
    var c := Cancelled(t.(snapshot := Reset(t.snapshot)));
    if c.last == Idle then c else c.(last := Idle, handle := Idle, emitted := c.emitted + [Idle])
  }

  /** The sleep ends: one clear is offered to a channel that may be full. */
  function OnTimer(t: Task, id: nat): Task {
    if id !in t.live then t
    else t.(live := t.live - {id}, queued := if t.queued < CLEAR_CHANNEL_CAP then t.queued + 1 else t.queued)
  }

  /** The handle is forgotten, not aborted: a timer scheduled since keeps running. */
  function OnClear(t: Task): Task {
    if t.queued == 0 then t
    else Announced(t.(queued := t.queued - 1, snapshot := t.snapshot.(erroring := {}), timer := None))
  }

  function Do(t: Task, h: Happening): Task {
    if !t.running then t
    else match h
      case Acp(env, now) => OnAcp(t, env, now)
      case Lagged => OnLagged(t)
      case TimerFires(id) => OnTimer(t, id)
      case ClearArrives => OnClear(t)
      case Side(cue) => t.(cues := Cued(t.cues, cue))
      case Closed => Cancelled(t).(running := false)
  }

  function DoAll(t: Task, hs: seq<Happening>): Task {
    if hs == [] then t else Do(DoAll(t, hs[..|hs| - 1]), hs[|hs| - 1])
  }

  /** What a freshly opened window reads. */
  class PetHandle {
    var value: Pet
    constructor ()
      ensures value == Idle
    {
      value := Idle;
    }
  }

  class PetTask {
    const snapshot: PetGlobalState
    const handle: PetHandle
    var lastState: Pet
    var emitted: seq<Pet>
    var cues: seq<Pet>
    var clearTask: Option<nat>
    var live: map<nat, nat>
    var queued: nat
    var nextTimer: nat
    var clock: nat
    var running: bool

    function Value(): Task
      reads this, snapshot, handle
    {
      Task(snapshot.Value(), lastState, handle.value, emitted, cues, clearTask, live, queued, nextTimer, clock, running)
    }

    constructor (handle: PetHandle, now: nat)
      modifies handle
      ensures Value() == Begin(now) && this.handle == handle && fresh(snapshot)
    {
      this.handle := handle;
      snapshot := new PetGlobalState();
      lastState, emitted, cues := Idle, [Idle], [];
      clearTask, live, queued, nextTimer, clock, running := None, map[], 0, 0, now, true;
      new;
      handle.value := Idle;
    }

    method CancelFailedRecovery()
      modifies this`clearTask, this`live
      ensures Value() == Cancelled(old(Value()))
    {
      if clearTask.Some? { live := live - {clearTask.value}; }
      clearTask := None;
    }

    method ScheduleFailedRecovery()
      modifies this`clearTask, this`live, this`nextTimer
      ensures Value() == Scheduled(old(Value()), clock)
    {
      CancelFailedRecovery();
      clearTask, nextTimer, live :=
        Some(nextTimer), nextTimer + 1, live[nextTimer := clock + PET_FAILED_RECOVERY_MS];
    }

    method Announce()
      modifies this`lastState, this`emitted, handle
      ensures Value() == Announced(old(Value()))
    {
      var next := Compute(snapshot.Value());
      if next != lastState {
        lastState := next;
        handle.value := next;
        emitted := emitted + [next];
      }
    }

    /** The one-shot cue of an event, fired before the event is applied. */
    method Cue(payload: Event)
      modifies this`cues
      ensures cues == Cued(old(cues), CueOf(payload))
    {
      if payload.TurnComplete? {
        var cue := TurnCue(payload.reason);
        if cue.Some? { cues := cues + [cue.value]; }
      }
      if payload == ConversationStatusChanged(true) { cues := cues + [Review]; }
    }

    method Retime(raised: bool, wasErroring: bool)
      modifies this`clearTask, this`live, this`nextTimer
      ensures Value() == Retimed(old(Value()), raised, wasErroring)
    {
      var nowErroring := snapshot.erroring != {};
      if raised && nowErroring {
        ScheduleFailedRecovery();
      } else if wasErroring && !nowErroring {
        CancelFailedRecovery();
      }
    }

    method ReceiveAcp(env: Envelope, now: nat)
      modifies this, snapshot, handle
      ensures Value() == OnAcp(old(Value()), env, now)
    {
      if now > clock { clock := now; }
      if !Relevant(env.payload) { return; }
      Cue(env.payload);
      var wasErroring := snapshot.erroring != {};
      snapshot.Apply(env);
      Retime(RaisesError(env.payload), wasErroring);
      Announce();
    }

    method ReceiveLagged()
      modifies this, snapshot, handle
      ensures Value() == OnLagged(old(Value()))
    {
      snapshot.ResetAfterOverrun();
      CancelFailedRecovery();
      if lastState != Idle {
        lastState := Idle;
        handle.value := Idle;
        emitted := emitted + [Idle];
      }
    }

    method ReceiveClear()
      requires queued > 0
      modifies this, snapshot, handle
      ensures Value() == OnClear(old(Value()))
    {
      queued := queued - 1;
      snapshot.erroring := {};
      clearTask := None;
      Announce();
    }
  }

  // ---- every run

  /** No two neighbours are equal. */
  predicate Deduplicated(states: seq<Pet>) {
    forall i | 0 <= i < |states| - 1 :: states[i] != states[i + 1]
  }

  /** What was told: the handle and the stream's end are the last state, and the stream has no repeats. */
  predicate Told(t: Task) {
    t.handle == t.last && t.emitted != [] && t.emitted[|t.emitted| - 1] == t.last && Deduplicated(t.emitted)
  }

  predicate TimersBounded(t: Task) {
    && t.queued <= CLEAR_CHANNEL_CAP
    && (t.timer.Some? ==> t.timer.value < t.nextTimer)
    && (forall id | id in t.live :: id < t.nextTimer && t.live[id] <= t.clock + PET_FAILED_RECOVERY_MS)
  }

  /** Beside the timer the task names only older ones run, and none is due later. */
  predicate NewestNamed(t: Task) {
    t.timer.Some? && t.timer.value in t.live ==>
      forall id | id in t.live && id != t.timer.value ::
        id < t.timer.value && t.live[id] <= t.live[t.timer.value]
  }

  /** The loop invariant. */
  ghost predicate LoopInv(t: Task) {
    && Told(t) && t.last == Compute(t.snapshot)
    && TimersBounded(t) && NewestNamed(t)
    && (t.running && t.snapshot.erroring != {} ==> t.live != map[] || t.queued > 0)
  }

  lemma ErroringOnlyByError(s: Snapshot, env: Envelope)
    requires !RaisesError(env.payload)
    ensures Applied(s, env).erroring <= s.erroring
  {
  }

  lemma AnnouncedTells(t: Task)
    requires Told(t)
    ensures Told(Announced(t)) && Announced(t).last == Compute(t.snapshot)
  {
  }

  lemma ScheduledHasTimer(t: Task)
    requires TimersBounded(t)
    ensures TimersBounded(Scheduled(t, t.clock)) && Scheduled(t, t.clock).live != map[]
  {
    assert t.nextTimer in Scheduled(t, t.clock).live;
  }

  lemma RetimedKeepsTimers(t: Task, raised: bool, wasErroring: bool)
    requires TimersBounded(t)
    requires t.snapshot.erroring != {} ==> raised || t.live != map[] || t.queued > 0
    ensures var u := Retimed(t, raised, wasErroring);
            TimersBounded(u) && (u.snapshot.erroring != {} ==> u.live != map[] || u.queued > 0)
  {
    if raised && t.snapshot.erroring != {} { ScheduledHasTimer(t); }
  }

  lemma RetimedNamesNewest(t: Task, raised: bool, wasErroring: bool)
    requires TimersBounded(t) && NewestNamed(t)
    ensures NewestNamed(Retimed(t, raised, wasErroring))
    ensures Told(t) ==> Told(Retimed(t, raised, wasErroring))
    ensures Retimed(t, raised, wasErroring).snapshot == t.snapshot && Retimed(t, raised, wasErroring).running == t.running
  {
  }

  lemma AcpKeepsInv(t0: Task, env: Envelope, now: nat)
    requires LoopInv(t0) && t0.running
    ensures LoopInv(OnAcp(t0, env, now))
  {
    var t := AfterClock(t0, now);
    if Relevant(env.payload) {
      var applied := t.(snapshot := Applied(t.snapshot, env), cues := Cued(t.cues, CueOf(env.payload)));
      var raised, was := RaisesError(env.payload), t.snapshot.erroring != {};
      AppliedCarries(t0, env, now);
      RetimedKeepsTimers(applied, raised, was);
      RetimedNamesNewest(applied, raised, was);
      AnnouncedTells(Retimed(applied, raised, was));
    }
  }

  /** What an event leaves alone: what was told, and the timers. */
  lemma AppliedCarries(t0: Task, env: Envelope, now: nat)
    requires LoopInv(t0) && t0.running
    ensures var t := AfterClock(t0, now);
            var applied := t.(snapshot := Applied(t.snapshot, env), cues := Cued(t.cues, CueOf(env.payload)));
            && Told(applied) && TimersBounded(applied) && NewestNamed(applied)
            && (applied.snapshot.erroring != {} ==> RaisesError(env.payload) || applied.live != map[] || applied.queued > 0)
  {
    if !RaisesError(env.payload) { ErroringOnlyByError(t0.snapshot, env); }
  }

  lemma DoKeepsInv(t: Task, h: Happening)
    requires LoopInv(t)
    ensures LoopInv(Do(t, h))
  {
    if t.running {
      match h {
        case Acp(env, now) => AcpKeepsInv(t, env, now);
        case _ =>
      }
    }
  }

  /**
   At every loop head, over any run of events, overruns, timers firing late or after being forgotten,
   full channels and stale clears: the shared handle, the last emitted state and the snapshot's state
   are one, the stream never repeats itself, and a failure has a recovery on its way.
   */
  lemma {:induction false} EveryLoopHead(now: nat, hs: seq<Happening>)
    ensures LoopInv(DoAll(Begin(now), hs))
  {
    if hs != [] {
      EveryLoopHead(now, hs[..|hs| - 1]);
      DoKeepsInv(DoAll(Begin(now), hs[..|hs| - 1]), hs[|hs| - 1]);
    }
  }

  /**
   `Failed` cannot stick: a running task showing it has a clear queued, or a timer due within the
   recovery time whose firing queues one; and the clear ends it.
   */
  lemma FailedEnds(now: nat, hs: seq<Happening>) returns (id: nat)
    requires DoAll(Begin(now), hs).running && DoAll(Begin(now), hs).handle == Failed
    ensures var t := DoAll(Begin(now), hs);
            if t.queued > 0 then Do(t, ClearArrives).handle != Failed
            else && id in t.live && t.live[id] <= t.clock + PET_FAILED_RECOVERY_MS
                 && Do(Do(t, TimerFires(id)), ClearArrives).handle != Failed
  {
    EveryLoopHead(now, hs);
    var t := DoAll(Begin(now), hs);
    id := 0;
    if t.queued == 0 { id :| id in t.live; }
  }

  // ---- what is shown, said of the happenings alone

  /** What one happening is to the snapshot. */
  function InputOf(t: Task, h: Happening): seq<Input> {
    if !t.running then []
    else match h
      case Acp(env, _) => [Delivered(env)]
      case Lagged => [Overrun]
      case ClearArrives => if t.queued > 0 then [Recovered] else []
      case _ => []
  }

  function Inputs(now: nat, hs: seq<Happening>): seq<Input> {
    if hs == [] then []
    else Inputs(now, hs[..|hs| - 1]) + InputOf(DoAll(Begin(now), hs[..|hs| - 1]), hs[|hs| - 1])
  }

  lemma DoIsAfter(t: Task, h: Happening)
    ensures Do(t, h).snapshot == After(t.snapshot, InputOf(t, h))
  {
    var inputs := InputOf(t, h);
    assert inputs != [] ==> inputs[..|inputs| - 1] == [];
  }

  lemma {:induction false} SnapshotIsRun(now: nat, hs: seq<Happening>)
    ensures DoAll(Begin(now), hs).snapshot == After(EMPTY, Inputs(now, hs))
  {
    if hs != [] {
      var init, last := hs[..|hs| - 1], hs[|hs| - 1];
      SnapshotIsRun(now, init);
      DoIsAfter(DoAll(Begin(now), init), last);
      AfterAppend(EMPTY, Inputs(now, init), InputOf(DoAll(Begin(now), init), last));
    }
  }

  ghost predicate SomeFailing(run: seq<Input>) {
    exists c :: LeftFailing(run, c)
  }

  ghost predicate SomeOutstanding(run: seq<Input>) {
    exists r, c :: Outstanding(run, r, c)
  }

  ghost predicate SomePrompting(run: seq<Input>) {
    exists c :: LeftPrompting(run, c)
  }

  lemma FailingShows(run: seq<Input>)
    ensures SomeFailing(run) <==> After(EMPTY, run).erroring != {}
  {
    forall c ensures c in After(EMPTY, run).erroring <==> LeftFailing(run, c) { FailingIffLeftFailing(run, c); }
    if c :| c in After(EMPTY, run).erroring { assert LeftFailing(run, c); }
  }

  lemma PromptingShows(run: seq<Input>)
    ensures SomePrompting(run) <==> After(EMPTY, run).prompting != {}
  {
    forall c ensures c in After(EMPTY, run).prompting <==> LeftPrompting(run, c) { PromptingIffLeftPrompting(run, c); }
    if c :| c in After(EMPTY, run).prompting { assert LeftPrompting(run, c); }
  }

  lemma OutstandingShows(run: seq<Input>)
    ensures SomeOutstanding(run) <==> After(EMPTY, run).permissions != map[]
  {
    var p := After(EMPTY, run).permissions;
    if SomeOutstanding(run) {
      var r, c :| Outstanding(run, r, c);
      PendingIffOutstanding(run, r, c);
      assert r in p;
    }
    if p != map[] {
      var r :| r in p;
      PendingIffOutstanding(run, r, p[r]);
      assert Outstanding(run, r, p[r]);
    }
  }

  /**
   What the pet shows, at every loop head of every run, in terms of what has happened: failed if some
   connection was left failing; else waiting if some permission request is outstanding; else running if some
   connection was left prompting; else idle. The shared handle and the last emitted state both say so.
   */
  lemma PetShows(now: nat, hs: seq<Happening>)
    ensures var t, run := DoAll(Begin(now), hs), Inputs(now, hs);
            && (t.handle == Failed <==> SomeFailing(run))
            && (t.handle == Waiting <==> !SomeFailing(run) && SomeOutstanding(run))
            && (t.handle == Running <==> !SomeFailing(run) && !SomeOutstanding(run) && SomePrompting(run))
            && (t.handle == Idle <==> !SomeFailing(run) && !SomeOutstanding(run) && !SomePrompting(run))
            && t.emitted != [] && t.emitted[|t.emitted| - 1] == t.handle
  {
    EveryLoopHead(now, hs);
    SnapshotIsRun(now, hs);
    FailingShows(Inputs(now, hs));
    OutstandingShows(Inputs(now, hs));
    PromptingShows(Inputs(now, hs));
  }

  /**
   An error of a session starts the recovery time anew: a new timer due the full time from now, the one named
   before stopped, every other left alone. Once no connection is failing any more, the named one is stopped.
   */
  lemma EachErrorStartsItsTime(t: Task, env: Envelope, now: nat)
    requires LoopInv(t) && t.running && now >= t.clock
    ensures var u := Do(t, Acp(env, now));
            && (RaisesError(env.payload) && env.conn !in t.snapshot.children ==>
                  && u.timer.Some? && u.timer.value !in t.live
                  && u.timer.value in u.live && u.live[u.timer.value] == now + 4000
                  && u.live.Keys == (t.live.Keys - if t.timer.Some? then {t.timer.value} else {}) + {u.timer.value})
            && (t.snapshot.erroring != {} && u.snapshot.erroring == {} ==>
                  u.timer == None && u.live.Keys == t.live.Keys - if t.timer.Some? then {t.timer.value} else {})
            && (u.snapshot.erroring == {} && t.snapshot.erroring == {} ==> u.live == t.live)
  {
    if RaisesError(env.payload) && env.conn !in t.snapshot.children {
      assert env.conn in Applied(t.snapshot, env).erroring;
    }
  }

  /** The one-shot cues a happening calls for. */
  function CuesFor(h: Happening): seq<Pet> {
    match h
    case Acp(env, _) =>
      (match env.payload
       case TurnComplete(reason) =>
         if reason == "refusal" || reason == "max_tokens" || reason == "max_turn_requests" || reason == "unknown" ||
            reason == "empty" || reason == "auth_required" || reason == "rejected" then [Failed] else []
       case ConversationStatusChanged(pendingReview) => if pendingReview then [Review] else []
       case _ => [])
    case Side(Some(cue)) => [cue]
    case _ => []
  }

  function AllCues(hs: seq<Happening>): seq<Pet> {
    if hs == [] then [] else AllCues(hs[..|hs| - 1]) + CuesFor(hs[|hs| - 1])
  }

  /**
   The cues are exactly one failure for each turn that ended badly, one review for each pending one and the
   side notices, in order; a turn that ended well, or was cancelled, has none.
   */
  lemma {:induction false} CuesAreExact(now: nat, hs: seq<Happening>)
    requires Closed !in hs
    ensures DoAll(Begin(now), hs).cues == AllCues(hs) && DoAll(Begin(now), hs).running
    ensures forall env: Envelope, at: nat ::
              env.payload == TurnComplete("end_turn") || env.payload == TurnComplete("cancelled") ==>
                CuesFor(Acp(env, at)) == []
  {
    if hs != [] {
      assert hs[|hs| - 1] in hs && Closed !in hs[..|hs| - 1];
      CuesAreExact(now, hs[..|hs| - 1]);
      CueStep(DoAll(Begin(now), hs[..|hs| - 1]), hs[|hs| - 1]);
    }
  }

  lemma CueStep(t: Task, h: Happening)
    requires t.running && h != Closed
    ensures Do(t, h).cues == t.cues + CuesFor(h) && Do(t, h).running
  {
    assert t.cues + [] == t.cues;
  }

  /** A timer that fires leaves one clear in the channel, which holds eight; beyond that it is lost. */
  lemma TimersOfferClears(t: Task, id: nat)
    requires LoopInv(t) && t.running && id in t.live
    ensures var u := Do(t, TimerFires(id));
            u.live == t.live - {id} && u.queued == (if t.queued >= 8 then 8 else t.queued + 1) &&
            u.handle == t.handle && u.snapshot == t.snapshot && u.timer == t.timer
  {
  }

  /** When a bus closes the named timer is stopped, and nothing that happens afterwards changes anything. */
  lemma ClosingIsFinal(t: Task, h: Happening)
    requires t.running
    ensures var u := Do(t, Closed);
            && !u.running && u.timer == None && u.live.Keys == t.live.Keys - (if t.timer.Some? then {t.timer.value} else {})
            && u.handle == t.handle && u.emitted == t.emitted && u.snapshot == t.snapshot
            && Do(u, h) == u
  {
  }

  // ---- how long a failure stays

  /** Something other than an agent's event and other than this timer: other timers, clears, side notices. */
  predicate Bystander(h: Happening, id: nat) {
    match h
    case TimerFires(other) => other != id
    case ClearArrives => true
    case Side(_) => true
    case _ => false
  }

  ghost predicate Bystanders(hs: seq<Happening>, id: nat) {
    forall h | h in hs :: Bystander(h, id)
  }

  /** With no clear queued and no other timer running, bystanders change nothing but the cues. */
  lemma {:induction false} BystandersKeepFailed(t: Task, id: nat, hs: seq<Happening>)
    requires t.queued == 0 && t.live.Keys == {id} && Bystanders(hs, id)
    ensures DoAll(t, hs) == t.(cues := DoAll(t, hs).cues)
  {
    if hs != [] {
      assert hs[|hs| - 1] in hs;
      BystandersKeepFailed(t, id, hs[..|hs| - 1]);
    }
  }

  lemma DoTwo(t: Task, a: Happening, b: Happening)
    ensures DoAll(t, [a]) == Do(t, a) && DoAll(t, [a, b]) == Do(Do(t, a), b)
  {
    assert [a, b][..1] == [a] && [a][..0] == [];
  }

  /**
   A shown failure can end before the timer scheduled for its latest error fires, with no agent event in
   between, if and only if a clear is still queued or an older timer, detached from its handle and due no
   later, still runs.
   */
  lemma FailureEndsEarlyIff(t: Task, id: nat)
    requires LoopInv(t) && t.running && t.handle == Failed && t.timer == Some(id) && id in t.live
    ensures (exists hs :: Bystanders(hs, id) && DoAll(t, hs).handle != Failed) <==>
            t.queued > 0 || exists other :: other in t.live && other < id && t.live[other] <= t.live[id]
  {
    if t.queued > 0 {
      DoTwo(t, ClearArrives, ClearArrives);
      assert Bystanders([ClearArrives], id) && DoAll(t, [ClearArrives]).handle != Failed;
    } else if t.live.Keys != {id} {
      var other :| other in t.live.Keys && other != id;
      var hs := [TimerFires(other), ClearArrives];
      DoTwo(t, TimerFires(other), ClearArrives);
      assert Bystanders(hs, id) && DoAll(t, hs).handle != Failed;
    } else {
      forall hs | Bystanders(hs, id) ensures DoAll(t, hs).handle == Failed {
        BystandersKeepFailed(t, id, hs);
      }
    }
  }

  /** A run that gets there by a clear: the error's timer fires, and a second error comes before the clear is taken. */
  function StaleClear(c: Conn): seq<Happening> {
    [Acp(Envelope(c, Failure), 0), TimerFires(0), Acp(Envelope(c, Failure), 1)]
  }

  lemma StaleClearIsReached(c: Conn)
    ensures var t := DoAll(Begin(0), StaleClear(c));
            && LoopInv(t) && t.running && t.handle == Failed && t.timer == Some(1) && 1 in t.live && t.queued == 1
            && Do(t, ClearArrives).handle == Idle && 1 in Do(t, ClearArrives).live && Do(t, ClearArrives).timer == None
  {
    EveryLoopHead(0, StaleClear(c));
    var e0, e1 := Acp(Envelope(c, Failure), 0), Acp(Envelope(c, Failure), 1);
    var t1 := Do(Begin(0), e0);
    DoTwo(Begin(0), e0, TimerFires(0));
    assert StaleClear(c)[..2] == [e0, TimerFires(0)];
    assert c in t1.snapshot.erroring && t1.live == map[0 := PET_FAILED_RECOVERY_MS];
    var t2 := Do(t1, TimerFires(0));
    assert t2.queued == 1 && t2.live == map[];
    assert Compute(Do(t2, e1).snapshot) == Failed;
  }

  /** And one that gets there by an older timer: the clear forgot it, and a third error schedules another. */
  lemma DetachedTimerIsReached(c: Conn)
    ensures var t := DoAll(Begin(0), StaleClear(c) + [ClearArrives] + [Acp(Envelope(c, Failure), 2)]);
            && LoopInv(t) && t.running && t.handle == Failed && t.timer == Some(2)
            && t.live.Keys == {1, 2} && t.queued == 0
  {
    var hs := StaleClear(c) + [ClearArrives];
    var e2 := Acp(Envelope(c, Failure), 2);
    EveryLoopHead(0, hs + [e2]);
    StaleClearIsReached(c);
    var t := DoAll(Begin(0), StaleClear(c));
    assert (StaleClear(c) + [ClearArrives])[..3] == StaleClear(c) && (hs + [e2])[..4] == hs;
    var u := Do(t, ClearArrives);
    assert DoAll(Begin(0), hs) == u && DoAll(Begin(0), hs + [e2]) == Do(u, e2);
    StaleClearTimers(c);
    assert Compute(Do(u, e2).snapshot) == Failed;
  }

  lemma StaleClearTimers(c: Conn)
    ensures var t := DoAll(Begin(0), StaleClear(c));
            t.live.Keys == {1} && t.nextTimer == 2 && t.snapshot.children == {}
  {
    var e0, e1 := Acp(Envelope(c, Failure), 0), Acp(Envelope(c, Failure), 1);
    DoTwo(Begin(0), e0, TimerFires(0));
    assert StaleClear(c)[..2] == [e0, TimerFires(0)];
    assert c in Do(Begin(0), e0).snapshot.erroring;
    assert Do(Begin(0), e0).live == map[0 := PET_FAILED_RECOVERY_MS];
  }

  /**
   A clear that arrives after a new error was scheduled drops the newer timer's handle but not the
   timer: it still fires. The stale clear also ends the newer failure early.
   */
  lemma StaleClearDetaches(t: Task, env: Envelope, now: nat)
    requires LoopInv(t) && t.running && t.queued > 0 && env.payload == Failure && env.conn !in t.snapshot.children
    ensures var u := OnClear(OnAcp(t, env, now));
            u.timer == None && t.nextTimer in u.live && u.handle != Failed
  {
    var v := OnAcp(t, env, now);
    assert t.nextTimer in v.live;
  }
}
