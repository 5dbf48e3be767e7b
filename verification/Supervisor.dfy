/**
 The unix supervisor (src-tauri/src/supervise.rs): relaunch and one-shot rollback, raced by a
 signal handler. Every atomic action of the main path and of a handler is a step of its own.
 */
module Supervisor {
  import opened Options

  datatype Status = Restart | Code(code: nat) | Signal(sig: nat)

  datatype Kind = First | Restored

  /** Where the main path is. */
  datatype Pc =
    | Peeking
    | Spawning(kind: Kind)
    | RevertingSpawn
    | Storing(pid: nat)
    | Checking(pid: nat)
    | Killing(pid: nat)
    | Waiting
    | Reaped(status: Status)
    | Deciding(status: Status)
    | RevertingExit(status: Status)
    | Sleeping
    | Exited(code: nat)

  /** A handler that has set the flag, or has also read the pid cell. */
  datatype Handler = Flagged | Holds(pid: nat)

  /** What the main path did that the bounds are about. */
  datatype Mark = Peeked(staged: bool) | Attempt | RolledBack | Restarted

  /**
   `cell` is `WORKER_PID`, `flag` is `TERMINATING`. `live` is the running worker, `ended` the exit
   status waiting to be collected; pids are not reused.
   */
  datatype State = State(
    pc: Pc, flag: bool, cell: nat, handlers: multiset<Handler>, live: Option<nat>, ended: Option<Status>,
    signalled: set<nat>, nextPid: nat, onTrial: bool, log: seq<Mark>)

  /** What the world answers the main path: the marker, the spawn, the rollback, the trial clock. */
  datatype World = World(staged: bool, spawns: bool, reverts: bool, inTrial: bool)

  datatype Step =
    | Main(world: World)
    | WorkerEnds(status: Status)
    | SignalArrives
    | HandlerReads
    | HandlerKills(pid: nat)

  function Begin(): State {
    State(Peeking, false, 0, multiset{}, None, None, {}, 1, false, [])
  }

  function ExitCode(status: Status): nat {
    match status
    case Restart => 0
    case Code(code) => code
    case Signal(sig) => 128 + sig
  }

  function Kill(s: State, pid: nat): State {
    if s.live == Some(pid) then s.(signalled := s.signalled + {pid}) else s
  }

  function MainStep(s: State, w: World): State {
    match s.pc
    case Peeking => s.(onTrial := w.staged, log := s.log + [Peeked(w.staged)], pc := Spawning(First))
    case Spawning(kind) =>
      var t := s.(log := s.log + [Attempt]);
      if w.spawns then t.(live := Some(s.nextPid), ended := None, nextPid := s.nextPid + 1, pc := Storing(s.nextPid))
      else if kind == First && s.onTrial then t.(pc := RevertingSpawn)
      else t.(pc := Exited(1))
    case RevertingSpawn =>
      if w.reverts then s.(log := s.log + [RolledBack], onTrial := false, pc := Spawning(Restored))
      else s.(pc := Exited(1))
    case Storing(pid) => s.(cell := pid, pc := Checking(pid))
    case Checking(pid) => s.(pc := if s.flag then Killing(pid) else Waiting)
    case Killing(pid) => Kill(s, pid).(pc := Waiting)
    case Waiting => if s.ended.Some? then s.(pc := Reaped(s.ended.value), ended := None) else s
    case Reaped(status) => s.(cell := 0, pc := Deciding(status))
    case Deciding(status) =>
      if s.flag then s.(pc := Exited(0))
      else if status == Restart then s.(log := s.log + [Restarted], pc := Sleeping)
      else if s.onTrial && w.inTrial then s.(pc := RevertingExit(status))
      else s.(pc := Exited(ExitCode(status)))
    case RevertingExit(status) =>
      if w.reverts then s.(log := s.log + [RolledBack], onTrial := false, pc := Spawning(Restored))
      else s.(pc := Exited(ExitCode(status)))
    case Sleeping => s.(pc := if s.flag then Exited(0) else Peeking)
    case Exited(_) => s
  }

  function Act(s: State, step: Step): State {
    match step
    case Main(w) => MainStep(s, w)
    case WorkerEnds(status) => if s.live.Some? then s.(live := None, ended := Some(status)) else s
    case SignalArrives => s.(flag := true, handlers := s.handlers + multiset{Flagged})
    case HandlerReads =>
      if Flagged in s.handlers then s.(handlers := s.handlers - multiset{Flagged} + multiset{Holds(s.cell)}) else s
    case HandlerKills(pid) =>
      if Holds(pid) in s.handlers then
        var t := s.(handlers := s.handlers - multiset{Holds(pid)});
        if pid > 0 then Kill(t, pid) else t
      else s
  }

  function Run(s: State, steps: seq<Step>): State {
    if steps == [] then s else Act(Run(s, steps[..|steps| - 1]), steps[|steps| - 1])
  }

  // ---- stop signals

  ghost predicate SignalInv(s: State) {
    && (s.live.Some? ==> 0 < s.live.value < s.nextPid && s.ended.None?)
    && s.nextPid > 0
    && (s.live.Some? ==> s.pc in {Storing(s.live.value), Checking(s.live.value), Killing(s.live.value), Waiting})
    && (s.pc.Storing? || s.pc.Checking? || s.pc.Killing? ==> s.live.Some? || s.ended.Some?)
    && (s.pc.Checking? || s.pc.Killing? ==> s.cell == s.pc.pid)
    && (s.pc == Waiting && s.live.Some? ==> s.cell == s.live.value)
    && (Flagged in s.handlers ==> s.flag)
    && (s.pc.Killing? ==> s.flag)
    && (s.pc == Waiting && s.flag && s.live.Some? ==>
          s.live.value in s.signalled || Flagged in s.handlers || Holds(s.live.value) in s.handlers)
  }

  lemma LaunchKeepsSignalInv(s: State, w: World)
    requires SignalInv(s) && (s.pc.Spawning? || s.pc.Storing? || s.pc.Checking? || s.pc.Killing?)
    ensures SignalInv(MainStep(s, w))
  {
  }

  lemma DecideKeepsSignalInv(s: State, w: World)
    requires SignalInv(s) && !(s.pc.Spawning? || s.pc.Storing? || s.pc.Checking? || s.pc.Killing?)
    ensures SignalInv(MainStep(s, w))
  {
  }

  lemma HandlerReadsKeepsInv(s: State)
    requires SignalInv(s)
    ensures SignalInv(Act(s, HandlerReads))
  {
    var t := Act(s, HandlerReads);
    assert forall h :: h in s.handlers && h != Flagged ==> h in t.handlers;
    assert Flagged in s.handlers ==> Holds(s.cell) in t.handlers;
  }

  lemma HandlerKillsKeepsInv(s: State, pid: nat)
    requires SignalInv(s)
    ensures SignalInv(Act(s, HandlerKills(pid)))
  {
    var t := Act(s, HandlerKills(pid));
    assert forall h :: h in s.handlers && h != Holds(pid) ==> h in t.handlers;
    assert s.live == Some(pid) && Holds(pid) in s.handlers ==> pid in t.signalled;
  }

  lemma HandlerKeepsSignalInv(s: State, step: Step)
    requires SignalInv(s) && !step.Main?
    ensures SignalInv(Act(s, step))
  {
    match step {
      case HandlerReads => HandlerReadsKeepsInv(s);
      case HandlerKills(pid) => HandlerKillsKeepsInv(s, pid);
      case SignalArrives => assert Flagged in Act(s, step).handlers;
      case WorkerEnds(_) =>
    }
  }

  lemma ActKeepsSignalInv(s: State, step: Step)
    requires SignalInv(s)
    ensures SignalInv(Act(s, step))
  {
    if !step.Main? {
      HandlerKeepsSignalInv(s, step);
    } else if s.pc.Spawning? || s.pc.Storing? || s.pc.Checking? || s.pc.Killing? {
      LaunchKeepsSignalInv(s, step.world);
    } else {
      DecideKeepsSignalInv(s, step.world);
    }
  }

  lemma {:induction false} RunKeepsSignalInv(steps: seq<Step>)
    ensures SignalInv(Run(Begin(), steps))
  {
    if steps != [] {
      RunKeepsSignalInv(steps[..|steps| - 1]);
      ActKeepsSignalInv(Run(Begin(), steps[..|steps| - 1]), steps[|steps| - 1]);
    }
  }

  /**
   No stop signal is lost. Whatever the interleaving, once a stop has been flagged and its handlers
   are done, a worker the supervisor is waiting on has been signalled.
   */
  lemma StopReachesTheWorker(steps: seq<Step>)
    ensures var s := Run(Begin(), steps);
            s.flag && s.handlers == multiset{} && s.pc == Waiting && s.live.Some? ==> s.live.value in s.signalled
  {
    RunKeepsSignalInv(steps);
  }

  /** The exit of a worker has been observed and the flag is up: the supervisor is about to stop. */
  predicate Stopping(s: State) {
    s.flag && (s.pc.Reaped? || s.pc.Deciding? || s.pc == Sleeping || s.pc.Exited?)
  }

  lemma StoppingStays(s: State, step: Step)
    requires Stopping(s)
    ensures Stopping(Act(s, step)) && Act(s, step).log == s.log
  {
  }

  /** After an exit observed while terminating, nothing is ever launched again. */
  lemma {:induction false} NoRelaunchWhileStopping(s: State, steps: seq<Step>)
    requires Stopping(s)
    ensures Stopping(Run(s, steps)) && Run(s, steps).log == s.log
  {
    if steps != [] {
      NoRelaunchWhileStopping(s, steps[..|steps| - 1]);
      StoppingStays(Run(s, steps[..|steps| - 1]), steps[|steps| - 1]);
    }
  }

  /** A supervisor that trusts its handler: no recheck of the flag between storing the pid and waiting. */
  function ActTrusting(s: State, step: Step): State {
    if step.Main? && s.pc.Checking? then s.(pc := Waiting) else Act(s, step)
  }

  function RunTrusting(s: State, steps: seq<Step>): State {
    if steps == [] then s else ActTrusting(RunTrusting(s, steps[..|steps| - 1]), steps[|steps| - 1])
  }

  lemma {:induction false} TrustingAppend(s: State, a: seq<Step>, b: seq<Step>)
    ensures RunTrusting(s, a + b) == RunTrusting(RunTrusting(s, a), b)
    decreases |b|
  {
    if b == [] {
      assert a + b == a;
    } else {
      assert (a + b)[..|a + b| - 1] == a + b[..|b| - 1];
      TrustingAppend(s, a, b[..|b| - 1]);
    }
  }

  lemma TrustingTwo(s: State, a: Step, b: Step)
    ensures RunTrusting(s, [a]) == ActTrusting(s, a)
    ensures RunTrusting(s, [a, b]) == ActTrusting(ActTrusting(s, a), b)
  {
    assert [a, b][..1] == [a] && [a][..0] == [];
  }

  /**
   The recheck of the flag after a spawn is what closes the race: a supervisor without it can end up
   waiting for a worker although a stop was flagged, its handler is done, and nothing was signalled.
   */
  lemma HandlerAloneMissesTheGap(w: World)
    requires w.spawns
    ensures var steps := [Main(w), Main(w)] + ([SignalArrives, HandlerReads] + [HandlerKills(0)]) + [Main(w), Main(w)];
            var s := RunTrusting(Begin(), steps);
            s.pc == Waiting && s.flag && s.handlers == multiset{} && s.live == Some(1) && s.signalled == {}
  {
    var handles := [SignalArrives, HandlerReads] + [HandlerKills(0)];
    TrustingAppend(Begin(), [Main(w), Main(w)], handles);
    TrustingAppend(Begin(), [Main(w), Main(w)] + handles, [Main(w), Main(w)]);
    TrustingTwo(Begin(), Main(w), Main(w));
    var spawned := RunTrusting(Begin(), [Main(w), Main(w)]);
    assert spawned.pc == Storing(1) && spawned.live == Some(1);
    HandledInTheGap(spawned);
    TrustingTwo(RunTrusting(spawned, handles), Main(w), Main(w));
  }

  /** Before a pid is stored a handler comes and goes without effect but the flag. */
  lemma HandledInTheGap(s: State)
    requires s.cell == 0 && s.handlers == multiset{} && s.pc.Storing?
    ensures RunTrusting(s, [SignalArrives, HandlerReads] + [HandlerKills(0)]) == s.(flag := true)
  {
    TrustingTwo(s, SignalArrives, HandlerReads);
    TrustingAppend(s, [SignalArrives, HandlerReads], [HandlerKills(0)]);
    var read := ActTrusting(ActTrusting(s, SignalArrives), HandlerReads);
    assert read == s.(flag := true, handlers := multiset{Holds(0)});
    TrustingTwo(read, HandlerKills(0), HandlerKills(0));
  }

  // ---- what an exit leads to

  /** The main path from a collected exit to its decision. */
  function Decided(s: State, w: World): State {
    MainStep(MainStep(MainStep(s, w), w), w)
  }

  /**
   How an exit is answered. While stopping: with exit code 0. A restart exit: with a relaunch, on trial exactly
   if an upgrade is staged then. Any other exit of a launch on trial and inside its time: with a rollback and
   the restored version, no longer on trial; and if there is no rolling back, or no trial, with the worker's
   own code, or 128 and the signal's number.
   */
  lemma ExitIsAnswered(s: State, status: Status, w: World)
    requires s.pc == Waiting && s.ended == Some(status)
    ensures var d := Decided(s, w);
            && d.cell == 0 && d.ended == None
            && (s.flag ==> d.pc == Exited(0) && d.log == s.log)
            && (!s.flag && status == Restart ==>
                  var again := MainStep(MainStep(d, w), w);
                  d.log == s.log + [Restarted] && again.pc == Spawning(First) && again.onTrial == w.staged)
            && (!s.flag && status != Restart && !(s.onTrial && w.inTrial) ==>
                  d.pc == Exited(if status.Code? then status.code else 128 + status.sig) && d.log == s.log)
            && (!s.flag && status != Restart && s.onTrial && w.inTrial ==>
                  var r := MainStep(d, w);
                  if w.reverts then r.pc == Spawning(Restored) && !r.onTrial && r.log == s.log + [RolledBack]
                  else r.pc == Exited(if status.Code? then status.code else 128 + status.sig) && r.log == s.log)
  {
  }

  /**
   How a spawn is answered. One that succeeds: its pid, used before by no worker, is published and then the
   flag is looked at. The failed spawn of a launch on trial: with a rollback and one more attempt. Any other:
   with exit code 1.
   */
  lemma SpawnIsAnswered(s: State, kind: Kind, w: World)
    requires s.pc == Spawning(kind)
    ensures var t := MainStep(s, w);
            && t.log == s.log + [Attempt]
            && (w.spawns ==>
                  && t.live == Some(s.nextPid) && t.nextPid == s.nextPid + 1
                  && MainStep(t, w).cell == s.nextPid
                  && MainStep(MainStep(t, w), w).pc == (if s.flag then Killing(s.nextPid) else Waiting)
                  && (s.flag ==> s.nextPid in MainStep(MainStep(MainStep(t, w), w), w).signalled))
            && (!w.spawns && kind == First && s.onTrial ==>
                  if w.reverts then MainStep(t, w).pc == Spawning(Restored) && !MainStep(t, w).onTrial
                  else MainStep(t, w).pc == Exited(1))
            && (!w.spawns && !(kind == First && s.onTrial) ==> t.pc == Exited(1))
  {
  }

  // ---- no hot loop

  function Count(log: seq<Mark>, m: Mark): nat {
    if log == [] then 0 else Count(log[..|log| - 1], m) + if log[|log| - 1] == m then 1 else 0
  }

  lemma CountSnoc(log: seq<Mark>, x: Mark, m: Mark)
    ensures Count(log + [x], m) == Count(log, m) + if x == m then 1 else 0
  {
    assert (log + [x])[..|log|] == log;
  }

  /** Whether the launch under way was found staged and has not been rolled back. */
  function Licensed(log: seq<Mark>): bool {
    if log == [] then false
    else match log[|log| - 1]
      case Peeked(staged) => staged
      case Attempt => Licensed(log[..|log| - 1])
      case RolledBack => false
      case Restarted => false
  }

  /** Every rollback is of a staged launch, and every launch but the first follows a restart exit. */
  predicate Orderly(log: seq<Mark>) {
    && (forall i | 0 <= i < |log| :: log[i] == RolledBack ==> Licensed(log[..i]))
    && (forall i | 0 < i < |log| :: log[i].Peeked? ==> log[i - 1] == Restarted)
  }

  /** Attempts already possible in the launch under way. */
  function Spent(s: State): nat {
    match s.pc
    case Peeking => 0
    case Spawning(kind) => if kind == First then 0 else 1
    case Sleeping => 0
    case RevertingSpawn => 1
    case RevertingExit(_) => 1
    case _ => if s.onTrial then 1 else 2
  }

  /** Rollbacks the launch under way may already have had. */
  function Reverted(s: State): nat {
    if s.pc == Peeking || s.pc == Sleeping || s.onTrial || s.pc == Spawning(First) then 0 else 1
  }

  predicate TrialInv(s: State) {
    && (s.pc == RevertingSpawn || s.pc.RevertingExit? ==> s.onTrial)
    && (s.pc == Spawning(Restored) ==> !s.onTrial)
  }

  predicate Bounded(s: State, attempts: nat, rollbacks: nat, restarts: nat) {
    attempts <= 2 * restarts + Spent(s) && rollbacks <= restarts + Reverted(s)
  }

  /** A trial is licensed; a launch is peeked at only first thing or after a restart exit. */
  predicate Ordered(s: State, licensed: bool, mayPeek: bool) {
    && (s.onTrial && !s.pc.Sleeping? && !s.pc.Peeking? && !s.pc.Exited? ==> licensed)
    && (s.pc == Peeking || s.pc == Sleeping ==> mayPeek)
  }

  predicate MayPeek(log: seq<Mark>) {
    log == [] || log[|log| - 1] == Restarted
  }

  predicate BoundInv(s: State) {
    && TrialInv(s) && Orderly(s.log)
    && Ordered(s, Licensed(s.log), MayPeek(s.log))
    && Bounded(s, Count(s.log, Attempt), Count(s.log, RolledBack), Count(s.log, Restarted))
  }

  /** The mark a main step adds, if any. */
  function MarkOf(s: State, w: World): Option<Mark> {
    match s.pc
    case Peeking => Some(Peeked(w.staged))
    case Spawning(_) => Some(Attempt)
    case RevertingSpawn => if w.reverts then Some(RolledBack) else None
    case Deciding(status) => if !s.flag && status == Restart then Some(Restarted) else None
    case RevertingExit(_) => if w.reverts then Some(RolledBack) else None
    case _ => None
  }

  lemma MainMarks(s: State, w: World)
    ensures MainStep(s, w).log == if MarkOf(s, w).Some? then s.log + [MarkOf(s, w).value] else s.log
  {
  }

  function Plus(n: nat, m: Option<Mark>, counted: Mark): nat {
    if m == Some(counted) then n + 1 else n
  }

  function LicensedAfter(licensed: bool, m: Option<Mark>): bool {
    match m
    case None => licensed
    case Some(Peeked(staged)) => staged
    case Some(Attempt) => licensed
    case Some(_) => false
  }

  lemma MainKeepsBounds(s: State, w: World, attempts: nat, rollbacks: nat, restarts: nat)
    requires TrialInv(s) && Bounded(s, attempts, rollbacks, restarts)
    ensures var m := MarkOf(s, w);
            && TrialInv(MainStep(s, w))
            && Bounded(MainStep(s, w), Plus(attempts, m, Attempt), Plus(rollbacks, m, RolledBack), Plus(restarts, m, Restarted))
  {
  }

  lemma MainKeepsOrder(s: State, w: World, licensed: bool, mayPeek: bool)
    requires TrialInv(s) && Ordered(s, licensed, mayPeek)
    ensures var m := MarkOf(s, w);
            && Ordered(MainStep(s, w), LicensedAfter(licensed, m), if m.Some? then m.value == Restarted else mayPeek)
            && (m == Some(RolledBack) ==> licensed) && (m.Some? && m.value.Peeked? ==> mayPeek)
  {
  }

  lemma LogSnoc(log: seq<Mark>, m: Mark)
    requires Orderly(log) && (m == RolledBack ==> Licensed(log)) && (m.Peeked? ==> MayPeek(log))
    ensures Orderly(log + [m])
    ensures Licensed(log + [m]) == LicensedAfter(Licensed(log), Some(m))
    ensures MayPeek(log + [m]) <==> m == Restarted
  {
    var after := log + [m];
    assert after[..|log|] == log;
    forall i | 0 <= i < |after| && after[i] == RolledBack ensures Licensed(after[..i]) {
      assert after[..i] == if i < |log| then log[..i] else log;
    }
  }

  lemma MainKeepsInv(s: State, w: World)
    requires BoundInv(s)
    ensures BoundInv(MainStep(s, w))
  {
    MainMarks(s, w);
    MainKeepsBounds(s, w, Count(s.log, Attempt), Count(s.log, RolledBack), Count(s.log, Restarted));
    MainKeepsOrder(s, w, Licensed(s.log), MayPeek(s.log));
    if MarkOf(s, w).Some? {
      var m := MarkOf(s, w).value;
      LogSnoc(s.log, m);
      CountSnoc(s.log, m, Attempt);
      CountSnoc(s.log, m, RolledBack);
      CountSnoc(s.log, m, Restarted);
    }
  }

  lemma OthersMarkNothing(s: State, step: Step)
    requires !step.Main?
    ensures Act(s, step).log == s.log && Act(s, step).pc == s.pc && Act(s, step).onTrial == s.onTrial
  {
  }

  lemma {:induction false} RunKeepsBound(steps: seq<Step>)
    ensures BoundInv(Run(Begin(), steps))
  {
    if steps != [] {
      var s, step := Run(Begin(), steps[..|steps| - 1]), steps[|steps| - 1];
      RunKeepsBound(steps[..|steps| - 1]);
      if step.Main? { MainKeepsInv(s, step.world); } else { OthersMarkNothing(s, step); }
    }
  }

  /** A licence traces back to a staged launch that nothing has rolled back or restarted since. */
  lemma {:induction false} LicenceSource(log: seq<Mark>) returns (i: nat)
    requires Licensed(log)
    ensures i < |log| && log[i] == Peeked(true) && forall k | i < k < |log| :: log[k] == Attempt
  {
    var n := |log| - 1;
    if log[n] == Attempt { i := LicenceSource(log[..n]); } else { i := n; }
  }

  /**
   No hot loop. In any run: at most two spawn attempts per launch and one rollback per launch, a launch
   being the first or one a restart exit asked for; a rollback only ever reverts a launch whose marker
   was staged; and between any two rollbacks lies a restart exit.
   */
  lemma NoHotLoop(steps: seq<Step>)
    ensures var log := Run(Begin(), steps).log;
            && Count(log, Attempt) <= 2 * (1 + Count(log, Restarted))
            && Count(log, RolledBack) <= 1 + Count(log, Restarted)
            && (forall j | 0 <= j < |log| && log[j] == RolledBack ::
                  exists i :: 0 <= i < j && log[i] == Peeked(true) && forall k | i < k < j :: log[k] == Attempt)
            && (forall i, j | 0 <= i < j < |log| && log[i] == RolledBack && log[j] == RolledBack ::
                  exists k :: i < k < j && log[k] == Restarted)
  {
    RunKeepsBound(steps);
    var log := Run(Begin(), steps).log;
    forall j | 0 <= j < |log| && log[j] == RolledBack
      ensures exists i :: 0 <= i < j && log[i] == Peeked(true) && forall k | i < k < j :: log[k] == Attempt
    {
      var i := LicenceSource(log[..j]);
      assert log[i] == Peeked(true);
      forall k | i < k < j ensures log[k] == Attempt { assert log[..j][k] == log[k]; }
    }
    forall i, j | 0 <= i < j < |log| && log[i] == RolledBack && log[j] == RolledBack
      ensures exists k :: i < k < j && log[k] == Restarted
    {
      var m := LicenceSource(log[..j]);
      assert log[..j][i] == RolledBack;
      assert log[m].Peeked? && log[m - 1] == Restarted;
    }
  }
}
