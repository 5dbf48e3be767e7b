/**
 The pet's aggregate of agent connections (src-tauri/src/pet_state_mapper.rs): `PetGlobalState`
 and `compute_pet_state`, and what any run of events leaves in it.
 */
module PetState {
  type Conn = string
  type Request = string

  datatype Status = Connecting | Connected | Prompting | Disconnected | Errored

  datatype Event =
    | StatusChanged(status: Status)
    | Failure
    | PermissionRequest(request: Request)
    | PermissionResolved(request: Request)
    | TurnComplete(reason: string)
    | ConversationStatusChanged(pendingReview: bool)
    | DelegationStarted(child: Conn)
    | DelegationCompleted(child: Conn)
    | Other  // content, tools, thinking: filtered out before the snapshot sees them

  datatype Envelope = Envelope(conn: Conn, payload: Event)

  datatype Pet = Idle | Waiting | Running | Failed | Review | Jumping

  datatype Snapshot = Snapshot(
    prompting: set<Conn>, erroring: set<Conn>, permissions: map<Request, Conn>, children: set<Conn>)

  const EMPTY := Snapshot({}, {}, map[], {})

  /** `is_acp_event_relevant`. */
  predicate Relevant(e: Event) {
    !e.Other?
  }

  function WithoutConn(permissions: map<Request, Conn>, conn: Conn): map<Request, Conn> {
    map r | r in permissions && permissions[r] != conn :: permissions[r]
  }

  /** `PetGlobalState::apply`. */
  function Applied(s: Snapshot, env: Envelope): Snapshot {
    var conn := env.conn;
    match env.payload
    case DelegationStarted(child) =>
      s.(children := s.children + {child}, prompting := s.prompting - {child}, erroring := s.erroring - {child})
    case DelegationCompleted(child) =>
      s.(children := s.children - {child}, prompting := s.prompting - {child}, erroring := s.erroring - {child},
         permissions := WithoutConn(s.permissions, child))
    case StatusChanged(status) =>
      if conn in s.children then
        if status == Disconnected
        then s.(children := s.children - {conn}, permissions := WithoutConn(s.permissions, conn)) else s
      else (match status
        case Prompting => s.(prompting := s.prompting + {conn}, erroring := s.erroring - {conn})
        case Connected => s.(prompting := s.prompting - {conn}, erroring := s.erroring - {conn})
        case Connecting => s.(prompting := s.prompting - {conn}, erroring := s.erroring - {conn})
        case Errored => s.(erroring := s.erroring + {conn}, prompting := s.prompting - {conn})
        case Disconnected =>
          s.(prompting := s.prompting - {conn}, erroring := s.erroring - {conn},
             permissions := WithoutConn(s.permissions, conn)))
    case Failure => if conn in s.children then s else s.(erroring := s.erroring + {conn})
    case PermissionRequest(request) => s.(permissions := s.permissions[request := conn])
    case PermissionResolved(request) => s.(permissions := s.permissions - {request})
    case TurnComplete(_) =>
      s.(prompting := if conn in s.children then s.prompting else s.prompting - {conn},
         permissions := WithoutConn(s.permissions, conn))
    case ConversationStatusChanged(_) => s
    case Other => s
  }

  /** `reset_after_overrun`: everything but the sub-agent classification. */
  function Reset(s: Snapshot): Snapshot {
    s.(prompting := {}, erroring := {}, permissions := map[])
  }

  function Compute(s: Snapshot): Pet {
    if s.erroring != {} then Failed
    else if s.permissions != map[] then Waiting
    else if s.prompting != {} then Running
    else Idle
  }

  /** `PetGlobalState`, updated in place. */
  class PetGlobalState {
    var prompting: set<Conn>
    var erroring: set<Conn>
    var pendingPermissions: map<Request, Conn>
    var delegationChildren: set<Conn>

    function Value(): Snapshot
      reads this
    {
      Snapshot(prompting, erroring, pendingPermissions, delegationChildren)
    }

    constructor ()
      ensures Value() == EMPTY
    {
      prompting, erroring, pendingPermissions, delegationChildren := {}, {}, map[], {};
    }

    method DropPermissionsOf(conn: Conn)
      modifies this`pendingPermissions
      ensures pendingPermissions == WithoutConn(old(pendingPermissions), conn)
    {
      pendingPermissions := map r | r in pendingPermissions && pendingPermissions[r] != conn :: pendingPermissions[r];
    }

    method Apply(env: Envelope)
      modifies this
      ensures Value() == Applied(old(Value()), env)
    {
      var conn := env.conn;
      match env.payload
      case DelegationStarted(child) =>
        delegationChildren := delegationChildren + {child};
        prompting := prompting - {child};
        erroring := erroring - {child};
      case DelegationCompleted(child) =>
        delegationChildren := delegationChildren - {child};
        prompting := prompting - {child};
        erroring := erroring - {child};
        DropPermissionsOf(child);
      case _ =>
        if conn in delegationChildren { ApplyChild(env); } else { ApplySession(env); }
    }

    /** A tracked sub-agent's work is swallowed; its permissions are not. */
    method ApplyChild(env: Envelope)
      requires env.conn in delegationChildren
      requires !env.payload.DelegationStarted? && !env.payload.DelegationCompleted?
      modifies this
      ensures Value() == Applied(old(Value()), env)
    {
      match env.payload
      case PermissionRequest(request) => pendingPermissions := pendingPermissions[request := env.conn];
      case PermissionResolved(request) => pendingPermissions := pendingPermissions - {request};
      case TurnComplete(_) => DropPermissionsOf(env.conn);
      case StatusChanged(status) =>
        if status == Disconnected {
          delegationChildren := delegationChildren - {env.conn};
          DropPermissionsOf(env.conn);
        }
      case _ =>
    }

    method ApplySession(env: Envelope)
      requires env.conn !in delegationChildren
      requires !env.payload.DelegationStarted? && !env.payload.DelegationCompleted?
      modifies this
      ensures Value() == Applied(old(Value()), env)
    {
      match env.payload
      case StatusChanged(status) =>
        prompting := if status == Prompting then prompting + {env.conn} else prompting - {env.conn};
        erroring := if status == Errored then erroring + {env.conn} else erroring - {env.conn};
        if status == Disconnected { DropPermissionsOf(env.conn); }
      case Failure => erroring := erroring + {env.conn};
      case PermissionRequest(request) => pendingPermissions := pendingPermissions[request := env.conn];
      case PermissionResolved(request) => pendingPermissions := pendingPermissions - {request};
      case TurnComplete(_) =>
        prompting := prompting - {env.conn};
        DropPermissionsOf(env.conn);
      case _ =>
    }

    method ResetAfterOverrun()
      modifies this
      ensures Value() == Reset(old(Value()))
    {
      prompting, erroring, pendingPermissions := {}, {}, map[];
    }
  }

  // ---- runs of events

  /** What changes the snapshot: an event, an overrun of the bus, or the end of a failure's recovery time. */
  datatype Input = Delivered(env: Envelope) | Overrun | Recovered

  function Step(s: Snapshot, i: Input): Snapshot {
    match i
    case Delivered(env) => if Relevant(env.payload) then Applied(s, env) else s
    case Overrun => Reset(s)
    case Recovered => s.(erroring := {})
  }

  function After(s: Snapshot, run: seq<Input>): Snapshot {
    if run == [] then s else Step(After(s, run[..|run| - 1]), run[|run| - 1])
  }

  /** This input raises the request for the connection. */
  predicate Raises(i: Input, r: Request, c: Conn) {
    i == Delivered(Envelope(c, PermissionRequest(r)))
  }

  /** This input ends the request of the connection, or gives the request to another one. */
  predicate Ends(i: Input, r: Request, c: Conn) {
    match i
    case Overrun => true
    case Recovered => false
    case Delivered(env) =>
      match env.payload
      case PermissionResolved(q) => q == r
      case PermissionRequest(q) => q == r && env.conn != c
      case TurnComplete(_) => env.conn == c
      case StatusChanged(status) => env.conn == c && status == Disconnected
      case DelegationCompleted(child) => child == c
      case _ => false
  }

  /** Some input raised it and none since has ended it. */
  ghost predicate Outstanding(run: seq<Input>, r: Request, c: Conn) {
    exists i :: 0 <= i < |run| && Raises(run[i], r, c) && forall j | i < j < |run| :: !Ends(run[j], r, c)
  }

  lemma StepPermission(s: Snapshot, i: Input, r: Request, c: Conn)
    ensures (r in Step(s, i).permissions && Step(s, i).permissions[r] == c) <==>
            Raises(i, r, c) || (r in s.permissions && s.permissions[r] == c && !Ends(i, r, c))
  {
  }

  /**
   After any run, for sub-agents and sessions alike, a permission is pending for a connection exactly
   when it was raised and not resolved, ended with its turn, its connection or its delegation, taken
   over, or wiped by an overrun since.
   */
  lemma {:induction false} PendingIffOutstanding(run: seq<Input>, r: Request, c: Conn)
    ensures var p := After(EMPTY, run).permissions;
            (r in p && p[r] == c) <==> Outstanding(run, r, c)
  {
    if run != [] {
      var n := |run| - 1;
      PendingIffOutstanding(run[..n], r, c);
      StepPermission(After(EMPTY, run[..n]), run[n], r, c);
      if Outstanding(run[..n], r, c) && !Ends(run[n], r, c) {
        var i :| 0 <= i < n && Raises(run[..n][i], r, c) && forall j | i < j < n :: !Ends(run[..n][j], r, c);
        assert Raises(run[i], r, c);
        forall j | i < j < |run| ensures !Ends(run[j], r, c) { if j < n { assert run[..n][j] == run[j]; } }
      }
      if Raises(run[n], r, c) { assert Outstanding(run, r, c); }
      if Outstanding(run, r, c) && !Raises(run[n], r, c) {
        var i :| 0 <= i < |run| && Raises(run[i], r, c) && forall j | i < j < |run| :: !Ends(run[j], r, c);
        assert run[..n][i] == run[i];
        assert Outstanding(run[..n], r, c);
      }
    }
  }

  // ---- who is tracked, busy or failing, said of the events alone

  predicate Announces(i: Input, c: Conn) {
    i.Delivered? && i.env.payload == DelegationStarted(c)
  }

  /** The delegation is over, or the sub-agent's connection is. */
  predicate Forgets(i: Input, c: Conn) {
    i.Delivered? && (i.env.payload == DelegationCompleted(c) ||
                     (i.env.conn == c && i.env.payload == StatusChanged(Disconnected)))
  }

  /** Announced as a sub-agent and not forgotten since. */
  ghost predicate Tracked(run: seq<Input>, c: Conn) {
    exists i :: 0 <= i < |run| && Announces(run[i], c) && forall j | i < j < |run| :: !Forgets(run[j], c)
  }

  predicate StartsPrompting(i: Input, c: Conn) {
    i == Delivered(Envelope(c, StatusChanged(Prompting)))
  }

  /** Any other status, the end of the turn, any word of a delegation to it, or an overrun. */
  predicate StopsPrompting(i: Input, c: Conn) {
    || i == Overrun
    || (i.Delivered? && i.env.conn == c &&
        (i.env.payload.TurnComplete? || (i.env.payload.StatusChanged? && i.env.payload.status != Prompting)))
    || (i.Delivered? && (i.env.payload == DelegationStarted(c) || i.env.payload == DelegationCompleted(c)))
  }

  /** It began a prompt while it was nobody's sub-agent, and nothing since has ended that. */
  ghost predicate LeftPrompting(run: seq<Input>, c: Conn) {
    exists i :: 0 <= i < |run| && PromptingFrom(run, c, i)
  }

  ghost predicate PromptingFrom(run: seq<Input>, c: Conn, i: nat)
    requires i < |run|
  {
    StartsPrompting(run[i], c) && !Tracked(run[..i], c) && forall j | i < j < |run| :: !StopsPrompting(run[j], c)
  }

  predicate Fails(i: Input, c: Conn) {
    i == Delivered(Envelope(c, Failure)) || i == Delivered(Envelope(c, StatusChanged(Errored)))
  }

  /** Any other status, any word of a delegation to it, an overrun, or the end of a recovery time. */
  predicate StopsFailing(i: Input, c: Conn) {
    || i == Overrun || i == Recovered
    || (i.Delivered? && i.env.conn == c && i.env.payload.StatusChanged? && i.env.payload.status != Errored)
    || (i.Delivered? && (i.env.payload == DelegationStarted(c) || i.env.payload == DelegationCompleted(c)))
  }

  /** It failed while it was nobody's sub-agent, and nothing since has ended that. */
  ghost predicate LeftFailing(run: seq<Input>, c: Conn) {
    exists i :: 0 <= i < |run| && FailingFrom(run, c, i)
  }

  ghost predicate FailingFrom(run: seq<Input>, c: Conn, i: nat)
    requires i < |run|
  {
    Fails(run[i], c) && !Tracked(run[..i], c) && forall j | i < j < |run| :: !StopsFailing(run[j], c)
  }

  lemma TrackedOneMore(run: seq<Input>, c: Conn)
    requires run != []
    ensures var init, last := run[..|run| - 1], run[|run| - 1];
            Tracked(run, c) <==> Announces(last, c) || (Tracked(init, c) && !Forgets(last, c))
  {
    var n := |run| - 1;
    var init := run[..n];
    if i :| 0 <= i < n && Announces(init[i], c) && forall j | i < j < n :: !Forgets(init[j], c) {
      if !Forgets(run[n], c) {
        assert Announces(run[i], c);
        forall j | i < j < |run| ensures !Forgets(run[j], c) { if j < n { assert init[j] == run[j]; } }
      }
    }
    if Announces(run[n], c) { assert Tracked(run, c); }
    if i :| 0 <= i < |run| && Announces(run[i], c) && forall j | i < j < |run| :: !Forgets(run[j], c) {
      if i < n { assert Announces(init[i], c); }
    }
  }

  lemma {:induction false} ChildrenIffTracked(run: seq<Input>, c: Conn)
    ensures c in After(EMPTY, run).children <==> Tracked(run, c)
  {
    if run != [] {
      ChildrenIffTracked(run[..|run| - 1], c);
      TrackedOneMore(run, c);
    }
  }

  lemma PromptingFromOneMore(run: seq<Input>, c: Conn, i: nat)
    requires i < |run| - 1
    ensures PromptingFrom(run, c, i) <==> PromptingFrom(run[..|run| - 1], c, i) && !StopsPrompting(run[|run| - 1], c)
  {
    var init := run[..|run| - 1];
    assert init[..i] == run[..i];
    if PromptingFrom(init, c, i) && !StopsPrompting(run[|run| - 1], c) {
      forall j | i < j < |run| ensures !StopsPrompting(run[j], c) { if j < |init| { assert init[j] == run[j]; } }
    }
  }

  lemma PromptingOneMore(run: seq<Input>, c: Conn)
    requires run != []
    ensures var init, last := run[..|run| - 1], run[|run| - 1];
            LeftPrompting(run, c) <==> (StartsPrompting(last, c) && !Tracked(init, c)) || (LeftPrompting(init, c) && !StopsPrompting(last, c))
  {
    var n := |run| - 1;
    forall i: nat | i < n ensures PromptingFrom(run, c, i) <==> PromptingFrom(run[..n], c, i) && !StopsPrompting(run[n], c) {
      PromptingFromOneMore(run, c, i);
    }
    assert PromptingFrom(run, c, n) <==> StartsPrompting(run[n], c) && !Tracked(run[..n], c);
  }

  lemma FailingFromOneMore(run: seq<Input>, c: Conn, i: nat)
    requires i < |run| - 1
    ensures FailingFrom(run, c, i) <==> FailingFrom(run[..|run| - 1], c, i) && !StopsFailing(run[|run| - 1], c)
  {
    var init := run[..|run| - 1];
    assert init[..i] == run[..i];
    if FailingFrom(init, c, i) && !StopsFailing(run[|run| - 1], c) {
      forall j | i < j < |run| ensures !StopsFailing(run[j], c) { if j < |init| { assert init[j] == run[j]; } }
    }
  }

  lemma FailingOneMore(run: seq<Input>, c: Conn)
    requires run != []
    ensures var init, last := run[..|run| - 1], run[|run| - 1];
            LeftFailing(run, c) <==> (Fails(last, c) && !Tracked(init, c)) || (LeftFailing(init, c) && !StopsFailing(last, c))
  {
    var n := |run| - 1;
    forall i: nat | i < n ensures FailingFrom(run, c, i) <==> FailingFrom(run[..n], c, i) && !StopsFailing(run[n], c) {
      FailingFromOneMore(run, c, i);
    }
    assert FailingFrom(run, c, n) <==> Fails(run[n], c) && !Tracked(run[..n], c);
  }

  lemma StepPrompting(s: Snapshot, i: Input, c: Conn)
    requires s.children !! s.prompting
    ensures c in Step(s, i).prompting <==>
            (StartsPrompting(i, c) && c !in s.children) || (c in s.prompting && !StopsPrompting(i, c))
  {
  }

  lemma StepFailing(s: Snapshot, i: Input, c: Conn)
    requires s.children !! s.erroring
    ensures c in Step(s, i).erroring <==>
            (Fails(i, c) && c !in s.children) || (c in s.erroring && !StopsFailing(i, c))
  {
  }

  /** After any run a connection counts as busy exactly if it was left prompting, told by the events alone. */
  lemma {:induction false} PromptingIffLeftPrompting(run: seq<Input>, c: Conn)
    ensures c in After(EMPTY, run).prompting <==> LeftPrompting(run, c)
  {
    if run != [] {
      var n := |run| - 1;
      PromptingIffLeftPrompting(run[..n], c);
      ChildrenIffTracked(run[..n], c);
      ChildrenStayOut(run[..n]);
      StepPrompting(After(EMPTY, run[..n]), run[n], c);
      PromptingOneMore(run, c);
    }
  }

  /** And as failing exactly if it was left failing. */
  lemma {:induction false} FailingIffLeftFailing(run: seq<Input>, c: Conn)
    ensures c in After(EMPTY, run).erroring <==> LeftFailing(run, c)
  {
    if run != [] {
      var n := |run| - 1;
      FailingIffLeftFailing(run[..n], c);
      ChildrenIffTracked(run[..n], c);
      ChildrenStayOut(run[..n]);
      StepFailing(After(EMPTY, run[..n]), run[n], c);
      FailingOneMore(run, c);
    }
  }

  /** Tracked sub-agents never make the pet look busy or failed. */
  lemma {:induction false} ChildrenStayOut(run: seq<Input>)
    ensures After(EMPTY, run).children !! (After(EMPTY, run).prompting + After(EMPTY, run).erroring)
  {
    if run != [] { ChildrenStayOut(run[..|run| - 1]); }
  }

  // ---- a delegated child's work leaves no trace

  /** Status reports and errors of `c`, short of its disconnect. */
  predicate IsWorkOf(i: Input, c: Conn) {
    i.Delivered? && i.env.conn == c &&
    (i.env.payload.Failure? || (i.env.payload.StatusChanged? && i.env.payload.status != Disconnected))
  }

  function WithoutWork(run: seq<Input>, c: Conn): seq<Input> {
    if run == [] then []
    else
      var n := |run| - 1;
      WithoutWork(run[..n], c) + if IsWorkOf(run[n], c) then [] else [run[n]]
  }

  /** Equal but for whether `c` itself looks busy or failed. */
  predicate SameBut(s: Snapshot, t: Snapshot, c: Conn) {
    && s.permissions == t.permissions && s.children == t.children
    && s.prompting - {c} == t.prompting - {c} && s.erroring - {c} == t.erroring - {c}
  }

  lemma StepSameBut(s: Snapshot, t: Snapshot, i: Input, c: Conn)
    requires SameBut(s, t, c)
    ensures SameBut(Step(s, i), if IsWorkOf(i, c) then t else Step(t, i), c)
  {
    if i.Delivered? && i.env.conn != c {
      var d := i.env.conn;
      assert (s.prompting + {d}) - {c} == (s.prompting - {c}) + {d} && (t.prompting + {d}) - {c} == (t.prompting - {c}) + {d};
      assert (s.prompting - {d}) - {c} == (s.prompting - {c}) - {d} && (t.prompting - {d}) - {c} == (t.prompting - {c}) - {d};
      assert (s.erroring + {d}) - {c} == (s.erroring - {c}) + {d} && (t.erroring + {d}) - {c} == (t.erroring - {c}) + {d};
      assert (s.erroring - {d}) - {c} == (s.erroring - {c}) - {d} && (t.erroring - {d}) - {c} == (t.erroring - {c}) - {d};
    }
    if i.Delivered? && (i.env.payload.DelegationStarted? || i.env.payload.DelegationCompleted?) {
      var d := i.env.payload.child;
      assert (s.prompting - {d}) - {c} == (s.prompting - {c}) - {d} && (t.prompting - {d}) - {c} == (t.prompting - {c}) - {d};
      assert (s.erroring - {d}) - {c} == (s.erroring - {c}) - {d} && (t.erroring - {d}) - {c} == (t.erroring - {c}) - {d};
    }
  }

  lemma {:induction false} RunSameBut(s: Snapshot, run: seq<Input>, c: Conn)
    ensures SameBut(After(s, run), After(s, WithoutWork(run, c)), c)
  {
    if run != [] {
      var n := |run| - 1;
      RunSameBut(s, run[..n], c);
      StepSameBut(After(s, run[..n]), After(s, WithoutWork(run[..n], c)), run[n], c);
      AfterSnoc(s, WithoutWork(run[..n], c), run[n]);
      assert WithoutWork(run[..n], c) + [] == WithoutWork(run[..n], c);
    }
  }

  lemma TrackedStep(s: Snapshot, i: Input, c: Conn)
    requires c in s.children && !Forgets(i, c)
    ensures c in Step(s, i).children && (IsWorkOf(i, c) ==> Step(s, i) == s)
  {
  }

  lemma AfterSnoc(s: Snapshot, run: seq<Input>, i: Input)
    ensures After(s, run + [i]) == Step(After(s, run), i)
  {
    assert (run + [i])[..|run|] == run;
  }

  lemma {:induction false} TrackedIgnoresWork(s: Snapshot, run: seq<Input>, c: Conn)
    requires c in s.children && forall i | i in run :: !Forgets(i, c)
    ensures After(s, run) == After(s, WithoutWork(run, c)) && c in After(s, run).children
  {
    if run != [] {
      var n := |run| - 1;
      assert run[n] in run;
      TrackedIgnoresWork(s, run[..n], c);
      TrackedStep(After(s, run[..n]), run[n], c);
      AfterSnoc(s, WithoutWork(run[..n], c), run[n]);
      assert WithoutWork(run[..n], c) + [] == WithoutWork(run[..n], c);
    }
  }

  lemma {:induction false} AfterAppend(s: Snapshot, a: seq<Input>, b: seq<Input>)
    ensures After(s, a + b) == After(After(s, a), b)
    decreases |b|
  {
    if b == [] {
      assert a + b == a;
    } else {
      assert (a + b)[..|a + b| - 1] == a + b[..|b| - 1];
      AfterAppend(s, a, b[..|b| - 1]);
    }
  }

  /**
   A delegated child's work never shows. Delete all its status reports and errors, those that raced
   ahead of its announcement included: from the announcement on, for as long as the child is tracked,
   the snapshot is the same.
   */
  lemma ChildWorkNeverShows(before: seq<Input>, parent: Conn, child: Conn, since: seq<Input>)
    requires forall i | i in since :: !Forgets(i, child)
    ensures var announce := Delivered(Envelope(parent, DelegationStarted(child)));
            After(EMPTY, before + [announce] + since) ==
            After(EMPTY, WithoutWork(before, child) + [announce] + WithoutWork(since, child))
  {
    var announce := Delivered(Envelope(parent, DelegationStarted(child)));
    var w := WithoutWork(before, child);
    RunSameBut(EMPTY, before, child);
    assert (before + [announce])[..|before|] == before && (w + [announce])[..|w|] == w;
    var s := After(EMPTY, before + [announce]);
    assert s == After(EMPTY, w + [announce]);
    AfterAppend(EMPTY, before + [announce], since);
    AfterAppend(EMPTY, w + [announce], WithoutWork(since, child));
    TrackedIgnoresWork(s, since, child);
  }
}
