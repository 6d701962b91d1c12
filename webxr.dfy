/**
 * The browser driver: `start` spawns one task on a local executor that
 * checks that immersive VR is supported, requests a session and stores it in
 * a shared cell, then requests the bounded-floor reference space and stores
 * it in a second shared cell; `stop` ends the stored session; pumping the
 * executor lets the pending tasks make progress.
 *
 * The browser's promises are replies: each pending task sees a `Resolution`
 * of the promise it awaits.  Sessions are numbered in the order the browser
 * grants them.  The animation-frame loop the start task installs at its end and the
 * WebGL layer set-up are not modelled.
 */
module WebXrDriver {
  import opened Xr

  datatype XrSession = XrSession(id: nat)
  datatype ReferenceSpace = ReferenceSpace(id: nat)

  /** Where a start task is: not yet polled, or awaiting one of the three promises. */
  datatype Stage = Spawned | CheckingSupport | RequestingSession | RequestingSpace

  /**
   * A pending start task, with the generation of the session and
   * reference-space cells it writes to (the cells `start` shared with it).
   */
  datatype Task = Task(stage: Stage, cell: nat)

  /** What the promise a task awaits has done by the time the executor polls it. */
  datatype Resolution = Pending | Supported(yes: bool) | SessionGranted | SpaceGranted(space: ReferenceSpace)

  /**
   * The driver and the browser-side facts about it: the running flag, the
   * generation and contents of the current cells, the executor's pending
   * tasks in spawn order, the sessions ended and the sessions granted.
   */
  datatype WebState = WebState(
    running: bool,
    cell: nat,
    session: Option<XrSession>,
    refSpace: Option<ReferenceSpace>,
    tasks: seq<Task>,
    ended: seq<XrSession>,
    granted: seq<XrSession>)

  /** A new driver: not running, empty cells, no task. */
  const Initial: WebState := WebState(false, 0, None, None, [], [], [])

  /** `start`: a no-op while running; otherwise running, with one new task sharing the cells. */
  function AfterStart(st: WebState): (r: WebState)
    ensures r.running
    ensures st.running ==> r == st
    ensures !st.running ==>
      && r.tasks == st.tasks + [Task(Spawned, st.cell)]
      && r.cell == st.cell && r.session == st.session && r.refSpace == st.refSpace
      && r.ended == st.ended && r.granted == st.granted
  {
    if st.running then st
    else st.(running := true, tasks := st.tasks + [Task(Spawned, st.cell)])
  }

  /**
   * Whether some task of the current cells is awaiting its session: it took
   * the session cell's mutable borrow before the request and holds it until
   * the session is granted.
   */
  predicate SessionBorrowed(st: WebState) {
    exists j :: 0 <= j < |st.tasks| && st.tasks[j] == Task(RequestingSession, st.cell)
  }

  /**
   * `stop`: while running, borrows the session cell, which panics (`None`)
   * while a task holds it mutably borrowed; then ends the stored session, if
   * any, and stops running; the cell keeps the session.
   */
  function AfterStop(st: WebState): (r: Option<WebState>)
    ensures r.Some? ==> !r.value.running || r.value == st
  {
    if !st.running then Some(st)
    else if SessionBorrowed(st) then None
    else match st.session
      case Some(s) => Some(st.(running := false, ended := st.ended + [s]))
      case None => Some(st)
  }

  /** Start is idempotent: a second start spawns nothing. */
  lemma StartIdempotent(st: WebState)
    ensures AfterStart(AfterStart(st)) == AfterStart(st)
    ensures AfterStart(st).running
  {
  }

  /** Start spawns exactly one task, and only from not running; it touches nothing else. */
  lemma StartSpawns(st: WebState)
    ensures var r := AfterStart(st);
      && |r.tasks| == |st.tasks| + (if st.running then 0 else 1)
      && r.tasks[..|st.tasks|] == st.tasks
      && (!st.running ==> r.tasks[|st.tasks|] == Task(Spawned, st.cell))
      && r.session == st.session && r.ended == st.ended && r.granted == st.granted
  {
  }

  /**
   * Stop panics exactly when running while a task awaits its session.
   * Otherwise it acts exactly when running with a session stored: it ends
   * that session and stops running.  Without a stored session it leaves the
   * driver running.  A second stop changes nothing.
   */
  lemma StopGuard(st: WebState)
    ensures AfterStop(st).None? <==> st.running && SessionBorrowed(st)
    ensures AfterStop(st) == Some(st) <==> !st.running || (!SessionBorrowed(st) && st.session.None?)
    ensures st.running && !SessionBorrowed(st) && st.session.Some? ==>
      AfterStop(st) == Some(st.(running := false, ended := st.ended + [st.session.value]))
    ensures AfterStop(st).Some? ==> var r := AfterStop(st).value;
      r.tasks == st.tasks && r.session == st.session && AfterStop(r) == Some(r)
  {
  }

  // ===========================================================================
  // The executor

  /** A task still before its session request is answered. */
  predicate BeforeGrant(t: Task) {
    t.stage == Spawned || t.stage == CheckingSupport || t.stage == RequestingSession
  }

  /**
   * Whether a task other than task `i` holds a borrow of the cells of
   * generation `cell`: awaiting its session it holds the session cell
   * mutably; awaiting its reference space it holds the session cell shared
   * and the reference-space cell mutably.
   */
  predicate HoldsBorrow(tasks: seq<Task>, i: nat, cell: nat) {
    exists j :: 0 <= j < |tasks| && j != i && tasks[j].cell == cell
      && (tasks[j].stage == RequestingSession || tasks[j].stage == RequestingSpace)
  }

  /** What polling one task does. */
  datatype Poll = Panicked | Stepped(next: WebState) | Completed(next: WebState)

  /**
   * One poll of task `i`: a new task runs to the support check; its absence
   * panics; support makes the task borrow the session cell mutably and
   * request a session (a panic if another task holds a borrow of that cell);
   * a granted session is stored in the task's cell, which the task then
   * borrows shared while it borrows the reference-space cell mutably and
   * requests the space (a panic if another task holds a borrow of those
   * cells); a granted space is stored and the task completes.
   */
  function Advance(st: WebState, i: nat, r: Resolution): (p: Poll)
    requires i < |st.tasks|
    ensures !p.Panicked? ==> p.next.running == st.running && p.next.ended == st.ended && p.next.cell == st.cell
    ensures p.Stepped? ==>
      && |p.next.tasks| == |st.tasks|
      && (forall j :: 0 <= j < |st.tasks| && j != i ==> p.next.tasks[j] == st.tasks[j])
    ensures p.Completed? ==> p.next.tasks == st.tasks[..i] + st.tasks[i + 1..]
    ensures !p.Panicked? ==> p.next.granted in {st.granted, st.granted + [XrSession(|st.granted|)]}
  {
    var t := st.tasks[i];
    match t.stage
    case Spawned => Stepped(st.(tasks := st.tasks[i := t.(stage := CheckingSupport)]))
    case CheckingSupport =>
      if r == Supported(false) then Panicked
      else if r != Supported(true) then Stepped(st)
      else if HoldsBorrow(st.tasks, i, t.cell) then Panicked
      else Stepped(st.(tasks := st.tasks[i := t.(stage := RequestingSession)]))
    case RequestingSession =>
      if r != SessionGranted then Stepped(st)
      else if HoldsBorrow(st.tasks, i, t.cell) then Panicked
      else
        var s := XrSession(|st.granted|);
        Stepped(st.(session := if t.cell == st.cell then Some(s) else st.session,
                    granted := st.granted + [s],
                    tasks := st.tasks[i := t.(stage := RequestingSpace)]))
    case RequestingSpace =>
      if !r.SpaceGranted? then Stepped(st)
      else Completed(st.(refSpace := if t.cell == st.cell then Some(r.space) else st.refSpace,
                         tasks := st.tasks[..i] + st.tasks[i + 1..]))
  }

  /** The resolution task `i` sees; tasks without one see their promise pending. */
  function ResolutionOf(res: seq<Resolution>, i: nat): Resolution {
    if i < |res| then res[i] else Pending
  }

  /** Polls the start tasks from `i` on, in order, until one completes; `None` on a panic. */
  function PollFrom(st: WebState, res: seq<Resolution>, i: nat): (r: Option<WebState>)
    requires i <= |st.tasks|
    ensures r.Some? ==> r.value.running == st.running && r.value.ended == st.ended && r.value.cell == st.cell
    ensures r.Some? ==> st.granted <= r.value.granted && |r.value.granted| <= |st.granted| + |st.tasks| - i
    ensures r.Some? ==> forall k :: |st.granted| <= k < |r.value.granted| ==> r.value.granted[k] == XrSession(k)
    decreases |st.tasks| - i
  {
    if i == |st.tasks| then Some(st)
    else match Advance(st, i, ResolutionOf(res, i))
      case Panicked => None
      case Completed(next) => Some(next)
      case Stepped(next) => PollFrom(next, res, i + 1)
  }

  /** `process_events`: one run of the executor, polling every task once until one completes. */
  function RunOne(st: WebState, res: seq<Resolution>): (r: Option<WebState>)
    ensures r.Some? ==> r.value.running == st.running && r.value.ended == st.ended && r.value.cell == st.cell
    ensures r.Some? ==> st.granted <= r.value.granted && |r.value.granted| <= |st.granted| + |st.tasks|
    ensures r.Some? ==> forall k :: |st.granted| <= k < |r.value.granted| ==> r.value.granted[k] == XrSession(k)
  {
    PollFrom(st, res, 0)
  }

  /**
   * A run of the executor completes at most one task and spawns none; it
   * leaves the running flag and the ended sessions alone.
   */
  lemma {:induction false} PollFromBounds(st: WebState, res: seq<Resolution>, i: nat)
    requires i <= |st.tasks|
    ensures var r := PollFrom(st, res, i);
      r.Some? ==>
        && |st.tasks| - 1 <= |r.value.tasks| <= |st.tasks|
        && r.value.running == st.running && r.value.ended == st.ended && r.value.cell == st.cell
    decreases |st.tasks| - i
  {
    if i < |st.tasks| {
      match Advance(st, i, ResolutionOf(res, i))
      case Panicked =>
      case Completed(next) =>
      case Stepped(next) => PollFromBounds(next, res, i + 1);
    }
  }

  lemma RunOneBounds(st: WebState, res: seq<Resolution>)
    ensures var r := RunOne(st, res);
      r.Some? ==>
        && |st.tasks| - 1 <= |r.value.tasks| <= |st.tasks|
        && r.value.running == st.running && r.value.ended == st.ended
  {
    PollFromBounds(st, res, 0);
  }

  /** A driver with no pending task is not changed by pumping. */
  lemma RunOneIdle(st: WebState, res: seq<Resolution>)
    requires st.tasks == []
    ensures RunOne(st, res) == Some(st)
  {
  }

  // ===========================================================================
  // Runs of the driver

  datatype Command = StartCmd | StopCmd | PumpCmd(res: seq<Resolution>)

  /**
   * The driver after a sequence of calls; `None` once a task panicked.
   * `freshCells` selects the corrected `start` (below) instead of the one as written.
   */
  function Exec(st: WebState, cmds: seq<Command>, freshCells: bool): Option<WebState>
    decreases |cmds|
  {
    if cmds == [] then Some(st)
    else match Perform(st, cmds[0], freshCells)
      case None => None
      case Some(next) => Exec(next, cmds[1..], freshCells)
  }

  /** One call. */
  function Perform(st: WebState, cmd: Command, freshCells: bool): Option<WebState> {
    match cmd
    case StartCmd => Some(if freshCells then AfterStartFresh(st) else AfterStart(st))
    case StopCmd => AfterStop(st)
    case PumpCmd(res) => RunOne(st, res)
  }

  /** A run through the given intermediate states. */
  lemma {:induction false} ExecThrough(states: seq<WebState>, cmds: seq<Command>, freshCells: bool)
    requires |states| == |cmds| + 1
    requires forall k :: 0 <= k < |cmds| ==> Perform(states[k], cmds[k], freshCells) == Some(states[k + 1])
    ensures Exec(states[0], cmds, freshCells) == Some(states[|cmds|])
    decreases |cmds|
  {
    if cmds != [] {
      ExecThrough(states[1..], cmds[1..], freshCells);
    }
  }

  /** A single new task runs to the support check on its first poll. */
  lemma PollSpawned(st: WebState)
    requires |st.tasks| == 1 && st.tasks[0].stage == Spawned
    ensures RunOne(st, [Pending]) == Some(st.(tasks := [st.tasks[0].(stage := CheckingSupport)]))
  {
    RunSingle(st, Pending);
    assert st.tasks[0 := st.tasks[0].(stage := CheckingSupport)] == [st.tasks[0].(stage := CheckingSupport)];
  }

  /** A single task told that immersive VR is supported goes on to request a session. */
  lemma PollSupported(st: WebState)
    requires |st.tasks| == 1 && st.tasks[0].stage == CheckingSupport
    ensures RunOne(st, [Supported(true)]) == Some(st.(tasks := [st.tasks[0].(stage := RequestingSession)]))
  {
    RunSingle(st, Supported(true));
    assert !HoldsBorrow(st.tasks, 0, st.tasks[0].cell);
    assert st.tasks[0 := st.tasks[0].(stage := RequestingSession)] == [st.tasks[0].(stage := RequestingSession)];
  }

  /** A single task granted a session stores the next session in its cell and requests the space. */
  lemma PollGranted(st: WebState)
    requires |st.tasks| == 1 && st.tasks[0].stage == RequestingSession
    ensures var t := st.tasks[0]; var s := XrSession(|st.granted|);
      RunOne(st, [SessionGranted]) == Some(st.(session := if t.cell == st.cell then Some(s) else st.session,
        granted := st.granted + [s], tasks := [t.(stage := RequestingSpace)]))
  {
    RunSingle(st, SessionGranted);
    assert !HoldsBorrow(st.tasks, 0, st.tasks[0].cell);
    assert st.tasks[0 := st.tasks[0].(stage := RequestingSpace)] == [st.tasks[0].(stage := RequestingSpace)];
  }

  /** A single task granted its space stores it and completes. */
  lemma PollSpace(st: WebState, space: ReferenceSpace)
    requires |st.tasks| == 1 && st.tasks[0].stage == RequestingSpace
    ensures RunOne(st, [SpaceGranted(space)]) ==
      Some(st.(refSpace := if st.tasks[0].cell == st.cell then Some(space) else st.refSpace, tasks := []))
  {
    RunSingle(st, SpaceGranted(space));
    assert st.tasks[..0] + st.tasks[1..] == [];
  }

  /** A run of the executor with a single pending task is one poll of it. */
  lemma RunSingle(st: WebState, r: Resolution)
    requires |st.tasks| == 1
    ensures RunOne(st, [r]) == match Advance(st, 0, r)
      case Panicked => None
      case Stepped(next) => Some(next)
      case Completed(next) => Some(next)
  {
    match Advance(st, 0, r) {
      case Panicked =>
      case Completed(next) =>
      case Stepped(next) => assert PollFrom(next, [r], 1) == Some(next);
    }
  }

  /** The guard the running flag is meant to give: every session ended once, none left live when stopped. */
  ghost predicate Intended(st: WebState) {
    && (forall i, j :: 0 <= i < j < |st.ended| ==> st.ended[i] != st.ended[j])
    && (!st.running ==> forall s :: s in st.granted ==> s in st.ended)
  }

  /** Start, be granted session 0 and its space, stop; start again and stop before the new grant; then be granted session 1. */
  const Restart: seq<Command> := FirstRun + [StopCmd, StartCmd, StopCmd] + SecondGrant

  /** Start; the single task is polled, told immersive VR is supported, granted a session and granted its space. */
  const FirstRun: seq<Command> := [
    StartCmd, PumpCmd([Pending]), PumpCmd([Supported(true)]), PumpCmd([SessionGranted]),
    PumpCmd([SpaceGranted(ReferenceSpace(0))])]

  /** The single pending task is polled, told immersive VR is supported and granted a session. */
  const SecondGrant: seq<Command> := [PumpCmd([Pending]), PumpCmd([Supported(true)]), PumpCmd([SessionGranted])]

  /** Running two call sequences one after the other is running their concatenation. */
  lemma {:induction false} ExecConcat(st: WebState, a: seq<Command>, b: seq<Command>, freshCells: bool)
    ensures Exec(st, a + b, freshCells) ==
      match Exec(st, a, freshCells) case None => None case Some(m) => Exec(m, b, freshCells)
    decreases |a|
  {
    if a == [] {
      assert a + b == b;
    } else {
      assert (a + b)[0] == a[0];
      assert (a + b)[1..] == a[1..] + b;
      match Perform(st, a[0], freshCells) {
        case None =>
        case Some(next) => ExecConcat(next, a[1..], b, freshCells);
      }
    }
  }

  /** The first run leaves session 0 and its space stored, and no task pending. */
  lemma FirstRunStores()
    ensures Exec(Initial, FirstRun, false) ==
      Some(WebState(true, 0, Some(XrSession(0)), Some(ReferenceSpace(0)), [], [], [XrSession(0)]))
  {
    var s1 := AfterStart(Initial);
    assert s1.tasks == [Task(Spawned, 0)];
    var s2 := s1.(tasks := [Task(CheckingSupport, 0)]);
    var s3 := s2.(tasks := [Task(RequestingSession, 0)]);
    var s4 := s3.(session := Some(XrSession(0)), granted := [XrSession(0)], tasks := [Task(RequestingSpace, 0)]);
    assert s3.granted + [XrSession(0)] == [XrSession(0)];
    var s5 := s4.(refSpace := Some(ReferenceSpace(0)), tasks := []);
    PollSpawned(s1);
    PollSupported(s2);
    PollGranted(s3);
    PollSpace(s4, ReferenceSpace(0));
    var states := [Initial, s1, s2, s3, s4, s5];
    forall k | 0 <= k < |FirstRun| ensures Perform(states[k], FirstRun[k], false) == Some(states[k + 1]) {
      if k == 0 { assert states[1] == s1; }
      else if k == 1 { assert states[2] == s2; }
      else if k == 2 { assert states[3] == s3; }
      else if k == 3 { assert states[4] == s4; }
      else { assert k == 4 && states[5] == s5; }
    }
    ExecThrough(states, FirstRun, false);
  }

  /** From a single task of the current cells just spawned, the second grant stores the next session. */
  lemma SecondGrantStores(st: WebState)
    requires st.tasks == [Task(Spawned, st.cell)]
    ensures Exec(st, SecondGrant, false) == Some(st.(session := Some(XrSession(|st.granted|)),
      granted := st.granted + [XrSession(|st.granted|)], tasks := [Task(RequestingSpace, st.cell)]))
  {
    var s1 := st.(tasks := [Task(CheckingSupport, st.cell)]);
    var s2 := s1.(tasks := [Task(RequestingSession, st.cell)]);
    var s3 := s2.(session := Some(XrSession(|st.granted|)), granted := st.granted + [XrSession(|st.granted|)],
                  tasks := [Task(RequestingSpace, st.cell)]);
    PollSpawned(st);
    PollSupported(s1);
    PollGranted(s2);
    var states := [st, s1, s2, s3];
    forall k | 0 <= k < |SecondGrant| ensures Perform(states[k], SecondGrant[k], false) == Some(states[k + 1]) {
      if k == 0 { assert states[1] == s1; }
      else if k == 1 { assert states[2] == s2; }
      else { assert k == 2 && states[3] == s3; }
    }
    ExecThrough(states, SecondGrant, false);
  }

  /**
   * As written, the second stop, made before the second task is first
   * polled, finds the first session still in the cell: it ends session 0
   * again and stops running while the second task is pending; that task then
   * stores session 1, which no later stop ends, since the driver is not
   * running.
   */
  lemma StaleSessionStop()
    ensures var r := Exec(Initial, Restart, false);
      && r.Some?
      && r.value.ended == [XrSession(0), XrSession(0)]
      && !r.value.running
      && r.value.session == Some(XrSession(1))
      && XrSession(1) in r.value.granted && XrSession(1) !in r.value.ended
      && AfterStop(r.value) == Some(r.value)
      && !Intended(r.value)
  {
    var middle := [StopCmd, StartCmd, StopCmd];
    var s8 := WebState(false, 0, Some(XrSession(0)), Some(ReferenceSpace(0)), [Task(Spawned, 0)],
      [XrSession(0), XrSession(0)], [XrSession(0)]);
    var s11 := s8.(session := Some(XrSession(1)), granted := [XrSession(0), XrSession(1)], tasks := [Task(RequestingSpace, 0)]);
    FirstRunStores();
    MiddleEndsTwice();
    ExecConcat(Initial, FirstRun, middle, false);
    SecondGrantStores(s8);
    ExecConcat(Initial, FirstRun + middle, SecondGrant, false);
    assert s11.ended[0] == s11.ended[1];
  }

  /** After the first run, stop, start and stop end session 0 twice and leave the new task pending. */
  lemma MiddleEndsTwice()
    ensures Exec(WebState(true, 0, Some(XrSession(0)), Some(ReferenceSpace(0)), [], [], [XrSession(0)]),
      [StopCmd, StartCmd, StopCmd], false) ==
      Some(WebState(false, 0, Some(XrSession(0)), Some(ReferenceSpace(0)), [Task(Spawned, 0)],
        [XrSession(0), XrSession(0)], [XrSession(0)]))
  {
    var s5 := WebState(true, 0, Some(XrSession(0)), Some(ReferenceSpace(0)), [], [], [XrSession(0)]);
    var s6 := s5.(running := false, ended := [XrSession(0)]);
    var s7 := AfterStart(s6);
    assert s7.tasks == [Task(Spawned, 0)] && !SessionBorrowed(s7);
    var s8 := s7.(running := false, ended := [XrSession(0), XrSession(0)]);
    assert !SessionBorrowed(s5) && s5.ended + [XrSession(0)] == s6.ended;
    assert s7.ended + [XrSession(0)] == s8.ended;
    assert AfterStop(s5) == Some(s6) && AfterStop(s7) == Some(s8);
    ExecThrough([s5, s6, s7, s8], [StopCmd, StartCmd, StopCmd], false);
  }

  /** A stop while the only task awaits its session panics: the task holds the session cell mutably. */
  lemma StopWhileRequesting()
    ensures Exec(Initial, FirstRun[..3] + [StopCmd], false) == None
  {
    var s1 := AfterStart(Initial);
    assert s1.tasks == [Task(Spawned, 0)];
    var s2 := s1.(tasks := [Task(CheckingSupport, 0)]);
    var s3 := s2.(tasks := [Task(RequestingSession, 0)]);
    PollSpawned(s1);
    PollSupported(s2);
    var states := [Initial, s1, s2, s3];
    var prefix := FirstRun[..3];
    forall k | 0 <= k < 3 ensures Perform(states[k], prefix[k], false) == Some(states[k + 1]) {
      if k == 0 { assert states[1] == s1; }
      else if k == 1 { assert states[2] == s2; }
      else { assert states[3] == s3; }
    }
    ExecThrough(states, prefix, false);
    assert SessionBorrowed(s3) by { assert s3.tasks[0] == Task(RequestingSession, 0); }
    ExecConcat(Initial, prefix, [StopCmd], false);
    assert Exec(s3, [StopCmd], false) == None;
  }

  /**
   * A task told VR is supported panics while an earlier task of the same
   * cells awaits its reference space, holding the session cell borrowed.
   */
  lemma SupportWhileBorrowed()
    ensures var st := WebState(true, 0, Some(XrSession(0)), None,
        [Task(RequestingSpace, 0), Task(CheckingSupport, 0)], [XrSession(0)], [XrSession(0)]);
      RunOne(st, [Pending, Supported(true)]) == None
  {
    var st := WebState(true, 0, Some(XrSession(0)), None,
      [Task(RequestingSpace, 0), Task(CheckingSupport, 0)], [XrSession(0)], [XrSession(0)]);
    assert Advance(st, 0, Pending) == Stepped(st);
    assert HoldsBorrow(st.tasks, 1, 0) by { assert st.tasks[0].cell == 0; }
    assert Advance(st, 1, Supported(true)) == Panicked;
  }

  // ---------------------------------------------------------------------------
  // The corrected start

  /**
   * `start` as evidently intended: besides spawning the start task, it gives the
   * new task fresh, empty session and reference-space cells, so that `stop`
   * only ever sees the session of the latest start.
   */
  function AfterStartFresh(st: WebState): (r: WebState)
    ensures r.running
    ensures st.running ==> r == st
    ensures !st.running ==>
      && r.cell > st.cell && r.session.None? && r.refSpace.None?
      && r.tasks == st.tasks + [Task(Spawned, r.cell)]
      && r.ended == st.ended && r.granted == st.granted
  {
    if st.running then st
    else st.(running := true, cell := st.cell + 1, session := None, refSpace := None,
             tasks := st.tasks + [Task(Spawned, st.cell + 1)])
  }

  /** Number of tasks still before their session grant. */
  function Waiting(tasks: seq<Task>): nat {
    if tasks == [] then 0 else (if BeforeGrant(tasks[0]) then 1 else 0) + Waiting(tasks[1..])
  }

  lemma {:induction false} WaitingConcat(a: seq<Task>, b: seq<Task>)
    ensures Waiting(a + b) == Waiting(a) + Waiting(b)
    decreases |a|
  {
    if a == [] {
      assert a + b == b;
    } else {
      assert (a + b)[1..] == a[1..] + b;
      WaitingConcat(a[1..], b);
    }
  }

  lemma WaitingSplit(tasks: seq<Task>, i: nat)
    requires i < |tasks|
    ensures Waiting(tasks) == Waiting(tasks[..i]) + (if BeforeGrant(tasks[i]) then 1 else 0) + Waiting(tasks[i + 1..])
  {
    assert tasks == tasks[..i] + [tasks[i]] + tasks[i + 1..];
    WaitingConcat(tasks[..i] + [tasks[i]], tasks[i + 1..]);
    WaitingConcat(tasks[..i], [tasks[i]]);
    assert [tasks[i]][1..] == [];
  }

  lemma WaitingUpdate(tasks: seq<Task>, i: nat, t: Task)
    requires i < |tasks|
    ensures Waiting(tasks[i := t]) == Waiting(tasks) - (if BeforeGrant(tasks[i]) then 1 else 0) + (if BeforeGrant(t) then 1 else 0)
  {
    WaitingSplit(tasks, i);
    WaitingSplit(tasks[i := t], i);
    assert tasks[i := t][..i] == tasks[..i];
    assert tasks[i := t][i + 1..] == tasks[i + 1..];
  }

  /**
   * What the corrected driver keeps: sessions are numbered in grant order,
   * ended at most once and only once granted; a session is live only while
   * running and stored; tasks before their grant write to the current cells,
   * and there is exactly one of them or one stored session while running,
   * and neither when stopped.
   */
  ghost predicate Good(st: WebState) {
    && (forall k :: 0 <= k < |st.granted| ==> st.granted[k] == XrSession(k))
    && (forall i, j :: 0 <= i < j < |st.ended| ==> st.ended[i] != st.ended[j])
    && (forall s :: s in st.ended ==> s in st.granted)
    && (forall s :: s in st.granted ==> s in st.ended || (st.running && st.session == Some(s)))
    && (st.running && st.session.Some? ==> st.session.value in st.granted && st.session.value !in st.ended)
    && (forall i :: 0 <= i < |st.tasks| && BeforeGrant(st.tasks[i]) ==> st.tasks[i].cell == st.cell)
    && Waiting(st.tasks) + (if st.running && st.session.Some? then 1 else 0) == (if st.running then 1 else 0)
  }

  lemma GoodInitial()
    ensures Good(Initial)
  {
  }

  lemma GoodIntended(st: WebState)
    requires Good(st)
    ensures Intended(st)
  {
  }

  lemma StartFreshKeeps(st: WebState)
    requires Good(st)
    ensures Good(AfterStartFresh(st))
  {
    if !st.running {
      var r := AfterStartFresh(st);
      WaitingConcat(st.tasks, [Task(Spawned, st.cell + 1)]);
      assert Waiting([Task(Spawned, st.cell + 1)]) == 1;
      forall i | 0 <= i < |r.tasks| && BeforeGrant(r.tasks[i]) ensures r.tasks[i].cell == r.cell {
        if i < |st.tasks| {
          assert r.tasks[i] == st.tasks[i];
          assert Waiting(st.tasks) == 0;
          WaitingSplit(st.tasks, i);
        }
      }
    }
  }

  lemma StopKeeps(st: WebState)
    requires Good(st)
    ensures AfterStop(st).Some? ==> Good(AfterStop(st).value)
  {
  }

  /** Every poll keeps the corrected driver's invariant. */
  lemma AdvanceKeeps(st: WebState, i: nat, r: Resolution)
    requires Good(st) && i < |st.tasks|
    ensures var p := Advance(st, i, r); !p.Panicked? ==> Good(p.next)
  {
    var t := st.tasks[i];
    var p := Advance(st, i, r);
    if p.Stepped? && p.next != st {
      if t.stage == RequestingSession {
        GrantKeeps(st, i);
      } else {
        var t' := p.next.tasks[i];
        assert p.next == st.(tasks := st.tasks[i := t']);
        WaitingUpdate(st.tasks, i, t');
      }
    } else if p.Completed? {
      WaitingSplit(st.tasks, i);
      WaitingConcat(st.tasks[..i], st.tasks[i + 1..]);
      forall j | 0 <= j < |p.next.tasks| && BeforeGrant(p.next.tasks[j]) ensures p.next.tasks[j].cell == st.cell {
        if j < i { assert p.next.tasks[j] == st.tasks[j]; } else { assert p.next.tasks[j] == st.tasks[j + 1]; }
      }
    }
  }

  /** A session grant stores a fresh session while running, with no other task waiting. */
  lemma GrantKeeps(st: WebState, i: nat)
    requires Good(st) && i < |st.tasks| && st.tasks[i].stage == RequestingSession
    requires !HoldsBorrow(st.tasks, i, st.tasks[i].cell)
    ensures Good(Advance(st, i, SessionGranted).next)
  {
    var t := st.tasks[i];
    var n := Advance(st, i, SessionGranted).next;
    var s := XrSession(|st.granted|);
    WaitingSplit(st.tasks, i);
    WaitingUpdate(st.tasks, i, t.(stage := RequestingSpace));
    assert st.running && st.session.None?;
    assert n.session == Some(s);
    assert forall k :: 0 <= k < |st.granted| ==> st.granted[k] != s;
    assert s !in st.granted;
    assert forall x :: x in n.granted ==> x in st.granted || x == s;
  }

  lemma {:induction false} PollFromKeeps(st: WebState, res: seq<Resolution>, i: nat)
    requires Good(st) && i <= |st.tasks|
    ensures var r := PollFrom(st, res, i); r.Some? ==> Good(r.value)
    decreases |st.tasks| - i
  {
    if i < |st.tasks| {
      AdvanceKeeps(st, i, ResolutionOf(res, i));
      match Advance(st, i, ResolutionOf(res, i))
      case Panicked =>
      case Completed(next) =>
      case Stepped(next) => PollFromKeeps(next, res, i + 1);
    }
  }

  /**
   * With the corrected start, every run of the driver, whatever the calls and
   * the browser's replies, keeps the guard: each session is ended at most
   * once, and once stopped no granted session is left live.
   */
  lemma {:induction false} CorrectedRuns(st: WebState, cmds: seq<Command>)
    requires Good(st)
    ensures var r := Exec(st, cmds, true); r.Some? ==> Good(r.value) && Intended(r.value)
    decreases |cmds|
  {
    if cmds != [] {
      match cmds[0] {
        case StartCmd => StartFreshKeeps(st);
        case StopCmd => StopKeeps(st);
        case PumpCmd(res) => PollFromKeeps(st, res, 0);
      }
      var next := Perform(st, cmds[0], true);
      if next.Some? {
        CorrectedRuns(next.value, cmds[1..]);
      }
    } else {
      GoodIntended(st);
    }
  }

  /** From a new driver, the corrected start keeps the guard on every run. */
  lemma CorrectedFromInitial(cmds: seq<Command>)
    ensures var r := Exec(Initial, cmds, true); r.Some? ==> Intended(r.value)
  {
    GoodInitial();
    CorrectedRuns(Initial, cmds);
  }

  // ===========================================================================
  // The driver object, as written

  class WebXR {
    var running: bool
    var session: Option<XrSession>
    var refSpace: Option<ReferenceSpace>
    /** The executor's pending start tasks, in spawn order. */
    var pool: seq<Task>
    /** Browser-side record: the sessions ended through this driver, and those granted to its tasks. */
    var ended: seq<XrSession>
    var granted: seq<XrSession>

    /** The object's state; the cells are never replaced, so they stay those of generation 0. */
    function State(): WebState
      reads this
    {
      WebState(running, 0, session, refSpace, pool, ended, granted)
    }

    constructor ()
      ensures State() == Initial
    {
      running := false;
      session := None;
      refSpace := None;
      pool := [];
      ended := [];
      granted := [];
    }

    method Start()
      modifies this
      ensures State() == AfterStart(old(State()))
    {
      if running {
        return;
      }
      running := true;
      pool := pool + [Task(Spawned, 0)];
    }

    /** `panicked` when the session cell is mutably borrowed by a task awaiting its session. */
    method Stop() returns (panicked: bool)
      modifies this
      ensures panicked <==> AfterStop(old(State())).None?
      ensures !panicked ==> State() == AfterStop(old(State())).value
    {
      if !running {
        return false;
      }
      if SessionBorrowed(State()) {
        return true;
      }
      if session.Some? {
        ended := ended + [session.value];
        running := false;
      }
      panicked := false;
    }

    /** Runs the executor once; `panicked` when a task panicked. */
    method ProcessEvents(res: seq<Resolution>) returns (panicked: bool)
      modifies this
      ensures panicked <==> RunOne(old(State()), res).None?
      ensures !panicked ==> State() == RunOne(old(State()), res).value
    {
      var r := RunOne(State(), res);
      PollFromBounds(State(), res, 0);
      if r.None? {
        return true;
      }
      panicked := false;
      running, session, refSpace, pool := r.value.running, r.value.session, r.value.refSpace, r.value.tasks;
      ended, granted := r.value.ended, r.value.granted;
    }
  }
}
