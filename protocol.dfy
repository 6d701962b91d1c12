/**
 * The ordering the OpenXR runtime demands of a session's calls, as an
 * automaton over the recorded actions: frames (wait, then begin, then end)
 * only while the session is open, never overlapping, and the session begun or
 * ended only between frames.  A trace obeys the protocol exactly when
 * `Replay` from `Initial` does not get stuck.
 *
 * Begin and end are not required to alternate: a begin while the session is
 * open, or an end while it is closed, is accepted.  The driver issues them
 * as the runtime's READY and STOPPING state changes arrive, and the runtime,
 * not the driver, keeps those in order; the automaton checks only the frame
 * stream against the session's openness.
 */
module Protocol {
  import opened Xr

  datatype Phase = BetweenFrames | Waited | Begun
  datatype Progress = Progress(sessionOpen: bool, phase: Phase)

  /** A new session: not begun, no frame under way. */
  const Initial: Progress := Progress(false, BetweenFrames)

  /** Calls the protocol does not constrain. */
  predicate Neutral(a: Action) {
    !(a.SessionBegin? || a.SessionEnd? || a.FrameWait? || a.FrameBegin? || a.FrameEnd?)
  }

  /** One call; `None` where the runtime forbids it. */
  function Next(p: Progress, a: Action): Option<Progress> {
    match a
    case SessionBegin(_) => if p.phase == BetweenFrames then Some(Progress(true, BetweenFrames)) else None
    case SessionEnd => if p.phase == BetweenFrames then Some(Progress(false, BetweenFrames)) else None
    case FrameWait => if p.sessionOpen && p.phase == BetweenFrames then Some(p.(phase := Waited)) else None
    case FrameBegin => if p.phase == Waited then Some(p.(phase := Begun)) else None
    case FrameEnd(_, _, _) => if p.phase == Begun then Some(p.(phase := BetweenFrames)) else None
    case _ => Some(p)
  }

  /** The calls of `calls` in order; `None` as soon as one is forbidden. */
  function Replay(p: Progress, calls: seq<Action>): Option<Progress>
    decreases |calls|
  {
    if calls == [] then Some(p)
    else match Next(p, calls[0])
      case None => None
      case Some(q) => Replay(q, calls[1..])
  }

  /** Replaying two traces one after the other is replaying their concatenation. */
  lemma {:induction false} ReplayConcat(p: Progress, a: seq<Action>, b: seq<Action>)
    ensures Replay(p, a + b) == (match Replay(p, a) case None => None case Some(q) => Replay(q, b))
    decreases |a|
  {
    if a == [] {
      assert a + b == b;
    } else {
      assert (a + b)[0] == a[0];
      assert (a + b)[1..] == a[1..] + b;
      match Next(p, a[0])
      case None =>
      case Some(q) => ReplayConcat(q, a[1..], b);
    }
  }

  /** Calls the protocol does not constrain leave it where it was. */
  lemma {:induction false} ReplayNeutral(p: Progress, calls: seq<Action>)
    requires forall i :: 0 <= i < |calls| ==> Neutral(calls[i])
    ensures Replay(p, calls) == Some(p)
  {
    if calls != [] {
      assert Neutral(calls[0]);
      ReplayNeutral(p, calls[1..]);
    }
  }

  /** A callback's calls are all unconstrained: it has no access to the frame stream. */
  lemma ReplayEmbed(p: Progress, d: seq<DrawCall>)
    ensures Replay(p, Embed(d)) == Some(p)
  {
    ReplayNeutral(p, Embed(d));
  }

  /**
   * Frame calls balance: a trace the protocol accepts ends as many frames as
   * it waits for and as it begins, counting the frame under way at either end.
   * From one point between frames to another, waits, begins and ends are equal
   * in number.
   */
  lemma {:induction false} ReplayBalanced(p: Progress, calls: seq<Action>)
    requires Replay(p, calls).Some?
    ensures var q := Replay(p, calls).value;
      Waits(p.phase) + Count(calls, FrameWait) == Ends(calls) + Waits(q.phase)
      && Begins(p.phase) + Count(calls, FrameBegin) == Ends(calls) + Begins(q.phase)
    decreases |calls|
  {
    if calls != [] {
      var q :| Next(p, calls[0]) == Some(q);
      ReplayBalanced(q, calls[1..]);
    }
  }

  /** Whether the current frame has been waited for, by phase. */
  function Waits(ph: Phase): nat {
    if ph == BetweenFrames then 0 else 1
  }

  /** Whether the current frame has begun, by phase. */
  function Begins(ph: Phase): nat {
    if ph == Begun then 1 else 0
  }

  /** Number of frame ends, whatever their layers. */
  function Ends(calls: seq<Action>): nat {
    if calls == [] then 0 else (if calls[0].FrameEnd? then 1 else 0) + Ends(calls[1..])
  }
}
