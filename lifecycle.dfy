/** The preview pump's lifecycle: `start_capture_thread`,
    `stop_capture_thread`, `ensure_preview_if_needed` and the viewer count of
    `video_feed`, as transitions of a value. Threads are not modelled; what is
    kept is which thread objects exist and whether they are alive:

    - `running` is the shared flag every pump loop polls (`while running`);
    - `worker` is the `capture_thread` reference: None, or a thread that is
      alive or has already exited;
    - `strays` counts threads that are alive but no longer referenced: a
      thread whose `join(timeout=2)` gave up, or (serverV2.py) a thread whose
      reference a second start overwrote. They obey the same flag.

    The outcome of a join is a parameter: `joined` is true when the thread
    exited within the timeout. */
module Lifecycle {
  import opened Common

  datatype Worker = NoWorker | Thread(alive: bool)

  datatype Pump = Pump(running: bool, worker: Worker, strays: nat, mode: Mode, preview: Preview)

  predicate LiveWorker(p: Pump) {
    p.worker == Thread(true)
  }

  /** Pump loops currently iterating `while running`. */
  function Loops(p: Pump): nat {
    if p.running then (if LiveWorker(p) then 1 else 0) + p.strays else 0
  }

  /** A referenced live thread exists only while the flag is set. */
  ghost predicate WellFormed(p: Pump) {
    LiveWorker(p) ==> p.running
  }

  /** The flag is set but no referenced thread is alive (the thread died of
      an exception the loop does not catch): no start can revive it. */
  predicate Stuck(p: Pump) {
    p.running && !LiveWorker(p)
  }

  /** `start_capture_thread` of serverV3.py, serverV5.py and serverV8.py:
      nothing while `running`; otherwise reset `supports_preview`, switch to
      live, set the flag and start a new thread. */
  function Start(p: Pump): Pump {
    if p.running then p
    else p.(running := true, worker := Thread(true), mode := Live, preview := Unknown)
  }

  /** `start_capture_thread` of serverV2.py: no guard, so a thread that is
      still referenced and alive becomes a stray. */
  function StartUnguarded(p: Pump): Pump {
    p.(running := true, worker := Thread(true), mode := Live, preview := Unknown,
       strays := p.strays + (if LiveWorker(p) then 1 else 0))
  }

  /** `stop_capture_thread` (every version): only when the referenced thread
      is alive is the flag cleared and the thread joined; the reference is
      always dropped. */
  function Stop(p: Pump, joined: bool): Pump {
    if LiveWorker(p) then
      p.(running := false, worker := NoWorker, strays := p.strays + (if joined then 0 else 1))
    else
      p.(worker := NoWorker)
  }

  /** `ensure_preview_if_needed`: start when someone watches, stop otherwise. */
  function Ensure(p: Pump, viewers: nat, joined: bool): Pump {
    if viewers > 0 then Start(p) else Stop(p, joined)
  }

  /** `viewers += 1` when a stream opens. */
  function Attach(viewers: nat): nat {
    viewers + 1
  }

  /** `viewers = max(0, viewers - 1)` when a stream closes. */
  function Detach(viewers: nat): nat {
    if viewers > 0 then viewers - 1 else 0
  }

  // ----------------------------------------------------- one-step properties

  /** Starting twice is starting once; a running pump is left alone. */
  lemma StartIdempotent(p: Pump)
    ensures Start(Start(p)) == Start(p)
    ensures p.running ==> Start(p) == p
    ensures !p.running ==>
      (Start(p).running && LiveWorker(Start(p))
       && Start(p).mode == Live && Start(p).preview == Unknown && Start(p).strays == p.strays)
  {
  }

  /** Stop clears the flag exactly when the referenced thread was alive, and
      always drops the reference. */
  lemma StopClearsFlagOnlyForLiveThread(p: Pump, joined: bool)
    ensures Stop(p, joined).worker == NoWorker
    ensures Stop(p, joined).running == (p.running && !LiveWorker(p))
    ensures Stop(p, joined).mode == p.mode && Stop(p, joined).preview == p.preview
  {
  }

  /** After ensure_preview_if_needed, a pump is flagged on whenever someone
      watches; with nobody watching no referenced thread is left, and the flag
      stays set only if the pump was already stuck. */
  lemma EnsureFollowsViewers(p: Pump, viewers: nat, joined: bool)
    requires WellFormed(p)
    ensures viewers > 0 ==> Ensure(p, viewers, joined).running
    ensures viewers > 0 && !Stuck(p) ==> LiveWorker(Ensure(p, viewers, joined))
    ensures viewers == 0 ==> Ensure(p, viewers, joined).worker == NoWorker
    ensures viewers == 0 ==> (Ensure(p, viewers, joined).running <==> Stuck(p))
  {
  }

  /** The viewer count never goes below zero, and a close undoes an open. */
  lemma DetachUndoesAttach(viewers: nat)
    ensures Detach(Attach(viewers)) == viewers
    ensures Detach(0) == 0
  {
  }

  /** An open immediately followed by a close leaves a running pump exactly
      as it was. */
  lemma AttachDetachWhileRunning(p: Pump, viewers: nat, j1: bool, j2: bool)
    requires p.running && viewers > 0
    ensures Ensure(Ensure(p, Attach(viewers), j1), Detach(Attach(viewers)), j2) == p
  {
  }

  /** ... but when nobody was watching, the open starts the pump and the close
      stops it, and on the way the mode is forced to live and the preview
      probe result is forgotten: the pair is not invisible. */
  lemma AttachDetachFromIdle(p: Pump, j1: bool, j2: bool)
    requires !p.running && p.worker == NoWorker && p.strays == 0
    ensures var q := Ensure(Ensure(p, Attach(0), j1), Detach(Attach(0)), j2);
      !q.running && q.worker == NoWorker && q.mode == Live && q.preview == Unknown
      && q.strays == (if j2 then 0 else 1)
  {
  }

  /** serverV2.py's start on a running pump leaves two loops running. */
  lemma UnguardedStartAddsLoop(p: Pump)
    requires p.running && LiveWorker(p)
    ensures Loops(StartUnguarded(p)) == Loops(p) + 1
  {
  }

  /** A join that times out, followed by a start, gives two loops: the old
      thread sees the flag set again and keeps polling the camera. */
  lemma TimedOutJoinThenStart(p: Pump)
    requires p.running && LiveWorker(p) && p.strays == 0
    ensures Loops(Start(Stop(p, false))) == 2
  {
  }

  // ---------------------------------------------------- runs of transitions

  /** The transitions of the pump: the handlers' calls, and two things the
      threads do on their own. */
  datatype Event =
    | StartEv
    | StartUnguardedEv
    | StopEv(joined: bool)
    | EnsureEv(viewers: nat, joined: bool)
    | WorkerDied        // the referenced thread ends with an uncaught exception
    | StraysExited      // abandoned threads observe the cleared flag and return

  function Step(p: Pump, e: Event): Pump {
    match e
    case StartEv => Start(p)
    case StartUnguardedEv => StartUnguarded(p)
    case StopEv(j) => Stop(p, j)
    case EnsureEv(v, j) => Ensure(p, v, j)
    case WorkerDied => if p.worker.Thread? then p.(worker := Thread(false)) else p
    case StraysExited => if p.running then p else p.(strays := 0)
  }

  function Run(p: Pump, es: seq<Event>): Pump
    decreases |es|
  {
    if es == [] then p else Run(Step(p, es[0]), es[1..])
  }

  /** The events of serverV3.py, serverV5.py and serverV8.py (no unguarded start). */
  predicate Guarded(e: Event) {
    !e.StartUnguardedEv?
  }

  /** Every join finished within its timeout. */
  predicate Joined(e: Event) {
    match e
    case StopEv(j) => j
    case EnsureEv(_, j) => j
    case _ => true
  }

  /** Every run of transitions keeps the flag set while a referenced thread lives. */
  lemma {:induction false} RunWellFormed(p: Pump, es: seq<Event>)
    requires WellFormed(p)
    ensures WellFormed(Run(p, es))
    decreases |es|
  {
    if es != [] {
      RunWellFormed(Step(p, es[0]), es[1..]);
    }
  }

  /** With guarded starts and joins that finish, there is never more than one
      pump loop: the mutual exclusion that keeps two callers off the camera. */
  lemma {:induction false} AtMostOneLoop(p: Pump, es: seq<Event>)
    requires WellFormed(p) && p.strays == 0
    requires forall i | 0 <= i < |es| :: Guarded(es[i]) && Joined(es[i])
    ensures Loops(Run(p, es)) <= 1 && Run(p, es).strays == 0
    decreases |es|
  {
    if es != [] {
      var q := Step(p, es[0]);
      assert q.strays == 0;
      AtMostOneLoop(q, es[1..]);
    }
  }

  /** Once the referenced thread has died with the flag still set, no run of
      guarded transitions ever brings a live pump thread back: stop leaves
      the flag alone because the thread is not alive, and start returns
      early because the flag is set. */
  lemma {:induction false} StuckForever(p: Pump, es: seq<Event>)
    requires Stuck(p)
    requires forall i | 0 <= i < |es| :: Guarded(es[i])
    ensures Stuck(Run(p, es))
    decreases |es|
  {
    if es != [] {
      StuckForever(Step(p, es[0]), es[1..]);
    }
  }
}
