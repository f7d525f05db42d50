/** The preview frame rate of serverV8.py: the PREVIEW_FPS setting clamped to
    [1, 60] and the fixed-tick schedule of the preview loop, whose clock is
    measured here in integer time units. */
module Rate {
  import opened Common

  const DefaultFps: real := 18.0

  /** `_clamp_fps(x)`: `float(x)` clamped to [1.0, 60.0]; a value that does not
      parse (None here) gives 18.0. */
  function ClampFps(x: Option<real>): (r: real)
    ensures 1.0 <= r <= 60.0
    ensures x.Some? && 1.0 <= x.value <= 60.0 ==> r == x.value
    ensures x.None? ==> r == DefaultFps
  {
    match x
    case None => DefaultFps
    case Some(v) => if v < 1.0 then 1.0 else if v > 60.0 then 60.0 else v
  }

  /** Clamping twice changes nothing, and the clamp never reorders rates. */
  lemma ClampFpsIdempotentMonotone(x: Option<real>, a: real, b: real)
    ensures ClampFps(Some(ClampFps(x))) == ClampFps(x)
    ensures a <= b ==> ClampFps(Some(a)) <= ClampFps(Some(b))
  {
  }

  /** The frame interval `1.0 / max(1.0, fps)`: at most one second. */
  function FrameInterval(fps: real): (r: real)
    ensures 0.0 < r <= 1.0
    ensures fps >= 1.0 ==> r * fps == 1.0
  {
    1.0 / (if fps < 1.0 then 1.0 else fps)
  }

  /** `next_tick += frame_interval`, then, when the schedule is more than one
      interval behind the clock, `next_tick = clock + frame_interval`. */
  function Resync(nextTick: int, interval: nat, clock: int): (r: int)
    requires interval > 0
    ensures r >= nextTick + interval
    ensures r >= clock - interval
    ensures r == nextTick + interval || r == clock + interval
    ensures nextTick + interval >= clock - interval ==> r == nextTick + interval
  {
    var advanced := nextTick + interval;
    if advanced < clock - interval then clock + interval else advanced
  }

  /** Follow the schedule over successive clock readings. */
  function Schedule(nextTick: int, interval: nat, clocks: seq<int>): int
    requires interval > 0
    decreases |clocks|
  {
    if clocks == [] then nextTick
    else Schedule(Resync(nextTick, interval, clocks[0]), interval, clocks[1..])
  }

  /** No catch-up bursts: however late the loop runs, after any number of
      iterations the schedule is never more than one interval behind the last
      clock reading, while it still advances by at least one interval per
      iteration. */
  lemma {:induction false} ScheduleBoundedLag(nextTick: int, interval: nat, clocks: seq<int>)
    requires interval > 0 && |clocks| > 0
    ensures Schedule(nextTick, interval, clocks) >= clocks[|clocks| - 1] - interval
    ensures Schedule(nextTick, interval, clocks) >= nextTick + |clocks| * interval
    decreases |clocks|
  {
    var t := Resync(nextTick, interval, clocks[0]);
    if |clocks| > 1 {
      ScheduleBoundedLag(t, interval, clocks[1..]);
      assert clocks[1..][|clocks[1..]| - 1] == clocks[|clocks| - 1];
    }
  }

  /** A tick that has fallen more than one interval behind the clock is not
      caught up one interval at a time: it moves straight to clock + interval. */
  lemma LateTickResyncs(nextTick: int, interval: nat, clock: int)
    requires interval > 0 && clock > nextTick + 3 * interval
    ensures nextTick + interval < clock - interval
    ensures Resync(nextTick, interval, clock) == clock + interval
  {
  }
}
