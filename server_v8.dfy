/** serverV8.py: the module-level state of the preview server as an object,
    and its handlers and preview-loop steps as methods on it. The frame
    slot (`latest_frame`, `latest_frame_ver`, `latest_frame_ts`, guarded by
    `lock` in the source) is an object of its own, so that a handler that
    does not touch the frame visibly leaves it alone. Every handler keeps the
    invariant that the shared frame is empty or a byte string starting with
    the JPEG SOI marker. */
module ServerV8 {
  import opened Common
  import opened Lifecycle
  import opened Device
  import opened Rate

  /** `latest_frame`, `latest_frame_ver` and `latest_frame_ts`. */
  class FrameSlot {
    var frame: Option<Bytes>
    var ver: nat
    var ts: int

    constructor ()
      ensures frame == None && ver == 0 && ts == 0
    {
      frame := None;
      ver := 0;
      ts := 0;
    }

    /** `_set_latest_frame(data)`: store the frame and bump the version. */
    method Publish(data: Bytes, now: int)
      modifies this
      ensures frame == Some(data) && ver == old(ver) + 1 && ts == now
    {
      frame := Some(data);
      ver := ver + 1;
      ts := now;
    }

    /** `latest_frame = None` under the lock: the version is kept. */
    method Clear()
      modifies this
      ensures frame == None && ver == old(ver) && ts == old(ts)
    {
      frame := None;
    }
  }

  /** What one iteration of the preview loop meets: the libgphoto2 state for
      a reconnect, the answer of `_check_preview_support`, the clock after the
      pacing sleep, and what `capture_preview` returns. */
  datatype Tick = Tick(link: Link, probe: bool, clock: int, fetch: Outcome<Bytes>)

  function ProbeResult(ok: bool): Preview {
    if ok then Supported else Unsupported
  }

  function ConnectError(c: Connection): Option<string> {
    if c.Refused? then Some(c.error) else None
  }

  class Server {
    var selectedPort: Option<string>
    var capturedImage: Option<Bytes>
    var capturedFilename: Option<string>
    var mode: Mode
    var running: bool
    var worker: Worker
    var strays: nat
    var preview: Preview
    var viewers: nat
    var lastError: Option<string>
    const slot: FrameSlot
    /** SAVE_DIR: an absolute, normalised directory. */
    const saveDir: string

    function Pump(): Lifecycle.Pump
      reads this
    {
      Lifecycle.Pump(running, worker, strays, mode, preview)
    }

    function Held(): Session
      reads this
    {
      Session(selectedPort, capturedImage, capturedFilename, viewers, lastError)
    }

    /** The preview holds nothing or a JPEG, and a live referenced thread
        implies the flag is set. */
    ghost predicate Valid()
      reads this, slot
    {
      (slot.frame.None? || StartsWithSoi(slot.frame.value)) && WellFormed(Pump())
    }

    /** Module start-up: CAMERA_PORT stripped, or None when blank. */
    constructor (portEnv: string, saveDir: string)
      ensures Valid()
      ensures selectedPort == (if Strip(portEnv) == [] then None else Some(Strip(portEnv)))
      ensures Pump() == Lifecycle.Pump(false, NoWorker, 0, Live, Unknown)
      ensures capturedImage.None? && capturedFilename.None? && viewers == 0 && lastError.None?
      ensures fresh(slot) && slot.frame.None? && slot.ver == 0
      ensures this.saveDir == saveDir
    {
      var port := Strip(portEnv);
      selectedPort := if port == [] then None else Some(port);
      capturedImage := None;
      capturedFilename := None;
      mode := Live;
      running := false;
      worker := NoWorker;
      strays := 0;
      preview := Unknown;
      viewers := 0;
      lastError := None;
      slot := new FrameSlot();
      this.saveDir := saveDir;
    }

    /** `stop_capture_thread()`; `joined` tells whether the join finished. */
    method StopCaptureThread(joined: bool)
      modifies this
      ensures Pump() == Stop(old(Pump()), joined) && Held() == old(Held())
    {
      if worker == Thread(true) {
        running := false;
        if !joined {
          strays := strays + 1;
        }
      }
      worker := NoWorker;
    }

    /** `start_capture_thread()`. */
    method StartCaptureThread()
      modifies this
      ensures Pump() == Start(old(Pump())) && Held() == old(Held())
    {
      if running {
        return;
      }
      preview := Unknown;
      mode := Live;
      running := true;
      worker := Thread(true);
    }

    /** `has_viewers()`. */
    function HasViewers(): (r: bool)
      reads this
      ensures r <==> viewers != 0
    {
      viewers > 0
    }

    /** `ensure_preview_if_needed()`. */
    method EnsurePreviewIfNeeded(joined: bool)
      modifies this
      ensures Pump() == Ensure(old(Pump()), viewers, joined) && Held() == old(Held())
    {
      if HasViewers() {
        StartCaptureThread();
      } else {
        StopCaptureThread(joined);
      }
    }

    /** A `/video_feed` request opens a stream: one more viewer, then the
        lifecycle runs. */
    method VideoFeedOpen(joined: bool)
      requires Valid()
      modifies this
      ensures Valid()
      ensures viewers == Attach(old(viewers))
      ensures Pump() == Ensure(old(Pump()), viewers, joined)
      ensures selectedPort == old(selectedPort) && capturedImage == old(capturedImage)
      ensures capturedFilename == old(capturedFilename) && lastError == old(lastError)
    {
      viewers := viewers + 1;
      EnsurePreviewIfNeeded(joined);
      RunWellFormed(old(Pump()), [EnsureEv(viewers, joined)]);
    }

    /** The stream's `finally`: one viewer fewer (never below zero), then the
        lifecycle runs. */
    method VideoFeedClose(joined: bool)
      requires Valid()
      modifies this
      ensures Valid()
      ensures viewers == Detach(old(viewers))
      ensures Pump() == Ensure(old(Pump()), viewers, joined)
      ensures selectedPort == old(selectedPort) && capturedImage == old(capturedImage)
      ensures capturedFilename == old(capturedFilename) && lastError == old(lastError)
    {
      viewers := if viewers > 0 then viewers - 1 else 0;
      EnsurePreviewIfNeeded(joined);
      RunWellFormed(old(Pump()), [EnsureEv(viewers, joined)]);
    }

    /** `/set_camera`: a missing or empty `camera_port` is refused with 400
        and nothing changes; otherwise the stripped port is stored, the
        probe result is forgotten, the mode goes live and the pump is
        stopped and then started again only if someone watches. */
    method SetCamera(port: Option<string>, joinedStop: bool, joinedEnsure: bool) returns (status: int)
      requires Valid()
      modifies this
      ensures Valid()
      ensures status == 400 <==> !PresentText(port)
      ensures status == 400 ==> Pump() == old(Pump()) && Held() == old(Held())
      ensures status != 400 ==>
        status == 200
        && Held() == old(Held()).(selectedPort := Some(Strip(port.value)))
        && Pump() == Ensure(Stop(old(Pump()).(preview := Unknown, mode := Live), joinedStop), viewers, joinedEnsure)
    {
      if !PresentText(port) {
        return 400;
      }
      selectedPort := Some(Strip(port.value));
      preview := Unknown;
      mode := Live;
      ghost var reset := Pump();
      StopCaptureThread(joinedStop);
      EnsurePreviewIfNeeded(joinedEnsure);
      RunWellFormed(reset, [StopEv(joinedStop), EnsureEv(viewers, joinedEnsure)]);
      status := 200;
    }

    /** `/capture`. `link` is what the connect meets, `shot` what capturing
        and fetching the file give, `ts` the formatted timestamp, `now` the
        clock for the frame slot. The autofocus before the shot acts on the
        camera only and is not part of this method. */
    method Capture(link: Link, shot: Outcome<Shot>, ts: string, now: int,
                   joinedStop: bool, joinedEnsure: bool)
      returns (status: int, url: Option<string>, error: Option<string>)
      requires Valid()
      modifies this, slot
      ensures Valid()
      ensures slot.ver >= old(slot.ver)
      ensures viewers == old(viewers) && selectedPort == old(selectedPort)
      // connect failed: 503 with its message, frame and capture state untouched
      ensures status == 503 <==> Connect(old(selectedPort), link).Refused?
      ensures status == 503 ==>
        error == ConnectError(Connect(old(selectedPort), link)) && lastError == error
        && capturedImage == old(capturedImage) && capturedFilename == old(capturedFilename)
        && slot.frame == old(slot.frame) && slot.ver == old(slot.ver)
        && Pump() == Ensure(Stop(old(Pump()), joinedStop), viewers, joinedEnsure)
      // capture or save failed: 500, mode kept; the frame follows the intended
      // `finally` (FrameAfterFinally), not the as-written FrameAfterFinallyV8
      ensures status == 500 <==>
        Connect(old(selectedPort), link).Bound? && SafeCaptureOne(saveDir, ts, shot).Raised?
      ensures status == 500 ==>
        error == Some(CaptureFailedMessage(SafeCaptureOne(saveDir, ts, shot).fault)) && lastError == error
        && capturedImage == old(capturedImage) && capturedFilename == old(capturedFilename)
        && slot.frame == FrameAfterFinally(old(slot.frame), old(mode))
        && slot.ver == old(slot.ver)
        && Pump() == Ensure(Stop(old(Pump()), joinedStop), viewers, joinedEnsure)
      // success: the file is kept, the preview shows it when it is a JPEG
      ensures status == 200 <==>
        Connect(old(selectedPort), link).Bound? && SafeCaptureOne(saveDir, ts, shot).Done?
      ensures status == 200 ==>
        var saved := SafeCaptureOne(saveDir, ts, shot).value;
        error.None? && lastError.None?
        && capturedImage == Some(saved.data) && capturedFilename == Some(saved.path)
        && url == Some("/captured_images/" + Basename(saved.path))
        && slot.frame == FrameAfterCapture(old(slot.frame), saved, shot.value.thumb)
        && (slot.ver == old(slot.ver) + 1 <==> PushGate(saved) || ThumbnailFrame(shot.value.thumb).Some?)
        && Pump() == Ensure(Stop(old(Pump()), joinedStop).(mode := Captured), viewers, joinedEnsure)
      ensures status != 200 ==> url.None?
    {
      ghost var p0 := Pump();
      StopCaptureThread(joinedStop);
      var conn := Connect(selectedPort, link);
      lastError := ConnectError(conn);
      if conn.Refused? {
        EnsurePreviewIfNeeded(joinedEnsure);
        RunWellFormed(p0, [StopEv(joinedStop), EnsureEv(viewers, joinedEnsure)]);
        return 503, None, lastError;
      }
      RunWellFormed(p0, [StopEv(joinedStop)]);
      var r := SafeCaptureOne(saveDir, ts, shot);
      if r.Done? {
        RecordCapture(r.value, shot.value.thumb, now);
        status, url, error := 200, Some("/captured_images/" + Basename(r.value.path)), None;
      } else {
        lastError := Some(CaptureFailedMessage(r.fault));
        status, url, error := 500, None, lastError;
      }
      CaptureFinally(joinedEnsure);
    }

    /** The success path of the capture's `try`: keep the bytes and the path,
        push the captured JPEG or the camera's thumbnail to the preview, and
        switch to "captured". */
    method RecordCapture(saved: Saved, thumb: Outcome<Bytes>, now: int)
      requires Valid()
      modifies this, slot
      ensures Valid()
      ensures capturedImage == Some(saved.data) && capturedFilename == Some(saved.path)
      ensures selectedPort == old(selectedPort) && viewers == old(viewers) && lastError == old(lastError)
      ensures Pump() == old(Pump()).(mode := Captured)
      ensures slot.frame == FrameAfterCapture(old(slot.frame), saved, thumb)
      ensures slot.ver == old(slot.ver) + 1 <==> PushGate(saved) || ThumbnailFrame(thumb).Some?
      ensures slot.ver == old(slot.ver) || slot.ver == old(slot.ver) + 1
    {
      capturedImage := Some(saved.data);
      capturedFilename := Some(saved.path);
      if PushGate(saved) {
        slot.Publish(saved.data, now);
      } else {
        var t := ThumbnailFrame(thumb);
        if t.Some? {
          slot.Publish(t.value, now);
        }
      }
      mode := Captured;
    }

    /** The capture's `finally` as intended: clear the frame when the mode is
        live, then run the lifecycle. As written, serverV8.py:514 assigns a
        local name and keeps the frame (Device.FrameAfterFinallyV8). */
    method CaptureFinally(joined: bool)
      requires Valid()
      modifies this, slot
      ensures Valid()
      ensures Held() == old(Held())
      ensures slot.frame == FrameAfterFinally(old(slot.frame), old(mode)) && slot.ver == old(slot.ver)
      ensures Pump() == Ensure(old(Pump()), viewers, joined)
    {
      if mode == Live {
        slot.Clear();
      }
      ghost var p := Pump();
      EnsurePreviewIfNeeded(joined);
      RunWellFormed(p, [EnsureEv(viewers, joined)]);
    }

    /** `/confirm` and `/return_live` share this: drop the captured image,
        go live, stop the pump, clear the frame, run the lifecycle. */
    method BackToLive(joinedStop: bool, joinedEnsure: bool)
      requires Valid()
      modifies this, slot
      ensures Valid()
      ensures capturedImage.None? && capturedFilename.None?
      ensures selectedPort == old(selectedPort) && viewers == old(viewers) && lastError == old(lastError)
      ensures slot.frame.None? && slot.ver == old(slot.ver)
      ensures Pump() == Ensure(Stop(old(Pump()).(mode := Live), joinedStop), viewers, joinedEnsure)
    {
      capturedImage := None;
      capturedFilename := None;
      mode := Live;
      ghost var p0 := Pump();
      StopCaptureThread(joinedStop);
      slot.Clear();
      EnsurePreviewIfNeeded(joinedEnsure);
      RunWellFormed(p0, [StopEv(joinedStop), EnsureEv(viewers, joinedEnsure)]);
    }

    /** `/confirm`: as `/return_live`, and answers the stream URL with the
        clock in milliseconds as a cache-buster. */
    method Confirm(nowMs: nat, joinedStop: bool, joinedEnsure: bool) returns (video: string)
      requires Valid()
      modifies this, slot
      ensures Valid()
      ensures capturedImage.None? && capturedFilename.None? && slot.frame.None?
      ensures Pump() == Ensure(Stop(old(Pump()).(mode := Live), joinedStop), viewers, joinedEnsure)
      ensures video == "/video_feed?ts=" + DecimalText(nowMs)
    {
      BackToLive(joinedStop, joinedEnsure);
      video := "/video_feed?ts=" + DecimalText(nowMs);
    }

    /** `/return_live`. */
    method ReturnLive(joinedStop: bool, joinedEnsure: bool) returns (status: int)
      requires Valid()
      modifies this, slot
      ensures Valid()
      ensures capturedImage.None? && capturedFilename.None? && slot.frame.None?
      ensures Pump() == Ensure(Stop(old(Pump()).(mode := Live), joinedStop), viewers, joinedEnsure)
      ensures status == 200
    {
      BackToLive(joinedStop, joinedEnsure);
      status := 200;
    }

    /** `/stop_stream` and `/stop`: live mode, pump stopped, frame cleared,
        and no lifecycle run afterwards, so the pump stays stopped even while
        streams are open. */
    method StopStream(joined: bool)
      requires Valid()
      modifies this, slot
      ensures Valid()
      ensures Held() == old(Held())
      ensures Pump() == Stop(old(Pump()).(mode := Live), joined)
      ensures slot.frame.None? && slot.ver == old(slot.ver)
    {
      mode := Live;
      ghost var p0 := Pump();
      StopCaptureThread(joined);
      slot.Clear();
      RunWellFormed(p0, [StopEv(joined)]);
    }

    // ------------------------------------------------------ capture_loop

    /** The start of `capture_loop`: connect, probe once when the probe
        result is unknown, and schedule the first tick one interval ahead. */
    method PumpEnter(link: Link, probe: bool, clock: int, interval: nat)
      returns (cam: bool, nextTick: int)
      requires Valid()
      modifies this
      ensures Valid()
      ensures cam <==> Connect(selectedPort, link).Bound?
      ensures lastError == ConnectError(Connect(selectedPort, link))
      ensures preview == (if cam && old(preview) == Unknown then ProbeResult(probe) else old(preview))
      ensures nextTick == clock + interval
      ensures running == old(running) && worker == old(worker) && strays == old(strays) && mode == old(mode)
      ensures selectedPort == old(selectedPort) && viewers == old(viewers)
      ensures capturedImage == old(capturedImage) && capturedFilename == old(capturedFilename)
    {
      var conn := Connect(selectedPort, link);
      lastError := ConnectError(conn);
      cam := conn.Bound?;
      if cam && preview == Unknown {
        preview := ProbeResult(probe);
      }
      nextTick := clock + interval;
    }

    /** One pass of `while running:` in `capture_loop`. Without a camera it
        reconnects and reschedules; in live mode it re-probes after a
        failure, paces the fetch, and publishes the payload only when it is
        non-empty and starts with FF D8; a failed fetch marks the preview
        unsupported and the loop goes on. */
    method PumpIteration(cam: bool, nextTick: int, tick: Tick, interval: nat)
      returns (cam': bool, nextTick': int)
      requires Valid() && interval > 0
      modifies this, slot
      ensures Valid()
      ensures Held() == old(Held()).(lastError := lastError)
      ensures running == old(running) && worker == old(worker) && strays == old(strays) && mode == old(mode)
      ensures (slot.frame == old(slot.frame) && slot.ver == old(slot.ver))
        || (tick.fetch.Done? && slot.frame == Some(tick.fetch.value) && slot.ver == old(slot.ver) + 1)
      ensures slot.frame != old(slot.frame) ==> PresentBytes(slot.frame) && StartsWithSoi(slot.frame.value)
      // reconnect branch
      ensures !cam ==>
        cam' == Connect(selectedPort, tick.link).Bound?
        && lastError == ConnectError(Connect(selectedPort, tick.link))
        && preview == (if cam' && old(preview) == Unknown then ProbeResult(tick.probe) else old(preview))
        && nextTick' == tick.clock + interval
        && slot.frame == old(slot.frame)
      // live branch
      ensures cam ==> cam' && lastError == old(lastError)
      ensures cam && mode != Live ==>
        preview == old(preview) && nextTick' == nextTick && slot.frame == old(slot.frame)
      ensures cam && mode == Live ==>
        var probed := if old(preview) == Unsupported then ProbeResult(tick.probe) else old(preview);
        (probed == Supported ==>
           nextTick' == Resync(nextTick, interval, tick.clock)
           && nextTick' >= tick.clock - interval
           && (tick.fetch.Raised? ==> preview == Unsupported && slot.frame == old(slot.frame))
           && (tick.fetch.Done? ==>
                 (preview == Supported
                  && ((slot.frame != old(slot.frame) || slot.ver != old(slot.ver))
                      <==> PresentBytes(Some(tick.fetch.value)) && StartsWithSoi(tick.fetch.value)))))
        && (probed != Supported ==> preview == probed && nextTick' == nextTick && slot.frame == old(slot.frame))
    {
      cam', nextTick' := cam, nextTick;
      if !cam {
        var conn := Connect(selectedPort, tick.link);
        lastError := ConnectError(conn);
        cam' := conn.Bound?;
        if cam' && preview == Unknown {
          preview := ProbeResult(tick.probe);
        }
        nextTick' := tick.clock + interval;
        return;
      }
      if mode == Live {
        if preview == Unsupported {
          preview := ProbeResult(tick.probe);
        }
        if preview == Supported {
          nextTick' := Resync(nextTick, interval, tick.clock);
          match tick.fetch {
            case Done(b) =>
              if |b| > 0 && StartsWithSoi(b) {
                slot.Publish(b, tick.clock);
              }
            case Raised(_) =>
              preview := Unsupported;
          }
        }
      }
    }

    /** `capture_loop` over a run of ticks while the flag stays set: the
        frame version only grows and the frame stays a JPEG or nothing. */
    method CaptureLoop(link: Link, probe: bool, start: int, ticks: seq<Tick>, interval: nat)
      returns (cam: bool, nextTick: int)
      requires Valid() && interval > 0
      modifies this, slot
      ensures Valid()
      ensures slot.ver >= old(slot.ver)
      ensures running == old(running) && mode == old(mode) && viewers == old(viewers)
      ensures capturedImage == old(capturedImage) && capturedFilename == old(capturedFilename)
    {
      cam, nextTick := PumpEnter(link, probe, start, interval);
      var i := 0;
      while i < |ticks| && running
        invariant 0 <= i <= |ticks|
        invariant Valid()
        invariant slot.ver >= old(slot.ver)
        invariant running == old(running) && mode == old(mode) && viewers == old(viewers)
        invariant capturedImage == old(capturedImage) && capturedFilename == old(capturedFilename)
      {
        cam, nextTick := PumpIteration(cam, nextTick, ticks[i], interval);
        i := i + 1;
      }
    }
  }

  // --------------------------------------------------------- properties

  /** After a successful capture while someone watches an idle pump, the
      resumed pump puts the mode straight back to live: "captured" survives
      only when nobody watches or the pump was stuck. */
  lemma CapturedModeUndoneByViewers(p: Lifecycle.Pump, viewers: nat, j1: bool, j2: bool)
    requires viewers > 0 && !Stop(p, j1).running
    ensures Ensure(Stop(p, j1).(mode := Captured), viewers, j2).mode == Live
    ensures Ensure(Stop(p, j1).(mode := Captured), 0, j2).mode == Captured
  {
  }

  /** The capture handler's `finally` keeps a stuck pump stuck. */
  lemma CaptureKeepsStuckPump(p: Lifecycle.Pump, m: Mode, viewers: nat, j1: bool, j2: bool)
    requires Stuck(p)
    ensures Stuck(Ensure(Stop(p, j1).(mode := m), viewers, j2))
    ensures Ensure(Stop(p, j1).(mode := m), viewers, j2).mode == m
  {
  }
}
