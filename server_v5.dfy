/** serverV5.py: the same on-demand preview server as serverV8.py without
    the frame version counter: `latest_frame` is assigned directly, and the
    preview loop re-encodes frames through OpenCV (not part of this model).
    The handlers modelled here are `set_camera`, `capture` with
    `_update_latest_with_camera_preview`, `confirm` and `return_live`. */
module ServerV5 {
  import opened Common
  import opened Lifecycle
  import opened Device

  class Server {
    var selectedPort: Option<string>
    var latestFrame: Option<Bytes>
    var capturedImage: Option<Bytes>
    var capturedFilename: Option<string>
    var mode: Mode
    var running: bool
    var worker: Worker
    var strays: nat
    var preview: Preview
    var viewers: nat
    var lastError: Option<string>
    /** SAVE_DIR: an absolute, normalised directory. */
    const saveDir: string

    function Pump(): Lifecycle.Pump
      reads this
    {
      Lifecycle.Pump(running, worker, strays, mode, preview)
    }

    function Held(): Session
      reads this
    {
      Session(selectedPort, capturedImage, capturedFilename, viewers, lastError)
    }

    ghost predicate Valid()
      reads this
    {
      WellFormed(Pump())
    }

    constructor (portEnv: string, saveDir: string)
      ensures Valid()
      ensures selectedPort == (if Strip(portEnv) == [] then None else Some(Strip(portEnv)))
      ensures Pump() == Lifecycle.Pump(false, NoWorker, 0, Live, Unknown)
      ensures latestFrame.None? && capturedImage.None? && capturedFilename.None?
      ensures viewers == 0 && lastError.None? && this.saveDir == saveDir
    {
      var port := Strip(portEnv);
      selectedPort := if port == [] then None else Some(port);
      latestFrame := None;
      capturedImage := None;
      capturedFilename := None;
      mode := Live;
      running := false;
      worker := NoWorker;
      strays := 0;
      preview := Unknown;
      viewers := 0;
      lastError := None;
      this.saveDir := saveDir;
    }

    /** `stop_capture_thread()`. */
    method StopCaptureThread(joined: bool)
      modifies this
      ensures Pump() == Stop(old(Pump()), joined)
      ensures Held() == old(Held()) && latestFrame == old(latestFrame)
    {
      if worker == Thread(true) {
        running := false;
        if !joined {
          strays := strays + 1;
        }
      }
      worker := NoWorker;
    }

    /** `start_capture_thread()`: a no-op while the flag is set. */
    method StartCaptureThread()
      modifies this
      ensures Pump() == Start(old(Pump()))
      ensures Held() == old(Held()) && latestFrame == old(latestFrame)
    {
      if running {
        return;
      }
      preview := Unknown;
      mode := Live;
      running := true;
      worker := Thread(true);
    }

    /** `ensure_preview_if_needed()`. */
    method EnsurePreviewIfNeeded(joined: bool)
      modifies this
      ensures Pump() == Ensure(old(Pump()), viewers, joined)
      ensures Held() == old(Held()) && latestFrame == old(latestFrame)
    {
      if viewers > 0 {
        StartCaptureThread();
      } else {
        StopCaptureThread(joined);
      }
    }

    /** `/video_feed` when a client connects: one viewer more, then the
        lifecycle runs. */
    method VideoFeedOpen(joined: bool)
      requires Valid()
      modifies this
      ensures Valid()
      ensures viewers == Attach(old(viewers))
      ensures Pump() == Ensure(old(Pump()), viewers, joined)
      ensures selectedPort == old(selectedPort) && capturedImage == old(capturedImage)
      ensures capturedFilename == old(capturedFilename) && lastError == old(lastError)
      ensures latestFrame == old(latestFrame)
    {
      viewers := viewers + 1;
      EnsurePreviewIfNeeded(joined);
      RunWellFormed(old(Pump()), [EnsureEv(viewers, joined)]);
    }

    /** The stream's `finally`: one viewer fewer (never below zero), then the
        lifecycle runs. */
    method VideoFeedClose(joined: bool)
      requires Valid()
      modifies this
      ensures Valid()
      ensures viewers == Detach(old(viewers))
      ensures Pump() == Ensure(old(Pump()), viewers, joined)
      ensures selectedPort == old(selectedPort) && capturedImage == old(capturedImage)
      ensures capturedFilename == old(capturedFilename) && lastError == old(lastError)
      ensures latestFrame == old(latestFrame)
    {
      viewers := if viewers > 0 then viewers - 1 else 0;
      EnsurePreviewIfNeeded(joined);
      RunWellFormed(old(Pump()), [EnsureEv(viewers, joined)]);
    }

    /** `/set_camera`: refused with 400, changing nothing, when `camera_port`
        is missing or empty; otherwise the stripped port is stored, the probe
        result reset, the mode set live, and the pump stopped and re-run. */
    method SetCamera(port: Option<string>, joinedStop: bool, joinedEnsure: bool) returns (status: int)
      requires Valid()
      modifies this
      ensures Valid()
      ensures status == 400 <==> !PresentText(port)
      ensures status == 400 ==>
        Pump() == old(Pump()) && Held() == old(Held()) && latestFrame == old(latestFrame)
      ensures status != 400 ==>
        status == 200
        && Held() == old(Held()).(selectedPort := Some(Strip(port.value)))
        && latestFrame == old(latestFrame)
        && Pump() == Ensure(Stop(old(Pump()).(preview := Unknown, mode := Live), joinedStop), viewers, joinedEnsure)
    {
      if !PresentText(port) {
        return 400;
      }
      selectedPort := Some(Strip(port.value));
      preview := Unknown;
      mode := Live;
      ghost var reset := Pump();
      StopCaptureThread(joinedStop);
      EnsurePreviewIfNeeded(joinedEnsure);
      RunWellFormed(reset, [StopEv(joinedStop), EnsureEv(viewers, joinedEnsure)]);
      status := 200;
    }

    /** `_update_latest_with_camera_preview`: replace the frame with the
        camera's preview of the captured file when it starts with FF D8, and
        tell whether it did. */
    method UpdateLatestWithCameraPreview(thumb: Outcome<Bytes>) returns (replaced: bool)
      modifies this
      ensures replaced <==> thumb.Done? && StartsWithSoi(thumb.value)
      ensures latestFrame == (if replaced then Some(thumb.value) else old(latestFrame))
      ensures Pump() == old(Pump()) && Held() == old(Held())
    {
      match thumb {
        case Done(b) =>
          if StartsWithSoi(b) {
            latestFrame := Some(b);
            return true;
          }
        case Raised(_) =>
      }
      return false;
    }

    /** `/capture`: as in serverV8.py, with the frame assigned directly. */
    method Capture(link: Link, shot: Outcome<Shot>, ts: string, joinedStop: bool, joinedEnsure: bool)
      returns (status: int, url: Option<string>, error: Option<string>)
      requires Valid()
      modifies this
      ensures Valid()
      ensures viewers == old(viewers) && selectedPort == old(selectedPort)
      ensures status == 503 <==> Connect(old(selectedPort), link).Refused?
      ensures status == 503 ==>
        error == Some(Connect(old(selectedPort), link).error) && lastError == error
        && capturedImage == old(capturedImage) && capturedFilename == old(capturedFilename)
        && latestFrame == old(latestFrame)
        && Pump() == Ensure(Stop(old(Pump()), joinedStop), viewers, joinedEnsure)
      ensures status == 500 <==>
        Connect(old(selectedPort), link).Bound? && SafeCaptureOne(saveDir, ts, shot).Raised?
      ensures status == 500 ==>
        error == Some(CaptureFailedMessage(SafeCaptureOne(saveDir, ts, shot).fault)) && lastError == error
        && capturedImage == old(capturedImage) && capturedFilename == old(capturedFilename)
        && latestFrame == FrameAfterFinally(old(latestFrame), old(mode))
        && Pump() == Ensure(Stop(old(Pump()), joinedStop), viewers, joinedEnsure)
      ensures status == 200 <==>
        Connect(old(selectedPort), link).Bound? && SafeCaptureOne(saveDir, ts, shot).Done?
      ensures status == 200 ==>
        var saved := SafeCaptureOne(saveDir, ts, shot).value;
        error.None? && lastError.None?
        && capturedImage == Some(saved.data) && capturedFilename == Some(saved.path)
        && url == Some("/captured_images/" + Basename(saved.path))
        && latestFrame == FrameAfterCapture(old(latestFrame), saved, shot.value.thumb)
        && Pump() == Ensure(Stop(old(Pump()), joinedStop).(mode := Captured), viewers, joinedEnsure)
      ensures status != 200 ==> url.None?
    {
      ghost var p0 := Pump();
      StopCaptureThread(joinedStop);
      var conn := Connect(selectedPort, link);
      lastError := if conn.Refused? then Some(conn.error) else None;
      if conn.Refused? {
        EnsurePreviewIfNeeded(joinedEnsure);
        RunWellFormed(p0, [StopEv(joinedStop), EnsureEv(viewers, joinedEnsure)]);
        return 503, None, lastError;
      }
      RunWellFormed(p0, [StopEv(joinedStop)]);
      var r := SafeCaptureOne(saveDir, ts, shot);
      if r.Done? {
        RecordCapture(r.value, shot.value.thumb);
        status, url, error := 200, Some("/captured_images/" + Basename(r.value.path)), None;
      } else {
        lastError := Some(CaptureFailedMessage(r.fault));
        status, url, error := 500, None, lastError;
      }
      CaptureFinally(joinedEnsure);
    }

    /** The success path of the capture's `try`. */
    method RecordCapture(saved: Saved, thumb: Outcome<Bytes>)
      requires Valid()
      modifies this
      ensures Valid()
      ensures capturedImage == Some(saved.data) && capturedFilename == Some(saved.path)
      ensures selectedPort == old(selectedPort) && viewers == old(viewers) && lastError == old(lastError)
      ensures Pump() == old(Pump()).(mode := Captured)
      ensures latestFrame == FrameAfterCapture(old(latestFrame), saved, thumb)
    {
      capturedImage := Some(saved.data);
      capturedFilename := Some(saved.path);
      var pushed := false;
      if saved.mime == "image/jpeg" || EndsWith(Lower(saved.path), ".jpg") {
        if StartsWithSoi(saved.data) {
          latestFrame := Some(saved.data);
          pushed := true;
        }
      }
      if !pushed {
        var _ := UpdateLatestWithCameraPreview(thumb);
      }
      mode := Captured;
    }

    /** The capture's `finally`. */
    method CaptureFinally(joined: bool)
      requires Valid()
      modifies this
      ensures Valid()
      ensures Held() == old(Held())
      ensures latestFrame == FrameAfterFinally(old(latestFrame), old(mode))
      ensures Pump() == Ensure(old(Pump()), viewers, joined)
    {
      if mode == Live {
        latestFrame := None;
      }
      ghost var p := Pump();
      EnsurePreviewIfNeeded(joined);
      RunWellFormed(p, [EnsureEv(viewers, joined)]);
    }

    /** `/return_live`, and `/confirm` before it answers: drop the captured
        image, go live, stop the pump, clear the frame, run the lifecycle. */
    method ReturnLive(joinedStop: bool, joinedEnsure: bool) returns (status: int)
      requires Valid()
      modifies this
      ensures Valid()
      ensures status == 200
      ensures capturedImage.None? && capturedFilename.None? && latestFrame.None?
      ensures selectedPort == old(selectedPort) && viewers == old(viewers) && lastError == old(lastError)
      ensures Pump() == Ensure(Stop(old(Pump()).(mode := Live), joinedStop), viewers, joinedEnsure)
    {
      capturedImage := None;
      capturedFilename := None;
      mode := Live;
      ghost var p0 := Pump();
      StopCaptureThread(joinedStop);
      latestFrame := None;
      EnsurePreviewIfNeeded(joinedEnsure);
      RunWellFormed(p0, [StopEv(joinedStop), EnsureEv(viewers, joinedEnsure)]);
      status := 200;
    }

    /** `/confirm`: as `/return_live`, answering the stream URL with a
        millisecond cache-buster. */
    method Confirm(nowMs: nat, joinedStop: bool, joinedEnsure: bool) returns (video: string)
      requires Valid()
      modifies this
      ensures Valid()
      ensures capturedImage.None? && capturedFilename.None? && latestFrame.None?
      ensures selectedPort == old(selectedPort) && viewers == old(viewers) && lastError == old(lastError)
      ensures Pump() == Ensure(Stop(old(Pump()).(mode := Live), joinedStop), viewers, joinedEnsure)
      ensures video == "/video_feed?ts=" + DecimalText(nowMs)
    {
      var _ := ReturnLive(joinedStop, joinedEnsure);
      video := "/video_feed?ts=" + DecimalText(nowMs);
    }
  }
}
