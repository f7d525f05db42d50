/** serverV2.py: the first server. It has no viewer count (the pump runs
    whenever a handler starts it), an unguarded `start_capture_thread`, the
    earlier `connect_camera`, and a `capture` whose `global` statement
    leaves out `latest_frame`. */
module ServerV2 {
  import opened Common
  import opened Lifecycle
  import opened Device

  /** SAVE_DIR, relative to the working directory. */
  const SaveDir: string := "captured_images"

  class Server {
    var selectedPort: Option<string>
    var latestFrame: Option<Bytes>
    var capturedImage: Option<Bytes>
    var capturedFilename: Option<string>
    var mode: Mode
    var running: bool
    var worker: Worker
    var strays: nat
    var preview: Preview

    function Pump(): Lifecycle.Pump
      reads this
    {
      Lifecycle.Pump(running, worker, strays, mode, preview)
    }

    /** The request-visible state; this version counts no viewers and
        records no error. */
    function Held(): Session
      reads this
    {
      Session(selectedPort, capturedImage, capturedFilename, 0, None)
    }

    ghost predicate Valid()
      reads this
    {
      WellFormed(Pump())
    }

    constructor ()
      ensures Valid()
      ensures Pump() == Lifecycle.Pump(false, NoWorker, 0, Live, Unknown)
      ensures Held() == Session(None, None, None, 0, None) && latestFrame.None?
    {
      selectedPort := None;
      latestFrame := None;
      capturedImage := None;
      capturedFilename := None;
      mode := Live;
      running := false;
      worker := NoWorker;
      strays := 0;
      preview := Unknown;
    }

    /** `stop_capture_thread()`. */
    method StopCaptureThread(joined: bool)
      modifies this
      ensures Pump() == Stop(old(Pump()), joined)
      ensures Held() == old(Held()) && latestFrame == old(latestFrame)
    {
      if worker == Thread(true) {
        running := false;
        if !joined {
          strays := strays + 1;
        }
      }
      worker := NoWorker;
    }

    /** `start_capture_thread()` without a guard: a thread still alive is
        abandoned, still looping. */
    method StartCaptureThread()
      modifies this
      ensures Pump() == StartUnguarded(old(Pump()))
      ensures Held() == old(Held()) && latestFrame == old(latestFrame)
    {
      if worker == Thread(true) {
        strays := strays + 1;
      }
      preview := Unknown;
      mode := Live;
      running := true;
      worker := Thread(true);
    }

    /** `/set_camera`: whatever the form holds becomes the port, and the
        pump is stopped and started again. */
    method SetCamera(port: Option<string>, joined: bool) returns (status: int)
      requires Valid()
      modifies this
      ensures Valid()
      ensures status == 200
      ensures Held() == old(Held()).(selectedPort := port) && latestFrame == old(latestFrame)
      ensures Pump() == StartUnguarded(Stop(old(Pump()).(preview := Unknown, mode := Live), joined))
      ensures running && Pump().mode == Live
    {
      selectedPort := port;
      preview := Unknown;
      mode := Live;
      ghost var reset := Pump();
      StopCaptureThread(joined);
      StartCaptureThread();
      RunWellFormed(reset, [StopEv(joined), StartUnguardedEv]);
      status := 200;
    }

    /** `/capture`: the pump is stopped, the camera opened, the shot taken
        and kept, and the pump started again whatever happened, which also
        sets the mode back to live. */
    method Capture(link: Link, shot: Outcome<Shot>, ts: string, joined: bool)
      returns (status: int, body: string)
      requires Valid()
      modifies this
      ensures Valid()
      ensures selectedPort == old(selectedPort)
      ensures Pump() == StartUnguarded(Stop(old(Pump()), joined))
      ensures running && Pump().mode == Live
      ensures status == 503 <==> ConnectLegacy(old(selectedPort), link).None?
      ensures status == 503 ==>
        body == "Camera not available"
        && capturedImage == old(capturedImage) && capturedFilename == old(capturedFilename)
        && latestFrame == old(latestFrame)
      ensures status == 500 <==>
        ConnectLegacy(old(selectedPort), link).Some? && SafeCaptureOne(SaveDir, ts, shot).Raised?
      ensures status == 500 ==>
        body == CaptureFailedMessage(SafeCaptureOne(SaveDir, ts, shot).fault)
        && capturedImage == old(capturedImage) && capturedFilename == old(capturedFilename)
        && latestFrame == old(latestFrame)
      ensures status == 200 <==>
        ConnectLegacy(old(selectedPort), link).Some? && SafeCaptureOne(SaveDir, ts, shot).Done?
      ensures status == 200 ==>
        var saved := SafeCaptureOne(SaveDir, ts, shot).value;
        body == "Captured"
        && capturedImage == Some(saved.data) && capturedFilename == Some(saved.path)
        && latestFrame == FrameAfterCaptureV2(old(latestFrame), saved, shot.value.thumb)
    {
      ghost var p0 := Pump();
      StopCaptureThread(joined);
      var conn := ConnectLegacy(selectedPort, link);
      if conn.None? {
        StartCaptureThread();
        RunWellFormed(p0, [StopEv(joined), StartUnguardedEv]);
        return 503, "Camera not available";
      }
      var r := SafeCaptureOne(SaveDir, ts, shot);
      if r.Done? {
        RecordCapture(r.value, shot.value.thumb);
        status, body := 200, "Captured";
      } else {
        status, body := 500, CaptureFailedMessage(r.fault);
      }
      StartCaptureThread();
      RunWellFormed(p0, [StopEv(joined), StartUnguardedEv]);
    }

    /** The success path of the capture's `try`: the captured bytes pass the
        gate but are bound to a local name, so only the thumbnail path
        reaches the shared frame. */
    method RecordCapture(saved: Saved, thumb: Outcome<Bytes>)
      modifies this
      ensures capturedImage == Some(saved.data) && capturedFilename == Some(saved.path)
      ensures selectedPort == old(selectedPort)
      ensures Pump() == old(Pump()).(mode := Captured)
      ensures latestFrame == FrameAfterCaptureV2(old(latestFrame), saved, thumb)
    {
      capturedImage := Some(saved.data);
      capturedFilename := Some(saved.path);
      if !PushGate(saved) {
        match thumb {
          case Done(b) =>
            if StartsWithSoi(b) {
              latestFrame := Some(b);
            }
          case Raised(_) =>
        }
      }
      mode := Captured;
    }

    /** `/return_live`: only the informational mode changes. */
    method ReturnLive() returns (status: int)
      modifies this
      ensures status == 200
      ensures Pump() == old(Pump()).(mode := Live)
      ensures Held() == old(Held()) && latestFrame == old(latestFrame)
    {
      mode := Live;
      status := 200;
    }
  }

  /** Every capture leaves the pump running in live mode with a fresh
      thread, so the "captured" mode the handler sets is never observable
      afterwards; with a join that finishes no loop is abandoned. */
  lemma CaptureResumesLive(p: Lifecycle.Pump)
    requires WellFormed(p) && p.strays == 0
    ensures var q := StartUnguarded(Stop(p, true));
      q.mode == Live && LiveWorker(q) && Loops(q) == 1
  {
  }
}
