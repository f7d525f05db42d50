/** serverV3.py: the first on-demand preview server. It counts viewers like
    the later versions but keeps no last error, takes `camera_port` without
    checking it, saves under the relative directory "captured_images", and
    connects through the earlier `connect_camera` (an explicit port, or
    whatever camera `init` finds). */
module ServerV3 {
  import opened Common
  import opened Lifecycle
  import opened Device

  /** SAVE_DIR, relative to the working directory. */
  const SaveDir: string := "captured_images"

  /** The address a capture is served at: "/" + os.path.join(SAVE_DIR, name). */
  function CaptureUrl(path: string): (r: string)
    ensures r == "/captured_images/" + Basename(path)
  {
    var name := Basename(path);
    UnderSaveDir(name);
    "/" + Join(SaveDir, name)
  }

  /** A '/'-free name joined under SAVE_DIR and prefixed with '/'. */
  lemma UnderSaveDir(name: string)
    requires '/' !in name
    ensures "/" + Join(SaveDir, name) == "/captured_images/" + name
  {
    assert name == [] || name[0] != '/' by {
      if name != [] {
        assert name[0] in name;
      }
    }
    assert Join(SaveDir, name) == SaveDir + "/" + name;
    calc {
      "/" + Join(SaveDir, name);
      "/" + (SaveDir + "/" + name);
      ("/" + SaveDir + "/") + name;
      { assert "/" + SaveDir + "/" == "/captured_images/"; }
      "/captured_images/" + name;
    }
  }

  class Server {
    var selectedPort: Option<string>
    var latestFrame: Option<Bytes>
    var capturedImage: Option<Bytes>
    var capturedFilename: Option<string>
    var mode: Mode
    var running: bool
    var worker: Worker
    var strays: nat
    var preview: Preview
    var viewers: nat

    function Pump(): Lifecycle.Pump
      reads this
    {
      Lifecycle.Pump(running, worker, strays, mode, preview)
    }

    /** The request-visible state; this version records no error. */
    function Held(): Session
      reads this
    {
      Session(selectedPort, capturedImage, capturedFilename, viewers, None)
    }

    ghost predicate Valid()
      reads this
    {
      WellFormed(Pump())
    }

    constructor ()
      ensures Valid()
      ensures Pump() == Lifecycle.Pump(false, NoWorker, 0, Live, Unknown)
      ensures Held() == Session(None, None, None, 0, None) && latestFrame.None?
    {
      selectedPort := None;
      latestFrame := None;
      capturedImage := None;
      capturedFilename := None;
      mode := Live;
      running := false;
      worker := NoWorker;
      strays := 0;
      preview := Unknown;
      viewers := 0;
    }

    /** `stop_capture_thread()`. */
    method StopCaptureThread(joined: bool)
      modifies this
      ensures Pump() == Stop(old(Pump()), joined)
      ensures Held() == old(Held()) && latestFrame == old(latestFrame)
    {
      if worker == Thread(true) {
        running := false;
        if !joined {
          strays := strays + 1;
        }
      }
      worker := NoWorker;
    }

    /** `start_capture_thread()`: a no-op while the flag is set. */
    method StartCaptureThread()
      modifies this
      ensures Pump() == Start(old(Pump()))
      ensures Held() == old(Held()) && latestFrame == old(latestFrame)
    {
      if running {
        return;
      }
      preview := Unknown;
      mode := Live;
      running := true;
      worker := Thread(true);
    }

    /** `ensure_preview_if_needed()`. */
    method EnsurePreviewIfNeeded(joined: bool)
      modifies this
      ensures Pump() == Ensure(old(Pump()), viewers, joined)
      ensures Held() == old(Held()) && latestFrame == old(latestFrame)
    {
      if viewers > 0 {
        StartCaptureThread();
      } else {
        StopCaptureThread(joined);
      }
    }

    /** `/video_feed` when a client connects. */
    method VideoFeedOpen(joined: bool)
      requires Valid()
      modifies this
      ensures Valid()
      ensures viewers == Attach(old(viewers))
      ensures Pump() == Ensure(old(Pump()), viewers, joined)
      ensures selectedPort == old(selectedPort) && capturedImage == old(capturedImage)
      ensures capturedFilename == old(capturedFilename) && latestFrame == old(latestFrame)
    {
      viewers := viewers + 1;
      EnsurePreviewIfNeeded(joined);
      RunWellFormed(old(Pump()), [EnsureEv(viewers, joined)]);
    }

    /** The stream's `finally`. */
    method VideoFeedClose(joined: bool)
      requires Valid()
      modifies this
      ensures Valid()
      ensures viewers == Detach(old(viewers))
      ensures Pump() == Ensure(old(Pump()), viewers, joined)
      ensures selectedPort == old(selectedPort) && capturedImage == old(capturedImage)
      ensures capturedFilename == old(capturedFilename) && latestFrame == old(latestFrame)
    {
      viewers := if viewers > 0 then viewers - 1 else 0;
      EnsurePreviewIfNeeded(joined);
      RunWellFormed(old(Pump()), [EnsureEv(viewers, joined)]);
    }

    /** `/set_camera`: whatever the form holds, a missing field included,
        becomes the port; the answer is always 200. */
    method SetCamera(port: Option<string>, joinedStop: bool, joinedEnsure: bool) returns (status: int)
      requires Valid()
      modifies this
      ensures Valid()
      ensures status == 200
      ensures Held() == old(Held()).(selectedPort := port) && latestFrame == old(latestFrame)
      ensures Pump() == Ensure(Stop(old(Pump()).(preview := Unknown, mode := Live), joinedStop), viewers, joinedEnsure)
    {
      selectedPort := port;
      preview := Unknown;
      mode := Live;
      ghost var reset := Pump();
      StopCaptureThread(joinedStop);
      EnsurePreviewIfNeeded(joinedEnsure);
      RunWellFormed(reset, [StopEv(joinedStop), EnsureEv(viewers, joinedEnsure)]);
      status := 200;
    }

    /** `/capture`: 503 with a fixed text when the camera cannot be opened,
        500 with the fault when capturing or saving fails, otherwise the
        shot is kept, shown and announced by its URL. */
    method Capture(link: Link, shot: Outcome<Shot>, ts: string, joinedStop: bool, joinedEnsure: bool)
      returns (status: int, url: Option<string>, error: Option<string>)
      requires Valid()
      modifies this
      ensures Valid()
      ensures viewers == old(viewers) && selectedPort == old(selectedPort)
      ensures status == 503 <==> ConnectLegacy(old(selectedPort), link).None?
      ensures status == 503 ==>
        error == Some("Camera not available")
        && capturedImage == old(capturedImage) && capturedFilename == old(capturedFilename)
        && latestFrame == old(latestFrame)
        && Pump() == Ensure(Stop(old(Pump()), joinedStop), viewers, joinedEnsure)
      ensures status == 500 <==>
        ConnectLegacy(old(selectedPort), link).Some? && SafeCaptureOne(SaveDir, ts, shot).Raised?
      ensures status == 500 ==>
        error == Some(CaptureFailedMessage(SafeCaptureOne(SaveDir, ts, shot).fault))
        && capturedImage == old(capturedImage) && capturedFilename == old(capturedFilename)
        && latestFrame == FrameAfterFinally(old(latestFrame), old(mode))
        && Pump() == Ensure(Stop(old(Pump()), joinedStop), viewers, joinedEnsure)
      ensures status == 200 <==>
        ConnectLegacy(old(selectedPort), link).Some? && SafeCaptureOne(SaveDir, ts, shot).Done?
      ensures status == 200 ==>
        var saved := SafeCaptureOne(SaveDir, ts, shot).value;
        error.None?
        && capturedImage == Some(saved.data) && capturedFilename == Some(saved.path)
        && url == Some("/captured_images/" + Basename(saved.path))
        && latestFrame == FrameAfterCapture(old(latestFrame), saved, shot.value.thumb)
        && Pump() == Ensure(Stop(old(Pump()), joinedStop).(mode := Captured), viewers, joinedEnsure)
      ensures status != 200 ==> url.None?
    {
      ghost var p0 := Pump();
      StopCaptureThread(joinedStop);
      var conn := ConnectLegacy(selectedPort, link);
      if conn.None? {
        EnsurePreviewIfNeeded(joinedEnsure);
        RunWellFormed(p0, [StopEv(joinedStop), EnsureEv(viewers, joinedEnsure)]);
        return 503, None, Some("Camera not available");
      }
      RunWellFormed(p0, [StopEv(joinedStop)]);
      var r := SafeCaptureOne(SaveDir, ts, shot);
      if r.Done? {
        RecordCapture(r.value, shot.value.thumb);
        status, url, error := 200, Some(CaptureUrl(r.value.path)), None;
      } else {
        status, url, error := 500, None, Some(CaptureFailedMessage(r.fault));
      }
      CaptureFinally(joinedEnsure);
    }

    /** The success path of the capture's `try`. */
    method RecordCapture(saved: Saved, thumb: Outcome<Bytes>)
      requires Valid()
      modifies this
      ensures Valid()
      ensures capturedImage == Some(saved.data) && capturedFilename == Some(saved.path)
      ensures selectedPort == old(selectedPort) && viewers == old(viewers)
      ensures Pump() == old(Pump()).(mode := Captured)
      ensures latestFrame == FrameAfterCapture(old(latestFrame), saved, thumb)
    {
      capturedImage := Some(saved.data);
      capturedFilename := Some(saved.path);
      var pushed := false;
      if saved.mime == "image/jpeg" || EndsWith(Lower(saved.path), ".jpg") {
        if StartsWithSoi(saved.data) {
          latestFrame := Some(saved.data);
          pushed := true;
        }
      }
      if !pushed {
        match thumb {
          case Done(b) =>
            if StartsWithSoi(b) {
              latestFrame := Some(b);
            }
          case Raised(_) =>
        }
      }
      mode := Captured;
    }

    /** The capture's `finally`. */
    method CaptureFinally(joined: bool)
      requires Valid()
      modifies this
      ensures Valid()
      ensures Held() == old(Held())
      ensures latestFrame == FrameAfterFinally(old(latestFrame), old(mode))
      ensures Pump() == Ensure(old(Pump()), viewers, joined)
    {
      if mode == Live {
        latestFrame := None;
      }
      ghost var p := Pump();
      EnsurePreviewIfNeeded(joined);
      RunWellFormed(p, [EnsureEv(viewers, joined)]);
    }

    /** `/return_live`: drop the captured image, go live, stop the pump,
        clear the frame, then run the lifecycle. */
    method ReturnLive(joinedStop: bool, joinedEnsure: bool) returns (status: int)
      requires Valid()
      modifies this
      ensures Valid()
      ensures status == 200
      ensures capturedImage.None? && capturedFilename.None? && latestFrame.None?
      ensures selectedPort == old(selectedPort) && viewers == old(viewers)
      ensures Pump() == Ensure(Stop(old(Pump()).(mode := Live), joinedStop), viewers, joinedEnsure)
    {
      capturedImage := None;
      capturedFilename := None;
      mode := Live;
      ghost var p0 := Pump();
      StopCaptureThread(joinedStop);
      latestFrame := None;
      EnsurePreviewIfNeeded(joinedEnsure);
      RunWellFormed(p0, [StopEv(joinedStop), EnsureEv(viewers, joinedEnsure)]);
      status := 200;
    }

    /** `/confirm`: as `/return_live`, answering the stream URL with a
        millisecond cache-buster. */
    method Confirm(nowMs: nat, joinedStop: bool, joinedEnsure: bool) returns (video: string)
      requires Valid()
      modifies this
      ensures Valid()
      ensures capturedImage.None? && capturedFilename.None? && latestFrame.None?
      ensures selectedPort == old(selectedPort) && viewers == old(viewers)
      ensures Pump() == Ensure(Stop(old(Pump()).(mode := Live), joinedStop), viewers, joinedEnsure)
      ensures video == "/video_feed?ts=" + DecimalText(nowMs)
    {
      var _ := ReturnLive(joinedStop, joinedEnsure);
      video := "/video_feed?ts=" + DecimalText(nowMs);
    }
  }
}
