/** The camera-facing steps every server version shares: connecting to a port
    (`connect_camera`), the JPEG sanity check of a saved file
    (`_safe_save_camera_file`), shooting and saving one image
    (`safe_capture_one`) and the choice of the preview frame that follows a
    capture. libgphoto2 is an oracle: what it detects, which port paths it
    knows, whether `init` fails and with which text, and what a shot returns
    are parameters. */
module Device {
  import opened Common
  import opened Extension

  /** One `(model, port)` pair of `Camera.autodetect()`. */
  datatype Camera = Camera(model: string, port: string)

  /** What libgphoto2 reports during one connect attempt: the autodetected
      cameras, the paths of the port-info list, and the error `init` raises. */
  datatype Link = Link(detected: seq<Camera>, ports: seq<string>, initError: Option<string>)

  /** An exception raised while talking to the camera or saving its file. */
  datatype Fault = Gphoto(detail: string) | SoiMissing

  /** `str(e)` of the exception. */
  function FaultText(f: Fault): string {
    match f
    case Gphoto(d) => d
    case SoiMissing => "Saved file doesn't start with JPEG SOI marker"
  }

  /** `GPhoto2Error(GP_ERROR_BAD_PARAMETERS)`, raised for an unknown port path. */
  const BadParameters: Fault := Gphoto("[-2] Bad parameters")

  const NoCameraMessage: string := "No camera detected by libgphoto2"

  function InitFailedMessage(port: string, f: Fault): string {
    "Camera init failed on port " + port + ": " + FaultText(f)
  }

  function CaptureFailedMessage(f: Fault): string {
    "Capture failed: " + FaultText(f)
  }

  // ------------------------------------------------------------ connecting

  /** The outcome of `connect_camera` in serverV5.py and serverV8.py: the
      port bound, or the text left in `last_error`. */
  datatype Connection = Bound(port: string) | Refused(error: string)

  /** The port path `_set_port` looks up. */
  function PortToUse(camPort: Option<string>, link: Link): Option<string> {
    if PresentText(camPort) then Some(camPort.value)
    else if |link.detected| > 0 then Some(link.detected[0].port)
    else None
  }

  /** `connect_camera(camera_port)` of serverV5.py and serverV8.py. The JPEG
      and liveview nudges after `init` catch their own errors and cannot make
      the connect fail. */
  function Connect(camPort: Option<string>, link: Link): (r: Connection)
    ensures r.Bound? <==>
      PortToUse(camPort, link).Some? && PortToUse(camPort, link).value in link.ports
      && link.initError.None?
  {
    if !PresentText(camPort) && |link.detected| == 0 then Refused(NoCameraMessage)
    else
      var port := if PresentText(camPort) then camPort.value else link.detected[0].port;
      if port !in link.ports then Refused(InitFailedMessage(port, BadParameters))
      else if link.initError.Some? then Refused(InitFailedMessage(port, Gphoto(link.initError.value)))
      else Bound(port)
  }

  /** What connect promises: an explicit port is used as given, no port means
      the first detected camera, and each failure leaves a message naming its
      cause. */
  lemma ConnectCases(camPort: Option<string>, link: Link)
    ensures PresentText(camPort) && Connect(camPort, link).Bound? ==>
      Connect(camPort, link).port == camPort.value
    ensures !PresentText(camPort) && Connect(camPort, link).Bound? ==>
      Connect(camPort, link).port == link.detected[0].port
    ensures Connect(camPort, link) == Refused(NoCameraMessage) <==>
      !PresentText(camPort) && link.detected == []
    ensures var p := PortToUse(camPort, link);
      p.Some? && p.value !in link.ports ==>
        Connect(camPort, link) == Refused("Camera init failed on port " + p.value + ": [-2] Bad parameters")
    ensures Connect(camPort, link).Refused? && Connect(camPort, link).error != NoCameraMessage ==>
      PortToUse(camPort, link).Some?
      && exists f: Fault :: Connect(camPort, link).error == InitFailedMessage(PortToUse(camPort, link).value, f)
  {
    var r := Connect(camPort, link);
    if !PresentText(camPort) && |link.detected| == 0 {
      assert r == Refused(NoCameraMessage);
    } else {
      var port := PortToUse(camPort, link).value;
      assert NoCameraMessage[0] == 'N';
      if port !in link.ports {
        var m := InitFailedMessage(port, BadParameters);
        assert r == Refused(m);
        assert m == "Camera init failed on port " + port + ": [-2] Bad parameters";
        assert m[0] == 'C';
      } else if link.initError.Some? {
        var m := InitFailedMessage(port, Gphoto(link.initError.value));
        assert r == Refused(m);
        assert m[0] == 'C';
      } else {
        assert r == Bound(port);
      }
    }
  }

  /** How `connect_camera` of serverV2.py and serverV3.py binds: to the
      given port when it is truthy and the lookup finds it, otherwise by
      libgphoto2's automatic detection; any error gives None. */
  datatype Binding = Explicit(port: string) | Automatic

  function ConnectLegacy(camPort: Option<string>, link: Link): (r: Option<Binding>)
    ensures r.Some? <==> link.initError.None? && (!PresentText(camPort) || camPort.value in link.ports)
    ensures r.Some? ==> (r.value.Explicit? <==> PresentText(camPort))
  {
    if PresentText(camPort) then
      if camPort.value !in link.ports then None
      else if link.initError.Some? then None
      else Some(Explicit(camPort.value))
    else if link.initError.Some? then None
    else Some(Automatic)
  }

  /** Given a port, both generations bind it under the same conditions;
      without one they differ: the later connect needs a detected camera and
      uses its port, the earlier one leaves detection to `init`. */
  lemma ConnectGenerationsAgreeOnGivenPort(camPort: Option<string>, link: Link)
    ensures PresentText(camPort) ==>
      (Connect(camPort, link).Bound? <==> ConnectLegacy(camPort, link) == Some(Explicit(camPort.value)))
    ensures !PresentText(camPort) && link.detected == [] && link.initError.None? ==>
      Connect(camPort, link).Refused? && ConnectLegacy(camPort, link) == Some(Automatic)
  {
  }

  // ------------------------------------------------------ saving the shot

  /** `_safe_save_camera_file`: after saving, a file whose lower-cased path
      ends in ".jpg" must start with FF D8 (reading two bytes of a shorter
      file never matches). */
  function SaveCheck(path: string, saved: Bytes): (r: Option<Fault>)
    ensures r.Some? ==> r.value == SoiMissing
    ensures r.None? <==> !EndsWith(Lower(path), ".jpg") || StartsWithSoi(saved)
  {
    if EndsWith(Lower(path), ".jpg") && !StartsWithSoi(saved) then Some(SoiMissing) else None
  }

  /** The check is case-blind on ".jpg" and never applies to ".jpeg". */
  lemma SaveCheckSpellings(stem: string, saved: Bytes)
    ensures SaveCheck(stem + ".JPG", saved) == SaveCheck(stem + ".jpg", saved)
    ensures SaveCheck(stem + ".jpeg", saved).None?
  {
    var up := stem + ".JPG";
    var lo := stem + ".jpg";
    assert Lower(up) == Lower(lo) by {
      forall i | 0 <= i < |up| ensures Lower(up)[i] == Lower(lo)[i] {
        if i >= |stem| {
          assert up[i] == ".JPG"[i - |stem|] && lo[i] == ".jpg"[i - |stem|];
        } else {
          assert up[i] == lo[i];
        }
      }
    }
    var je := stem + ".jpeg";
    assert Lower(je)[|je| - 4] == 'j';
  }

  /** The host file for a shot: `os.path.join(SAVE_DIR, f"capture_{ts}{ext}")`. */
  function HostPath(saveDir: string, ts: string, ext: string): string {
    Join(saveDir, "capture_" + ts + ext)
  }

  /** What one `cam.capture` + `file_get` returns: the camera-side folder and
      name, the MIME type, the file's bytes, what mimetypes guesses for the
      MIME type, and what fetching the camera's preview of that file gives. */
  datatype Shot = Shot(folder: string, name: string, mime: string, data: Bytes,
                       guessed: Option<string>, thumb: Outcome<Bytes>)

  /** A step that either raises or produces a value. */
  datatype Outcome<T> = Raised(fault: Fault) | Done(value: T)

  /** `(host_filepath, mime, ...)` and the bytes now on disk. */
  datatype Saved = Saved(path: string, mime: string, data: Bytes)

  /** `safe_capture_one(cam)`; `shot` is Raised when capturing or fetching
      the file failed. Deleting the camera-side file is best effort and
      cannot fail the call. */
  function SafeCaptureOne(saveDir: string, ts: string, shot: Outcome<Shot>): (r: Outcome<Saved>)
    ensures shot.Raised? ==> r == Raised(shot.fault)
    ensures r.Done? ==> shot.Done? && r.value.mime == shot.value.mime && r.value.data == shot.value.data
    ensures r.Done? ==> !EndsWith(Lower(r.value.path), ".jpg") || StartsWithSoi(r.value.data)
    ensures shot.Done? && r.Raised? ==> r.fault == SoiMissing
    ensures shot.Done? ==>
      var path := HostPath(saveDir, ts, ChooseExt(shot.value.mime, shot.value.name, shot.value.guessed));
      (r.Done? <==> !EndsWith(Lower(path), ".jpg") || StartsWithSoi(shot.value.data))
      && (r.Done? ==> r.value.path == path)
  {
    match shot
    case Raised(f) => Raised(f)
    case Done(s) =>
      var path := HostPath(saveDir, ts, ChooseExt(s.mime, s.name, s.guessed));
      match SaveCheck(path, s.data)
      case Some(f) => Raised(f)
      case None => Done(Saved(path, s.mime, s.data))
  }

  /** No extension _choose_ext picks contains a '/' unless mimetypes
      guessed one that does. */
  lemma ChooseExtNoSlash(mime: string, name: string, guessed: Option<string>)
    requires guessed.Some? ==> '/' !in guessed.value
    ensures '/' !in ChooseExt(mime, name, guessed)
  {
    if mime !in ExtMap && !PresentText(guessed) {
      var e := SplitExt(name).1;
      assert e == [] || '/' !in e;
    }
  }

  lemma {:induction false} NoSlashInConcat(a: string, b: string)
    requires '/' !in a && '/' !in b
    ensures '/' !in a + b
  {
    forall c | c in a + b ensures c != '/' {
      assert c in a || c in b;
    }
  }

  /** The saved file is named "capture_" + timestamp + extension, inside the
      save directory. */
  lemma SavedName(saveDir: string, ts: string, shot: Shot)
    requires '/' !in ts
    requires shot.guessed.Some? ==> '/' !in shot.guessed.value
    ensures var r := SafeCaptureOne(saveDir, ts, Done(shot));
      r.Done? ==> Basename(r.value.path) == "capture_" + ts + ChooseExt(shot.mime, shot.name, shot.guessed)
  {
    var ext := ChooseExt(shot.mime, shot.name, shot.guessed);
    ChooseExtNoSlash(shot.mime, shot.name, shot.guessed);
    assert '/' !in "capture_";
    NoSlashInConcat("capture_", ts);
    NoSlashInConcat("capture_" + ts, ext);
    BasenameOfJoin(saveDir, "capture_" + ts + ext);
  }

  /** A shot the camera reports as image/jpeg is always saved as ".jpg", so
      the SOI check applies to it. */
  lemma JpegShotSavedAsJpg(saveDir: string, ts: string, shot: Shot)
    requires shot.mime == "image/jpeg"
    ensures EndsWith(HostPath(saveDir, ts, ChooseExt(shot.mime, shot.name, shot.guessed)), ".jpg")
  {
    var ext := ChooseExt(shot.mime, shot.name, shot.guessed);
    assert ext == ".jpg";
    var name := "capture_" + ts + ext;
    assert name[|name| - 4..] == ".jpg";
    EndsWithOfSuffix(HostPath(saveDir, ts, ext), name, ".jpg");
  }

  // ------------------------------------------- the preview after a capture

  /** The capture handlers push the captured bytes to the preview only when
      the file is a JPEG by MIME type or by name and starts with FF D8. */
  predicate PushGate(s: Saved) {
    (s.mime == "image/jpeg" || EndsWith(Lower(s.path), ".jpg")) && StartsWithSoi(s.data)
  }

  /** `_update_latest_with_camera_preview`: the camera's preview of the file,
      when it can be fetched and starts with FF D8. */
  function ThumbnailFrame(thumb: Outcome<Bytes>): (r: Option<Bytes>)
    ensures r.Some? <==> thumb.Done? && StartsWithSoi(thumb.value)
    ensures r.Some? ==> r.value == thumb.value
  {
    if thumb.Done? && StartsWithSoi(thumb.value) then Some(thumb.value) else None
  }

  /** The preview frame after a successful capture in serverV3.py and
      serverV5.py: the captured bytes when they pass the gate, otherwise the
      camera's thumbnail when it is a JPEG, otherwise unchanged. */
  function FrameAfterCapture(previous: Option<Bytes>, s: Saved, thumb: Outcome<Bytes>): (r: Option<Bytes>)
    ensures r == previous || (r.Some? && StartsWithSoi(r.value))
    ensures PushGate(s) ==> r == Some(s.data)
    ensures !PushGate(s) && ThumbnailFrame(thumb).Some? ==> r == Some(thumb.value)
    ensures !PushGate(s) && ThumbnailFrame(thumb).None? ==> r == previous
  {
    if PushGate(s) then Some(s.data)
    else
      match ThumbnailFrame(thumb)
      case Some(t) => Some(t)
      case None => previous
  }

  /** The preview frame after a successful capture in serverV2.py as
      written: `capture` does not declare `latest_frame` global, so its
      assignment of the captured bytes binds a local name and the shared
      frame keeps its old value; only the thumbnail path (a helper that does
      declare it) reaches the shared frame. */
  function FrameAfterCaptureV2(previous: Option<Bytes>, s: Saved, thumb: Outcome<Bytes>): (r: Option<Bytes>)
    ensures PushGate(s) ==> r == previous
    ensures !PushGate(s) ==> r == FrameAfterCapture(previous, s, thumb)
  {
    if PushGate(s) then previous
    else
      match ThumbnailFrame(thumb)
      case Some(t) => Some(t)
      case None => previous
  }

  /** A JPEG capture under serverV2.py leaves the preview as it was (here:
      empty), while the corrected handler shows the captured image. */
  lemma V2JpegCaptureMissesPreview()
    ensures var s := Saved("captured_images/capture_1.jpg", "image/jpeg", [0xFF, 0xD8, 0xFF, 0xD9]);
      FrameAfterCaptureV2(None, s, Raised(Gphoto("no preview"))) == None
      && FrameAfterCapture(None, s, Raised(Gphoto("no preview"))) == Some(s.data)
  {
    var s := Saved("captured_images/capture_1.jpg", "image/jpeg", [0xFF, 0xD8, 0xFF, 0xD9]);
    assert s.data[..2] == Soi;
    assert PushGate(s);
  }

  /** Whatever the shot, the corrected preview after a capture is never a
      non-JPEG payload: the frame only ever changes to SOI-prefixed bytes,
      and a JPEG that the save check let through always reaches it. */
  lemma CapturedJpegReachesPreview(previous: Option<Bytes>, saveDir: string, ts: string, shot: Outcome<Shot>)
    ensures var r := SafeCaptureOne(saveDir, ts, shot);
      r.Done? && r.value.mime == "image/jpeg" && StartsWithSoi(r.value.data) ==>
        FrameAfterCapture(previous, r.value, shot.value.thumb) == Some(r.value.data)
    ensures var r := SafeCaptureOne(saveDir, ts, shot);
      r.Done? && EndsWith(Lower(r.value.path), ".jpg") ==>
        FrameAfterCapture(previous, r.value, shot.value.thumb) == Some(r.value.data)
  {
  }

  /** The preview frame after the capture's `finally` (serverV3.py,
      serverV5.py, and serverV8.py as intended): cleared when the handler
      ends in live mode, that is after a failed capture, so the next stream
      does not start on a stale still; kept after a successful one. */
  function FrameAfterFinally(frame: Option<Bytes>, mode: Mode): (r: Option<Bytes>)
    ensures mode == Live ==> r.None?
    ensures mode == Captured ==> r == frame
  {
    if mode == Live then None else frame
  }

  /** The same `finally` in serverV8.py as written: `capture` does not
      declare `latest_frame` global, so `latest_frame = None` binds a local
      name and the shared frame is kept in every mode. */
  function FrameAfterFinallyV8(frame: Option<Bytes>, mode: Mode): (r: Option<Bytes>)
    ensures r == frame
  {
    frame
  }

  /** A failed capture under serverV8.py leaves the last live frame in
      place, while the intended handler clears it. */
  lemma V8FailedCaptureKeepsStaleFrame()
    ensures var f: Option<Bytes> := Some([0xFF, 0xD8, 0xFF, 0xD9]);
      FrameAfterFinallyV8(f, Live) == f && FrameAfterFinally(f, Live) == None
  {
  }

  // -------------------------------------------------------------- download

  /** The answer of `/download`: the file to send, its mimetype and the name
      offered to the browser. */
  datatype Download = NoImage | File(path: string, mimetype: Option<string>, name: string, attachment: bool)

  /** `/download` in every version: nothing unless both the image bytes and
      the file name are truthy; otherwise the file, as image/jpeg exactly
      when its name ends in ".jpg" in any case, offered under its base name.
      serverV2.py sends it as an attachment, the later versions inline. */
  function DownloadAnswer(image: Option<Bytes>, filename: Option<string>, attachment: bool): (r: Download)
    ensures r.File? <==> PresentBytes(image) && PresentText(filename)
    ensures r.File? ==>
      r.path == filename.value && r.attachment == attachment
      && (r.mimetype.Some? <==> EndsWith(Lower(filename.value), ".jpg"))
      && (r.mimetype.Some? ==> r.mimetype.value == "image/jpeg")
      && '/' !in r.name && EndsWith(filename.value, r.name)
      && (|r.name| < |filename.value| ==> filename.value[|filename.value| - |r.name| - 1] == '/')
  {
    if PresentBytes(image) && PresentText(filename) then
      var fn := filename.value;
      File(fn, if EndsWith(Lower(fn), ".jpg") then Some("image/jpeg") else None, Basename(fn), attachment)
    else NoImage
  }

  /** The name offered for a capture is the name it was saved under. */
  lemma DownloadNamesCapture(image: Bytes, saveDir: string, ts: string, shot: Shot, attachment: bool)
    requires |image| > 0 && '/' !in ts
    requires shot.guessed.Some? ==> '/' !in shot.guessed.value
    ensures var r := SafeCaptureOne(saveDir, ts, Done(shot));
      r.Done? ==>
        DownloadAnswer(Some(image), Some(r.value.path), attachment).File?
        && DownloadAnswer(Some(image), Some(r.value.path), attachment).name
           == "capture_" + ts + ChooseExt(shot.mime, shot.name, shot.guessed)
  {
    var r := SafeCaptureOne(saveDir, ts, Done(shot));
    if r.Done? {
      var path := r.value.path;
      var name := "capture_" + ts + ChooseExt(shot.mime, shot.name, shot.guessed);
      SavedName(saveDir, ts, shot);
      assert Basename(path) == name;
      assert EndsWith(path, name) && |name| > 0;
      var d := DownloadAnswer(Some(image), Some(path), attachment);
      assert d == File(path, d.mimetype, Basename(path), attachment);
    }
  }
}
