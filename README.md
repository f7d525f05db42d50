# Photobooth camera server: a verified model

The photobooth server drives a tethered camera through libgphoto2 and serves
it over HTTP. It streams a live MJPEG preview while browsers watch, takes a
still on request, shows the still in the preview, and offers it for download.
Four successive versions of the server are modelled: serverV2.py, serverV3.py,
serverV5.py and serverV8.py. Each version keeps its state in module globals,
and its route handlers update them step by step. Each version therefore
becomes a Dafny `class Server` whose fields are those globals and whose
methods are the handlers. Every method is proved against pure functions of
the shared modules:

- `Common`: bytes, Python truthiness, `str.strip`, `str.lower` (ASCII),
  `os.path.basename`/`join`, decimal rendering, and the JPEG start-of-image
  marker FF D8 (Table B.1 in Annex B of ITU-T T.81).
- `Extension`: `os.path.splitext` and `_choose_ext`.
- `Rate`: `_clamp_fps`, the frame interval and the `next_tick` resynchronisation.
- `Stream`: the multipart parts of `generate_frames`. A part starts with the
  boundary delimiter `--frame` (section 5.1.1 of RFC 2046). In serverV8.py it
  also carries a `Content-Length` header field (section 8.6 of RFC 9110).
  The module holds the de-duplicating V8 emitter and the older emitter.
- `Lifecycle`: the preview pump as a state machine. The state is the
  `running` flag, the referenced thread and whether it is alive, the count of
  abandoned threads still looping, `mode` and `supports_preview`. The
  transitions are start (guarded, or unguarded as in V2), stop with a join
  that may time out, `ensure_preview_if_needed`, and the viewer
  attach/detach.
- `Choices`: the scans over the camera configuration in `try_set_image_jpeg`,
  `try_enable_liveview` and `try_autofocus`.
- `Device`: `connect_camera` in both generations, `_safe_save_camera_file`,
  `safe_capture_one`, the SOI gates that decide what the preview shows after
  a capture, and `/download`.
- `ServerV8` (with the versioned `FrameSlot`), `ServerV5`, `ServerV3`,
  `ServerV2`: the handlers and, for V8, the preview loop.

libgphoto2 is an oracle. A `Link` says what a connect attempt meets: the
detected cameras, the port paths the port list knows, and the error `init`
raises, if any. A `Shot` gives what capturing and fetching the file return,
including the camera-side preview of the file. A `Tick` gives what one pass
of the preview loop meets. Which configuration writes the camera refuses is
a set of writes (a widget and a value). Whether a thread join finished within its timeout is
a boolean parameter. The clock is an integer parameter.

Behaviours of the code worth knowing:

- The mode is only ever "live" or "captured". No handler sets a
  "capturing" state.
- More than one preview loop can run at once. A join that times out leaves
  the old thread looping (`Lifecycle.TimedOutJoinThenStart`). serverV2.py
  starts a second loop over a live one (`Lifecycle.UnguardedStartAddsLoop`).
  With guarded starts and joins that finish, there is at most one loop
  (`Lifecycle.AtMostOneLoop`).
- The pump can keep its flag set with no viewers. `stop_capture_thread`
  clears `running` only for a live thread. After the thread dies of an
  uncaught error, no run of handlers revives it or clears the flag
  (`Lifecycle.StuckForever`). `/stop_stream` also stops the pump while
  streams are still open.
- Attaching and then detaching a viewer is neutral only while the pump runs
  (`Lifecycle.AttachDetachWhileRunning`). From idle it leaves the mode live
  and `supports_preview` reset, and a slow join leaves a stray loop
  (`Lifecycle.AttachDetachFromIdle`).
- After a successful capture in V3, V5 and V8 with someone watching, the
  resumed pump sets the mode straight back to live
  (`ServerV8.CapturedModeUndoneByViewers`). In V2 the capture always ends in
  live mode (`ServerV2.Server.Capture`), and a failed connect also restarts
  the pump, which sets the mode to live.
- A capture overwrites the preview only when the file passes the JPEG gate
  or the camera's preview of it starts with FF D8. Otherwise the frame is
  kept (`Device.FrameAfterCapture`).

## Model

| member | source | states |
|---|---|---|
| Common.Strip | serverV8.py:24 | `str.strip()`: the result occurs in the input with only whitespace before and after it, has no whitespace at either end, and is empty exactly when the input is all whitespace |
| Common.Lower | serverV8.py:260 | `str.lower()` keeps the length and lowers each ASCII capital |
| Common.Basename | serverV8.py:503 | `os.path.basename`: a '/'-free suffix of the path that is the whole path or follows its last '/' |
| Common.Join | serverV8.py:285 | `os.path.join(a, b)`: an absolute `b` is the result; otherwise `a`, then one '/' exactly when `a` is non-empty and does not end in one, then `b` |
| Common.BasenameOfJoin | serverV8.py:285 | a '/'-free name joined under any directory is its own basename |
| Common.DecimalText | serverV8.py:526 | the millisecond cache-buster text encodes to the decimal digits of the number |
| Common.DecimalRoundTrip | serverV8.py:397 | `str(len(frame))` is a non-empty run of ASCII digits without a leading zero that reads back as the length |
| Extension.SplitExt | serverV8.py:76 | `os.path.splitext`: root + ext is the path, and ext is empty or one dot followed by no '/' and no further dot |
| Extension.SplitExtOfName | serverV8.py:76 | a device name `stem.tail` whose stem is not all dots splits at its last dot |
| Extension.SplitExtOfDotName | serverV8.py:76 | a name made of leading dots and a dot-free tail has no extension |
| Extension.ChooseExt | serverV8.py:72-77 | `_choose_ext` is never empty; the EXT_MAP entry wins, then the mimetypes guess, then the device name's extension, then ".bin" |
| Extension.TableWins | serverV8.py:58-63 | the four EXT_MAP types map to .jpg, .cr2, .nef and .tif whatever the device name and the guess |
| Extension.UnknownMimeKeepsDeviceExtension | serverV8.py:74-76 | with no table entry and no guess, the device file's own extension is used |
| Extension.UnknownMimeWithoutNameExtension | serverV8.py:74-76 | with no table entry, no guess and no extension in the device name, the result is ".bin" |
| Rate.ClampFps | serverV8.py:26-31 | `_clamp_fps` lies in [1, 60], keeps values already in range, and gives 18 when the input does not parse |
| Rate.ClampFpsIdempotentMonotone | serverV8.py:26-31 | clamping twice is clamping once, and clamping is monotone |
| Rate.FrameInterval | serverV8.py:307 | the interval lies in (0, 1] and is the reciprocal of any rate of at least 1 |
| Rate.Resync | serverV8.py:337-339 | the next tick advances by at least one interval and is never more than one interval behind the clock; it is either the plain advance or clock + interval |
| Rate.ScheduleBoundedLag | serverV8.py:333-339 | over any run of fetches the schedule stays within one interval of the latest clock and advances at least one interval per fetch |
| Rate.LateTickResyncs | serverV8.py:338-339 | a tick left more than one interval behind is moved straight to clock + interval, not advanced one interval at a time |
| Stream.ReadPartOfPart | serverV8.py:395-399 | a part is the boundary, the Content-Type and Content-Length fields, a blank line, the frame and CRLF, and reading it back gives the frame and the part's length |
| Stream.ReadAllEmit | serverV8.py:394-401 | reading a stream of emitted parts gives back exactly the frames, in order |
| Stream.EmitInjective | serverV8.py:394-399 | different frame sequences never produce the same bytes |
| Stream.LegacyPartsRunTogether | serverV3.py:247-249 | without a length field, two parts are byte for byte one part whose frame contains the delimiter |
| Stream.SendsHaveFacts | serverV8.py:382-404 | every send carries a present frame, consecutive sends carry different versions and are at least one send interval apart, and the first send differs from the last version sent |
| Stream.GenerateFrames | serverV8.py:375-404 | the emitter's parts are exactly `Part` of the frames at the sends; no version is sent twice in a row, and when versions only grow they strictly increase across sends |
| Stream.LegacyGenerateFrames | serverV3.py:241-251 | the older emitter yields a part for every observation with a non-empty frame and for no other, in order, with no de-duplication |
| Lifecycle.StartIdempotent | serverV8.py:413-420 | start leaves a running pump alone; otherwise it sets the flag, starts a live thread, switches to live and resets the probe result |
| Lifecycle.StopClearsFlagOnlyForLiveThread | serverV8.py:406-411 | stop always drops the thread reference, clears the flag only when the thread was alive, and keeps the mode and the probe result |
| Lifecycle.EnsureFollowsViewers | serverV8.py:422-427 | with viewers the pump runs, with a live thread unless it is stuck; without viewers it is stopped, and the flag stays set only for a stuck pump |
| Lifecycle.DetachUndoesAttach | serverV8.py:543-551 | detach undoes attach and never goes below zero |
| Lifecycle.AttachDetachWhileRunning | serverV8.py:540-552 | a balanced attach and detach leaves a running pump with viewers unchanged |
| Lifecycle.AttachDetachFromIdle | serverV8.py:540-552 | a balanced attach and detach from idle leaves the pump stopped, live, with the probe reset and a stray loop if the join timed out |
| Lifecycle.UnguardedStartAddsLoop | serverV2.py:260-266 | the unguarded start over a live thread adds a second loop |
| Lifecycle.TimedOutJoinThenStart | serverV8.py:406-420 | a stop whose join times out followed by a start leaves two loops running |
| Lifecycle.RunWellFormed | serverV8.py:406-427 | every run of lifecycle transitions keeps the flag set while a referenced thread is alive |
| Lifecycle.AtMostOneLoop | serverV8.py:406-427 | with guarded starts and joins that finish, at most one loop ever runs |
| Lifecycle.StuckForever | serverV8.py:406-420 | once the thread has died with the flag set, no run of guarded transitions brings a live thread back |
| Choices.FirstMatch | serverV5.py:153-159 | the first index whose choice matches, with none before it, or none at all |
| Choices.LastMatch | serverV8.py:218-221 | the last index whose choice matches, with none after it, or none at all |
| Choices.HalfLikeIsHalf | serverV8.py:220 | the "press half" test adds nothing to the "half" test |
| Choices.FindChild | serverV8.py:144-154 | `_find_child` returns the first of the names the tree has, or none when it has none of them |
| Choices.FirstJpegChoice | serverV5.py:153-159 | the inner loop stops at the first choice whose lower case contains "jpeg", "jpg" or "fine" |
| Choices.SelectImageJpeg | serverV5.py:141-161 | `try_set_image_jpeg` makes exactly the write of the JPEG scan, and none without a configuration |
| Choices.JpegScanChoosesFirst | serverV5.py:145-159 | at most one write: the first JPEG-like choice of "imageformat" when it has one; when "imageformat" is absent or has none, the first JPEG-like choice of "imagequality"; a non-choice "imageformat" widget ends the scan; no write exactly when neither applies |
| Choices.LiveviewValue | serverV8.py:174-180 | a toggle gets 1 and only a toggle does; a radio gets its first choice containing on, live, enable, movie or viewfinder (lower-cased), and nothing exactly when it has none; other widgets get nothing |
| Choices.FirstLiveChoice | serverV8.py:177-180 | the choice loop stops at the first choice containing on, live, enable, movie or viewfinder |
| Choices.LiveviewLoop | serverV8.py:172-182 | the key loop writes the planned value for each key in order, and reports enabled iff the camera accepted one of those writes |
| Choices.TryEnableLiveview | serverV8.py:166-192 | no configuration gives no writes and false; otherwise the liveview writes then the capturetarget rewrite, and enabled iff a liveview write was accepted |
| Choices.LiveviewPlanComplete | serverV8.py:170-182 | every planned write is for a listed key with its planned value, and every listed key with a value is written |
| Choices.ManualChoice | serverV8.py:229-233 | the manual-focus choice is the first choice containing "near" or "small" or equal to "1" (lower-cased), else choice 0, and absent only for an empty list |
| Choices.HalfRelease | serverV8.py:217-221 | the half-press value is the last choice containing "half", the release value the last containing "release" |
| Choices.PickManualChoice | serverV8.py:229-233 | the loop with `break` finds exactly that manual-focus choice |
| Choices.SettleTime | serverV8.py:236 | the settle time is the timeout clamped to [0.1, 2.0] |
| Choices.RemoteStep | serverV8.py:214-225 | the remote-release block writes the half-press value then the release value, and reports whether the half-press alone was accepted; the release write's answer is dropped |
| Choices.TryAutofocus | serverV8.py:203-237 | no configuration gives false; otherwise the drive, remote-release and manual-focus writes in order, ok iff the drive, half-press or manual-focus write was accepted (not the release write), an error for an empty manual-focus list, and a settle pause of the clamped timeout iff there was no error and some focus node was found |
| Choices.ReleaseAnswerIgnored | serverV8.py:222-225 | a refused half-press with an accepted release leaves the counted writes unaccepted, though the release was taken |
| Choices.RemoteWritesOrder | serverV8.py:214-225 | at most two writes: none iff no choice contains "half", the last half-like choice first, then the last release-like choice iff one exists |
| Device.Connect | serverV5.py:95-130 | `connect_camera` binds iff the port to use is known to the port list and `init` succeeds |
| Device.ConnectCases | serverV5.py:97-111 | the given port is bound when present, else the first detected camera's; "No camera detected by libgphoto2" exactly when no port is given and none is detected; an unknown port fails with the bad-parameters init message |
| Device.ConnectLegacy | serverV3.py:71-100 | the earlier connect binds an explicit port only when the lookup finds it, otherwise lets `init` detect, and fails iff the lookup or `init` fails |
| Device.ConnectGenerationsAgreeOnGivenPort | serverV3.py:75-81 | given a port, both generations bind it under the same conditions; without one and with no camera detected, only the earlier one tries `init` |
| Device.SaveCheck | serverV5.py:163-170 | the save check fails iff the lower-cased path ends in ".jpg" and the bytes do not start with FF D8 |
| Device.SaveCheckSpellings | serverV5.py:166 | ".JPG" is checked like ".jpg", and ".jpeg" is never checked |
| Device.SafeCaptureOne | serverV5.py:187-212 | a capture failure propagates; a taken shot is saved under SAVE_DIR/"capture_" + timestamp + the chosen extension exactly when that name does not end in ".jpg" (in any case) or the bytes start with FF D8; a saved file keeps the device MIME type and bytes; a save failure is the SOI fault |
| Device.SavedName | serverV5.py:197-201 | the saved file's base name is "capture_" + timestamp + the chosen extension |
| Device.JpegShotSavedAsJpg | serverV5.py:196-201 | an image/jpeg shot is saved under a ".jpg" name |
| Device.ThumbnailFrame | serverV5.py:172-185 | the camera's preview of the file is used iff it was fetched and starts with FF D8 |
| Device.FrameAfterCapture | serverV5.py:386-396 | after a capture the frame is the captured bytes when they pass the JPEG gate, else a JPEG thumbnail, else unchanged, so it only ever changes to SOI-prefixed bytes |
| Device.FrameAfterCaptureV2 | serverV2.py:305-317 | in serverV2.py a capture that passes the JPEG gate leaves the shared frame unchanged, and otherwise acts as the corrected rule |
| Device.V2JpegCaptureMissesPreview | serverV2.py:292-317 | a JPEG capture with no thumbnail leaves the serverV2.py preview empty where the corrected rule shows it |
| Device.CapturedJpegReachesPreview | serverV5.py:386-396 | a saved image/jpeg capture starting with FF D8, or any saved ".jpg", becomes the preview |
| Device.FrameAfterFinally | serverV5.py:410-413 | the capture's `finally` clears the frame in live mode and keeps it in captured mode |
| Device.FrameAfterFinallyV8 | serverV8.py:513-514 | in serverV8.py as written, the `finally` keeps the shared frame in every mode |
| Device.V8FailedCaptureKeepsStaleFrame | serverV8.py:475-514 | after a failed capture in live mode, serverV8.py keeps the last live frame where the intended rule clears it |
| Device.DownloadAnswer | serverV5.py:473-486 | a file iff both the bytes and the name are truthy; image/jpeg iff the name ends in ".jpg" in any case; offered under its base name |
| Device.DownloadNamesCapture | serverV5.py:476-482 | after a capture, the download offers the name the file was saved under |
| ServerV8.FrameSlot.Publish | serverV8.py:79-85 | publishing stores the frame, stamps the time and increases the version by exactly one |
| ServerV8.FrameSlot.Clear | serverV8.py:524 | clearing empties the frame and keeps the version and the time |
| ServerV8.Server.constructor | serverV8.py:24 | start-up: the stripped CAMERA_PORT, or none when blank; pump idle and live; no capture, no viewers, version 0 |
| ServerV8.Server.StopCaptureThread | serverV8.py:406-411 | the pump becomes `Stop` of the old pump; nothing else changes |
| ServerV8.Server.StartCaptureThread | serverV8.py:413-420 | the pump becomes `Start` of the old pump; nothing else changes |
| ServerV8.Server.HasViewers | serverV8.py:422-423 | true iff the viewer count is not zero |
| ServerV8.Server.EnsurePreviewIfNeeded | serverV8.py:425-427 | the pump becomes `Ensure` of the old pump for the current viewers |
| ServerV8.Server.VideoFeedOpen | serverV8.py:540-544 | one more viewer, then the lifecycle runs; the session is otherwise unchanged |
| ServerV8.Server.VideoFeedClose | serverV8.py:550-552 | one viewer fewer but never below zero, then the lifecycle runs |
| ServerV8.Server.SetCamera | serverV8.py:460-471 | 400 iff the port is missing or empty, changing nothing; otherwise the stripped port is stored, the probe reset, live mode set, the pump stopped and the lifecycle run |
| ServerV8.Server.Capture | serverV8.py:473-515 | 503 iff the connect fails, with its message and nothing else changed; 500 iff the capture or save fails, with "Capture failed: ..." and the capture state kept; otherwise 200, the URL "/captured_images/<name>", the bytes and path kept, the frame per `FrameAfterCapture`, a version bump iff something was published, and captured mode before the lifecycle runs; the preview stays a JPEG or nothing; the `finally` as intended (Findings row 2; as written: `Device.FrameAfterFinallyV8`) |
| ServerV8.Server.RecordCapture | serverV8.py:489-504 | the success path keeps the bytes and the path, publishes per the JPEG gate or the thumbnail, and switches to captured |
| ServerV8.Server.CaptureFinally | serverV8.py:510-515 | as intended (Findings row 2; as written: `Device.FrameAfterFinallyV8`): the `finally` leaves the frame per `FrameAfterFinally`, keeps the version, and runs the lifecycle |
| ServerV8.Server.BackToLive | serverV8.py:517-538 | the captured image and name are dropped, the mode is live, the frame is cleared, and the pump is stopped and then run per the viewers |
| ServerV8.Server.Confirm | serverV8.py:517-527 | as return_live, answering "/video_feed?ts=" + the milliseconds |
| ServerV8.Server.ReturnLive | serverV8.py:529-538 | as `BackToLive`, answering 200 |
| ServerV8.Server.StopStream | serverV8.py:577-584 | live mode, pump stopped, frame cleared, session unchanged, and no lifecycle run afterwards |
| ServerV8.Server.PumpEnter | serverV8.py:294-308 | the loop's entry connects, records the connect error, probes only an unknown preview, and schedules the first tick one interval ahead |
| ServerV8.Server.PumpIteration | serverV8.py:310-366 | one pass reconnects without a camera; in live mode it re-probes after a failure, resynchronises the tick, publishes only a non-empty SOI payload, and marks the preview unsupported on a failed fetch; the frame changes only to such a payload |
| ServerV8.Server.CaptureLoop | serverV8.py:294-373 | while the flag stays set, the version only grows, the frame stays a JPEG or nothing, and mode and capture state are untouched |
| ServerV8.CapturedModeUndoneByViewers | serverV8.py:502-515 | after a capture with an idle pump and someone watching, the resumed pump sets the mode back to live; with no viewers "captured" survives |
| ServerV8.CaptureKeepsStuckPump | serverV8.py:476-515 | a capture leaves a stuck pump stuck, in whatever mode the handler set |
| ServerV5.Server.constructor | serverV5.py:34-55 | start-up: the stripped CAMERA_PORT or none, pump idle and live, nothing captured, no viewers, no error |
| ServerV5.Server.StopCaptureThread | serverV5.py:279-284 | the pump becomes `Stop` of the old pump; nothing else changes |
| ServerV5.Server.StartCaptureThread | serverV5.py:286-294 | the pump becomes `Start` of the old pump; nothing else changes |
| ServerV5.Server.EnsurePreviewIfNeeded | serverV5.py:296-304 | the pump becomes `Ensure` of the old pump for the current viewers |
| ServerV5.Server.VideoFeedOpen | serverV5.py:448-453 | one more viewer, then the lifecycle runs |
| ServerV5.Server.VideoFeedClose | serverV5.py:456-463 | one viewer fewer but never below zero, then the lifecycle runs |
| ServerV5.Server.SetCamera | serverV5.py:344-361 | 400 iff the port is missing or empty, changing nothing; otherwise the stripped port, reset probe, live mode, stop, then the lifecycle |
| ServerV5.Server.UpdateLatestWithCameraPreview | serverV5.py:172-185 | the frame is replaced by the thumbnail iff it was fetched and starts with FF D8, and the answer says whether it was |
| ServerV5.Server.Capture | serverV5.py:363-414 | 503 iff the connect fails, with `last_error`; 500 iff the capture or save fails, with "Capture failed: ..."; otherwise 200 with "/captured_images/<name>", the bytes and path kept, the frame per `FrameAfterCapture`, captured mode before the lifecycle runs; the `finally` per `FrameAfterFinally` |
| ServerV5.Server.RecordCapture | serverV5.py:379-400 | the success path keeps the bytes and the path, sets the frame per `FrameAfterCapture`, and switches to captured |
| ServerV5.Server.CaptureFinally | serverV5.py:406-414 | the `finally` leaves the frame per `FrameAfterFinally` and runs the lifecycle |
| ServerV5.Server.ReturnLive | serverV5.py:436-446 | the captured image and name are dropped, the mode is live, the frame is cleared, stop, then the lifecycle |
| ServerV5.Server.Confirm | serverV5.py:416-434 | as return_live, answering "/video_feed?ts=" + the milliseconds |
| ServerV3.CaptureUrl | serverV3.py:348 | "/" + os.path.join("captured_images", basename) is "/captured_images/<basename>", the URL the later versions build |
| ServerV3.Server.constructor | serverV3.py:33-42 | start-up: no port, pump idle and live, nothing captured, no viewers |
| ServerV3.Server.StopCaptureThread | serverV3.py:253-258 | the pump becomes `Stop` of the old pump; nothing else changes |
| ServerV3.Server.StartCaptureThread | serverV3.py:260-268 | the guarded start: the pump becomes `Start` of the old pump |
| ServerV3.Server.EnsurePreviewIfNeeded | serverV3.py:270-278 | the pump becomes `Ensure` of the old pump for the current viewers |
| ServerV3.Server.VideoFeedOpen | serverV3.py:401-406 | one more viewer, then the lifecycle runs |
| ServerV3.Server.VideoFeedClose | serverV3.py:408-415 | one viewer fewer but never below zero, then the lifecycle runs |
| ServerV3.Server.SetCamera | serverV3.py:296-309 | no validation: the form value, possibly none, becomes the port; probe reset, live mode, stop, lifecycle; always 200 |
| ServerV3.Server.Capture | serverV3.py:311-364 | 503 "Camera not available" iff the earlier connect fails; 500 with "Capture failed: ..." iff the capture or save fails; otherwise 200 with "/captured_images/<name>", the relative path kept, the frame per `FrameAfterCapture`; the `finally` per `FrameAfterFinally` |
| ServerV3.Server.RecordCapture | serverV3.py:330-349 | the success path keeps the bytes and the relative path, sets the frame per `FrameAfterCapture`, and switches to captured |
| ServerV3.Server.CaptureFinally | serverV3.py:354-364 | the `finally` leaves the frame per `FrameAfterFinally` and runs the lifecycle |
| ServerV3.Server.ReturnLive | serverV3.py:386-399 | the captured image and name are dropped, the mode is live, the frame is cleared, stop, then the lifecycle |
| ServerV3.Server.Confirm | serverV3.py:366-384 | as return_live, answering "/video_feed?ts=" + the milliseconds |
| ServerV2.Server.constructor | serverV2.py:39-47 | start-up: no port, pump idle and live, nothing captured |
| ServerV2.Server.StopCaptureThread | serverV2.py:253-258 | the pump becomes `Stop` of the old pump; nothing else changes |
| ServerV2.Server.StartCaptureThread | serverV2.py:260-266 | the unguarded start: the pump becomes `StartUnguarded` of the old pump, abandoning a live thread |
| ServerV2.Server.SetCamera | serverV2.py:271-284 | the form value becomes the port, and the pump is stopped and unconditionally started, ending running and live |
| ServerV2.Server.Capture | serverV2.py:286-333 | 503 "Camera not available" iff the connect fails, capture state and frame kept; 500 iff the capture fails; otherwise "Captured" with the bytes and path kept and the frame per `FrameAfterCaptureV2`; in every case the pump is stopped then restarted, ending running and live |
| ServerV2.Server.RecordCapture | serverV2.py:305-321 | the success path keeps the bytes and the path, reaches the shared frame only through the thumbnail, and sets captured mode |
| ServerV2.Server.ReturnLive | serverV2.py:335-339 | only the mode changes, to live; the captured image and name are kept |
| ServerV2.CaptureResumesLive | serverV2.py:327-333 | the restart in the capture's `finally` leaves exactly one loop, live, so "captured" is never observable after a capture |

## Left out

- Threads and the lock: handlers and the preview loop are sequential transitions. A join's outcome is a boolean parameter. How the pump thread's steps interleave with the handlers is not modelled.
- libgphoto2: every call is an oracle value (`Link`, `Shot`, `Tick`, the probe answer, the refused writes). `cam.exit()`, `file_delete` and `get_summary` are best effort and have no modelled effect.
- Reading the saved file back (`open(...).read()`) gives the bytes gphoto2 saved. File-system errors other than the SOI check are not modelled.
- `mimetypes.guess_extension` is a parameter, because its table is not visible.
- OpenCV decode and re-encode in the V2, V3 and V5 preview loops is a foreign call. Those loops (`capture_loop` in serverV2.py, serverV3.py and serverV5.py) are not modelled; only the V8 loop is.
- `_check_preview_support` is the boolean `probe` of a `Tick`.
- The outer `except gp.GPhoto2Error` of the V8 loop ("Camera error, reconnecting") is not modelled. Every device call inside it that can raise is already caught by an inner handler, or is modelled as an outcome.
- ServerV8.Server.PumpIteration: uses one clock reading per pass where the source reads `time.monotonic()` separately before and after sleeping; time is in integer units.
- ServerV8.Server.PumpIteration: does not model `try_enable_liveview` and `try_autofocus` inside the loop. They act on the camera only.
- ServerV8.Server.CaptureLoop: states only what the loop preserves (a growing version, a JPEG-or-nothing frame, the untouched session), not the final state after the run of ticks.
- ServerV8.Server.Capture: the autofocus before the shot acts on the camera only and is not part of the method.
- ServerV8.Server.Capture and ServerV8.Server.CaptureFinally: clear the frame in live mode as the `finally` intends, not as serverV8.py:514 does; the as-written behaviour is Device.FrameAfterFinallyV8 (Findings row 2).
- Choices.TryAutofocus: reads the configuration once, where the source re-reads it before each of the three steps; the sleeps are returned as a settle time, not performed.
- Choices.FindChild: `get_child_by_name` is an exact-name lookup in a map, and a lookup error is the name being absent.
- Device.Connect: the JPEG and liveview nudges after `init` are modelled separately (`Choices.SelectImageJpeg`, `Choices.TryEnableLiveview`) and not composed into the connect; they catch their own errors and cannot fail it.
- Common.Lower: lowers ASCII letters only; Python's full Unicode case mapping is not modelled.
- Rate.ClampFps: the parse of `float(x)` is the `Option<real>` argument; NaN and infinities are not modelled.
- ServerV8.Server.constructor: SAVE_DIR is a parameter assumed absolute and normalised, so `os.path.abspath` of a saved path is the path itself. The same holds for ServerV5.Server.constructor.
- `datetime.now().strftime(...)` is the timestamp string parameter `ts`. `time.time() * 1000` is the natural-number parameter `nowMs`.
- HTTP plumbing is not modelled: Flask routing, CORS, `_nocache_headers`, `send_file`/`send_from_directory`, and the response bodies beyond status, URL and error text. The read-only routes `/`, `/api/health`, `/api/diag` and `/cameras` are left out too.
- `list_cameras` catching an autodetect error and answering an empty list is the empty `detected` list of a `Link`.
- `/video_feed` of serverV2.py only streams and changes no state. Its parts are `Stream.LegacyGenerateFrames`.
- Signal handlers, environment parsing beyond CAMERA_PORT, and the `__main__` bootstrap are not modelled. server.py is not part of this model.

## Findings

| source | as written | input that shows it | evidently intended | confidence | as-written member | corrected member |
|---|---|---|---|---|---|---|
| serverV2.py:292-317 | `capture` declares `global mode, captured_image, captured_filename, selected_port` without `latest_frame`, so `latest_frame = captured_image` binds a local name and the preview never shows a JPEG capture | a capture whose file is image/jpeg, starts FF D8, and has no camera-side preview: the shared frame stays as it was | the captured JPEG becomes the preview, as the comment above the assignment and serverV3.py, serverV5.py and serverV8.py do | high; not executed | Device.FrameAfterCaptureV2, Device.V2JpegCaptureMissesPreview | Device.FrameAfterCapture, Device.CapturedJpegReachesPreview |
| serverV8.py:475-514 | `capture` declares `global mode, captured_image, captured_filename, selected_port, last_error` without `latest_frame`, so the `finally`'s `latest_frame = None` binds a local name and the shared frame is never cleared | a capture that fails (500) while the mode is live: the last live frame stays in the slot | the frame is cleared when the handler ends in live mode, as in serverV3.py and serverV5.py, whose `global` statements list `latest_frame` | high; not executed | Device.FrameAfterFinallyV8, Device.V8FailedCaptureKeepsStaleFrame | Device.FrameAfterFinally, ServerV8.Server.CaptureFinally |
