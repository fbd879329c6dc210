# Face-distance alert: a verified model

The system streams webcam frames, finds a face in each frame, estimates how far away
the face is with a pinhole-camera formula, and speaks an "intruder" alert when the
estimate falls inside an alert window. This project models the logic that decides
what is computed and when an alert fires. It leaves out the I/O around that logic.

- `Estimator` (`estimator.dfy`): the calibration `focal_length` and the per-frame
  `distance_finder`, over exact reals, with the constants 76.2 cm, 14.3 cm and the
  100 px reference width that both servers assume.
- `FaceSelection` (`face_selection.dfy`): the `face_data` loop over the detector's
  rectangles. The detector output is an abstract sequence. The loop keeps the fourth
  component of the last rectangle, or 0 when there is none. `Scan` is the loop as a
  fold, and `FaceData` is the loop itself.
- `AlertGate` (`alert_gate.dfy`): one pass of the `generate_frames` loop as a pure
  function (`EvaluateFrame`). `Run` folds a stream of camera reads through it. The
  lemmas cover the cooldown over whole streams.
- `Settings` (`settings.dfy`): the `set_distance` decision. A parse failure in
  either field gives the "Invalid distance value" message. An inverted or empty
  window gives the "Minimum distance must be less than maximum distance." message.
  Anything else is accepted.
- `Server` (`server.dfy`): the module globals `last_speech_time`,
  `alert_distance_min` and `alert_distance_max` become fields of one `AlertServer`
  object, plus a ghost log of the alerts sent to the speech engine. The frame loop
  `GenerateFrames` is proved to append to that log exactly the alerts its stream
  speaks (`SpokenAlerts`). `Valid()` keeps
  four facts: `min < max` from the start-up window (50, 70) onward, the last-alert
  time is the time of the newest logged alert, every alert was inside its window,
  and any two alerts are more than 5 s apart.
- `Standalone` (`standalone.dfy`): `distance.py`. Calibration there comes from the
  face measured in a reference picture. Speech fires on every frame whose estimate
  lies in 90..100 cm, with no cooldown.

`flask_server.py` and `flask_server2.py` hold the same `focal_length`,
`distance_finder`, `face_data`, frame gate and `set_distance`
(flask_server2.py:27-48, 61-85, 99-124), apart from the page rendering. One
definition here covers both files. The table cites whichever file holds the lines
each member models. The `face_data`
of `distance.py` (distance.py:65-79) is the same loop.

Notes on the code:
- The source unpacks each rectangle as `(x, y, h, w)` and keeps the fourth
  component. The model follows that order: `Detection.w` is the fourth component.
  The detector's own order for the fourth component is not part of this model.
- The code checks only `min < max` on a submitted window. It does not require the
  bounds to be positive, so the model accepts any integers with `min < max`.
- The cooldown test is strict (`now - last > 5`). So an alert is never followed by
  a second one at exactly 5 s. Before any alert the last-alert time is 0.
- Calibration needs only a non-zero real width, and the estimate needs only a
  non-zero pixel width. The round trip needs both widths non-zero, not positive.

Inputs the model takes as parameters: the clock reading of each frame (`now`, a
`real`), the detector's rectangles, and the result of parsing each form field as an
integer (`Option<int>`, `None` when the text is not an integer).

## Model

| member | source | states |
|---|---|---|
| `Estimator.FocalLength` | flask_server.py:23-26 | the focal length times the real width equals the reference pixel width times the measured distance; defined whenever the real width is non-zero |
| `Estimator.DistanceFinder` | flask_server.py:28-31 | the estimate times the pixel width equals the real width times the focal length; the caller guarantees a non-zero pixel width |
| `Estimator.CalibrationRoundTrip` | flask_server2.py:27-35 | estimating with the calibration pixel width gives back exactly the calibration distance |
| `Estimator.InverseProportional` | distance.py:51-61 | the estimate times the pixel width is the same for every pixel width |
| `Estimator.HalfWidthDoublesDistance` | flask_server.py:29 | half the pixel width gives exactly twice the distance |
| `Estimator.WiderFaceIsNearer` | distance.py:60 | with a positive focal length, a wider face is estimated strictly nearer |
| `Estimator.ServerFocal` | flask_server.py:52 | the servers' focal length from 76.2 cm, 14.3 cm and 100 px is 76200/143 |
| `Estimator.ServerEstimate` | flask_server.py:62 | with the servers' calibration the estimate is 7620 / width, so 100 px is 76.2 cm and 50 px is 152.4 cm |
| `FaceSelection.Scan` | flask_server.py:39-41 | overwriting the width once per rectangle leaves the start value or the width of one of the rectangles |
| `FaceSelection.ScanEndsOnLast` | flask_server.py:39-41 | overwriting the width once per rectangle ends on the last rectangle's fourth component, or on the start value for no rectangle |
| `FaceSelection.FaceWidth` | flask_server.py:33-44 | the reported width is the last rectangle's fourth component, or 0 when nothing was detected |
| `FaceSelection.AppendedDetectionWins` | distance.py:74-77 | a rectangle appended to any list decides the reported width |
| `FaceSelection.FaceData` | flask_server2.py:37-48 | the loop returns 0 for no rectangle, otherwise the last rectangle's fourth component |
| `AlertGate.EvaluateFrame` | flask_server.py:60-67 | a zero width measures nothing and never alerts; otherwise the distance satisfies the pinhole relation, and the frame alerts iff min <= distance <= max (inclusive) and strictly more than 5 s passed since the last alert |
| `AlertGate.NextLast` | flask_server.py:64-67 | the last-alert time becomes the frame's time on an alert and changes on nothing else |
| `AlertGate.CooldownBlocksAlert` | flask_server.py:64-67 | within 5 s of the last alert no frame alerts and the last-alert time stays put |
| `AlertGate.Run` | flask_server.py:54-67 | a stream of captured frames gives one result per frame |
| `AlertGate.RunAppend` | flask_server.py:54-67 | one more captured frame is judged against the last-alert time the earlier frames left, and its result is appended |
| `AlertGate.RunPrefix` | flask_server.py:54-67 | the results for a prefix of the frames are the prefix of the results: later frames do not change earlier ones |
| `AlertGate.RunStep` | flask_server2.py:70-77 | frame k is judged against the last-alert time left by frames 0..k-1 |
| `AlertGate.QuietRunKeepsLast` | flask_server.py:67 | a stream in which nothing fires leaves the last-alert time where it started |
| `AlertGate.FirstEligibleFrameFires` | flask_server.py:61-67 | the first frame with a face in the window more than 5 s after the starting last-alert time, with no alert before it, does fire |
| `AlertGate.RunLastDominates` | flask_server2.py:73-77 | every alert of a stream comes more than 5 s after the starting last-alert time, and the final last-alert time is at least every alert's time |
| `AlertGate.AlertsSpaced` | flask_server2.py:74-77 | any two alerts in one stream are more than 5 s apart |
| `AlertGate.CooldownSilencesRun` | flask_server.py:19 | after an alert at t, a stream of frames all within 5 s of t speaks nothing and leaves the last-alert time at t |
| `AlertGate.DefaultWindowWidths` | flask_server.py:20-21 | with the default window 50..70 cm and the servers' calibration, exactly the face widths 109..152 px are in the window |
| `Settings.CheckSetting` | flask_server.py:96-111 | a parse failure in either field means "invalid value"; both parsed with min >= max means "minimum must be less than maximum"; otherwise the window is accepted exactly as given, with min < max |
| `Settings.Message.Text` | flask_server.py:100-111 | each outcome has its own message, told apart by its first letter (I, M, U) |
| `Settings.IntText` | flask_server.py:107 | a non-negative bound renders as decimal digits with no leading zero unless it is 0; a negative one as a minus sign before the digits of its magnitude |
| `Settings.IntTextReadsBack` | flask_server.py:107 | the digits rendered for a non-negative bound read back as that bound |
| `Settings.CheckSettingExamples` | flask_server2.py:106-121 | (80, 50) and (60, 60) are refused as inverted; a non-integer in either field is invalid; (40, 90) is accepted |
| `Server.AlertServer.constructor` | flask_server.py:18-21 | start-up state: window 50..70, last-alert time 0, no alert spoken |
| `Server.AlertServer.ProcessFrame` | flask_server2.py:70-77 | the frame's result is the gate's; on an alert the last-alert time becomes now and one alert, inside the window, is logged; otherwise nothing changes; the window never changes; the invariant holds |
| `Server.AlertServer.SetDistance` | flask_server2.py:104-121 | the message is the validation decision; accepted bounds are stored exactly; refused or unparsable input leaves both bounds unchanged, including when only the second field fails; min < max is preserved |
| `Server.SpokenAlerts` | flask_server.py:64-67 | the alerts a stream speaks are at most one per frame, all under the stream's window |
| `Server.SpokenAlertsAppend` | flask_server2.py:74-77 | one more frame adds its alert, if it fired, at the end of the spoken alerts |
| `Server.AlertServer.ProcessRead` | flask_server.py:60-67 | one successful read: the gate's result on the selected face width, and the streamed state (results, last-alert time, log) extended by this frame |
| `Server.AlertServer.GenerateFrames` | flask_server.py:51-75 | calibrates once from 100 px, processes captured frames in order, stops at the first failed read; its results and new last-alert time are those of `Run` on the frames before that read, and the log grows by exactly the alerts of that stream, in order |
| `Standalone.ReferenceFocal` | distance.py:96-99 | the focal length times 14.3 cm equals the reference picture's face width times 76.2 cm, whatever width the reference detection gives |
| `Standalone.StandaloneFrame` | distance.py:108-125 | a zero width measures nothing; otherwise the distance satisfies the pinhole relation, and speech fires iff 90 <= distance <= 100 |
| `Standalone.StandaloneIsGateWithoutCooldown` | distance.py:124-125 | the script's trigger is the servers' gate with window 90..100 once any cooldown has passed |
| `Standalone.StandaloneRun` | distance.py:104-125 | each frame's result depends on that frame alone |
| `Standalone.HeldFaceSpeaksEveryFrame` | distance.py:123-125 | a face that stays in the band speaks on every frame |
| `Standalone.ReferenceWidthRoundTrip` | distance.py:96-99 | a face as wide as in the reference picture is estimated at exactly 76.2 cm, outside the band |
| `Standalone.NoReferenceFaceNeverSpeaks` | distance.py:93-99 | with no face in the reference picture the focal length is 0, every estimate is 0 and nothing is spoken |

## Left out

- Camera capture (opening the device, reading frames, releasing it): I/O. Camera reads are a supplied sequence of `Read` values.
- `GenerateFrames` stops at the end of its input sequence. The source loop runs forever while reads succeed.
- Face detection (grey-scale conversion, the Haar-cascade classifier) and drawing rectangles and text on frames: foreign library calls. Only the choice of one width from the detector's rectangles is modelled.
- JPEG encoding and the multipart framing of the video stream: I/O.
- Text-to-speech and the worker thread that runs it: foreign calls and concurrency. An alert is an entry appended to a ghost log. The alert's text ("Intruder at N cm..") is not modelled.
- Web routing and page rendering: plumbing. `Message.Text` gives the three message texts; the page is not modelled.
- Parsing a form field with `int()`: each field's parse result is an input. A missing form field raises an error the source does not catch; it is not modelled.
- The race between the settings form and a running frame loop: there is no concurrency here. `SetDistance` and `ProcessFrame` can run in any order on the same `AlertServer`. `GenerateFrames` and `Run` hold the window fixed for one stream.
- `set_camera_ip` (flask_server2.py:126-146): it only replaces a string and reopens the camera.
- `app.py` is not part of this model: it only reads a camera index and shows frames.
- The script loop of `distance.py` outside its per-frame decision: showing frames, waiting for a key, and a failed read, which the script does not check.
- The commented-out Socket.IO variant (flask_server.py:121-277): dead code.
- Floating point: distances are exact reals. So `round(D, 2)`, IEEE rounding of 76.2 and 14.3, and clock precision are not modelled, and the round trips hold exactly.
- Settings.Message.Text: the full "Updated" message is not read back as a whole; only each rendered bound is proved to read back (`IntTextReadsBack`, for non-negative bounds).
- Estimator.DistanceFinder: a zero pixel width is excluded by its precondition rather than modelled as a division error, because every caller checks the width first.
