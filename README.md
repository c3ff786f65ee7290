# Dashcam app and collector: a Dafny model of the core

The dashcam app (`MainActivity.java`) watches the linear-acceleration
sensor. When the deviation between two samples taken at least 750 ms apart
exceeds 3.0, it starts a video recording that stops by itself after
5 minutes. A finished recording is handed to the media scanner and then
uploaded over HTTP. The collector (`server.js`) stores each upload under a
time-stamped name and serves a gallery page of the `.mp4` files it holds.

This project models both parts and proves their properties.

- `common.dfy`, module `Common`: `Option` (Java's `null`), `StartsWith`, `EndsWith` and `BaseName` (`File.getName`).
- `motion.dfy`, module `MotionGate`: the motion trigger gate of `onSensorChanged` as a value-level state machine.
  Its state is `lastCheckTime` (0 = no baseline) and the three baseline slots.
  It has lemmas for one sample and, by induction, for whole sample streams.
  These show that evaluations are at least 750 ms apart, that `lastCheckTime` never moves back, and that a burst is ignored.
- `recording.dfy`, module `Recording`: the recording-session fields as a value.
  These are `isRecording`, the recorder (null / configured / recording), the camera (null / locked / unlocked), `outputFile` and the posted 5-minute stop callbacks.
  The module defines `startRecording`, `stopRecording`, `releaseMediaRecorder`, the record button, the stop timer and `getOutputMediaFile` as functions over that value.
  Camera, recorder and directory creation are success/failure inputs (`Device`, `stopOk`).
- `upload.dfy`, module `Upload`: the existence guard of `uploadVideo`, the request it builds, and how it reports the HTTP outcome. The outcome is an input.
- `dashcam.dfy`, module `Dashcam`: the whole activity (gate plus session) driven by sensor samples, button presses and stop timers.
  It proves that the session invariant holds after any event sequence.
  It also proves that a stop whose `stop()` throws wedges the app for good.
- `activity.dfy`, module `Activity`: class `MainActivity` with the Java fields, including the 3-slot `lastAccelValues` array written in place.
  Each of its methods is proved to produce exactly the state the `Recording`/`Dashcam` functions compute.
- `server.dfy`, module `Server`: multer's stored name `Date.now() + '-' + originalname` and its inverse, and the `POST /upload` response.
  It also covers the `.mp4` filter and the gallery page. The page is built by a loop that appends one card per file, as the handler does.
- `pipeline.dfy`, module `Pipeline`: a recording the app saves and uploads is kept by the server's gallery filter.

Time is an explicit integer (milliseconds). Sensor values are reals. The
deviation test compares `dx² + dy² + dz²` with `3.0 * 3.0` instead of
taking a square root; `MotionGate.DeviationTest` proves the two tests agree.

Behaviour reproduced as written, not corrected:
- A null output file makes `startRecording` return with a configured recorder and an unlocked camera left behind.
- A successful stop does not relock the camera.
- A stop whose `stop()` throws releases the recorder but leaves `isRecording` set. After that the button, the timer and motion can never start or stop a recording again (`Dashcam.WedgedForever`).
- The 5-minute callback is never cancelled, so a stale callback can end a later session early (`Recording.StaleTimerCutsSessionShort`).
- The gate's baseline after a burst is the first sample at or after the interval boundary. It is not the last sample of the window, and the code is followed here.

## Model

| member | source | states |
|---|---|---|
| `MotionGate.DeviationTest` | app/src/main/java/com/example/dashcamapp/MainActivity.java:327-334 | for the non-negative square root of dx²+dy²+dz², "deviation > 3.0" holds exactly when the squared sum exceeds 9 |
| `MotionGate.FirstSampleIsBaseline` | app/src/main/java/com/example/dashcamapp/MainActivity.java:318-324 | with no baseline, a sample becomes the baseline with its time, and it never triggers |
| `MotionGate.EarlySampleIgnored` | app/src/main/java/com/example/dashcamapp/MainActivity.java:326 | a sample less than 750 ms after `lastCheckTime` leaves the gate unchanged and never triggers |
| `MotionGate.DueSampleSlides` | app/src/main/java/com/example/dashcamapp/MainActivity.java:326-342 | at an interval boundary the baseline and time are always replaced; a trigger happens exactly when the deviation is significant and nothing is recording |
| `MotionGate.EvaluationsSpaced` | app/src/main/java/com/example/dashcamapp/MainActivity.java:326-342 | over any stream with positive times, evaluations are at least 750 ms apart, and the first comes at least 750 ms after the baseline in force |
| `MotionGate.CheckTimeMonotone` | app/src/main/java/com/example/dashcamapp/MainActivity.java:318-342 | once a baseline exists, no stream of samples moves `lastCheckTime` back or removes the baseline |
| `MotionGate.BurstIgnored` | app/src/main/java/com/example/dashcamapp/MainActivity.java:326-343 | samples all arriving within 750 ms of the baseline leave the gate exactly as it was and cause no evaluation |
| `Recording.MediaFileName` | app/src/main/java/com/example/dashcamapp/MainActivity.java:241-242 | a recording's name starts with `VID_`, ends with `.mp4`, and is 8 characters longer than the time stamp |
| `Recording.TimeStampRoundTrip` | app/src/main/java/com/example/dashcamapp/MainActivity.java:242 | the time stamp can be read back from the file name |
| `Recording.MediaFileNameInjective` | app/src/main/java/com/example/dashcamapp/MainActivity.java:242 | distinct time stamps give distinct file names |
| `Recording.OutputMediaFile` | app/src/main/java/com/example/dashcamapp/MainActivity.java:231-244 | null exactly when the directory is missing and `mkdirs()` fails; otherwise the file lies in `<movies>/DashcamVideos/` and its name is `VID_<timeStamp>.mp4` |
| `Recording.Release` | app/src/main/java/com/example/dashcamapp/MainActivity.java:246-259 | the recorder ends up null; a present recorder is dropped and the open camera relocked; a null camera stays null; nothing else changes |
| `Recording.Start` | app/src/main/java/com/example/dashcamapp/MainActivity.java:159-200 | `isRecording` becomes true exactly when the output file exists and prepare and start both succeed, and only then is a stop posted at now + 300000; a null file leaves the recorder configured and the camera unlocked; a failure after that releases the recorder and relocks the camera; the session invariant is kept |
| `Recording.Stop` | app/src/main/java/com/example/dashcamapp/MainActivity.java:202-229 | outside the guard nothing changes; inside it the recorder is always nulled, and `isRecording` is cleared only when `stop()` succeeds; afterwards the guard is false; camera, file and timers are untouched; the invariant is kept |
| `Recording.StopArtifact` | app/src/main/java/com/example/dashcamapp/MainActivity.java:202-218 | a file goes to the scanner only from a successful guarded stop, and then it is the output file |
| `Recording.Button` | app/src/main/java/com/example/dashcamapp/MainActivity.java:87-93 | a press while recording only stops (never starts, posts no timer); a press while idle starts, and recording begins exactly when start succeeds; the invariant is kept |
| `Recording.Timer` | app/src/main/java/com/example/dashcamapp/MainActivity.java:194 | the first-posted pending callback is consumed and runs the guarded stop: nothing else changes when the guard is false |
| `Recording.StopIdempotent` | app/src/main/java/com/example/dashcamapp/MainActivity.java:203-209 | a second stop (button or timer) changes nothing and hands no file to the scanner |
| `Recording.FailedStopWedges` | app/src/main/java/com/example/dashcamapp/MainActivity.java:222-227 | after a throwing `stop()`, `isRecording` stays set with a null recorder; the button is then a no-op, a timer only pops itself, and no file is produced |
| `Recording.StaleTimerCutsSessionShort` | app/src/main/java/com/example/dashcamapp/MainActivity.java:194 | start at 1000, stop by button, start at 3000: the first session's callback (due 301000) stops the second session before its own 303000 |
| `Upload.UploadVideo` | app/src/main/java/com/example/dashcamapp/MainActivity.java:352-400 | no request is built exactly when the file is missing (reported as not found); otherwise the request goes to the upload URL in field `video` named by the file's last path segment, with media type `video/mp4`; success exactly for a 2xx response, rejection carrying the response's code and body for other codes, an I/O error carrying the exception's message for transport failures |
| `Upload.MissingFileIgnoresTransport` | app/src/main/java/com/example/dashcamapp/MainActivity.java:353-359 | for a missing file the outcome does not depend on the network at all |
| `Dashcam.OnSensor` | app/src/main/java/com/example/dashcamapp/MainActivity.java:311-345 | other sensors change nothing; the gate observes the sample; the session changes only through a trigger, and then by a start; while recording the session is never touched; the invariant is kept |
| `Dashcam.FirstSampleOnlyRecordsBaseline` | app/src/main/java/com/example/dashcamapp/MainActivity.java:318-324 | the first sample stores x/y/z and the time and leaves the session as it was |
| `Dashcam.EarlySampleChangesNothing` | app/src/main/java/com/example/dashcamapp/MainActivity.java:326 | a sample before the interval has elapsed leaves baseline, `lastCheckTime` and recording state unchanged |
| `Dashcam.DueSampleSlidesWindow` | app/src/main/java/com/example/dashcamapp/MainActivity.java:326-342 | once the interval has elapsed the baseline slides to the sample, and a recording starts exactly when the deviation exceeds 3.0 while not recording |
| `Dashcam.ConsistentAlways` | app/src/main/java/com/example/dashcamapp/MainActivity.java:159-229 | after any sequence of samples, presses and timers: a recording recorder implies `isRecording`, and while recording the camera is unlocked and an output file exists |
| `Dashcam.WedgedForever` | app/src/main/java/com/example/dashcamapp/MainActivity.java:202-229 | once `isRecording` is set with a null recorder, no sequence of events ever clears it or creates a recorder |
| `Activity.MainActivity.constructor` | app/src/main/java/com/example/dashcamapp/MainActivity.java:48-60 | fields start as Java initialises them: not recording, nulls, `lastCheckTime` 0, zero baseline |
| `Activity.MainActivity.ReleaseMediaRecorder` | app/src/main/java/com/example/dashcamapp/MainActivity.java:246-259 | the fields afterwards are `Recording.Release` of the fields before |
| `Activity.MainActivity.StartRecording` | app/src/main/java/com/example/dashcamapp/MainActivity.java:159-200 | the fields afterwards are `Recording.Start` of the fields before; gate fields untouched |
| `Activity.MainActivity.StopRecording` | app/src/main/java/com/example/dashcamapp/MainActivity.java:202-229 | the fields afterwards are `Recording.Stop` of the fields before, and the scanned file is `Recording.StopArtifact` |
| `Activity.MainActivity.OnRecordButton` | app/src/main/java/com/example/dashcamapp/MainActivity.java:87-93 | the fields afterwards are `Recording.Button` of the fields before |
| `Activity.MainActivity.OnStopTimer` | app/src/main/java/com/example/dashcamapp/MainActivity.java:194 | the fields afterwards are `Recording.Timer` of the fields before |
| `Activity.MainActivity.OnSensorChanged` | app/src/main/java/com/example/dashcamapp/MainActivity.java:311-345 | writing the array slot by slot, the fields afterwards are `Dashcam.OnSensor` of the fields before |
| `Server.DecimalRoundTrip` | server.js:19 | the decimal digits of `Date.now()` denote that number again |
| `Server.StoredFileName` | server.js:18-20 | the stored name starts with the time's digits and `-`, and ends with the client's file name |
| `Server.StoredNameRoundTrip` | server.js:19 | splitting a stored name at its first `-` gives back the time and the original name, whatever the name contains |
| `Server.HandleUpload` | server.js:26-31 | status 400 with `No file uploaded.` exactly when no file came; otherwise 200 with a body that is exactly the success prefix followed by the stored name, which splits back into the time and the original name |
| `Server.VideoFiles` | server.js:39 | a name is kept exactly when it is in the listing and ends with `.mp4`; never longer than the listing |
| `Server.VideoFilesAppend` | server.js:39 | the filter keeps listing order: filtering a concatenation concatenates the filtered parts |
| `Server.VideoFilesIdempotent` | server.js:39 | filtering twice equals filtering once |
| `Server.CardsInOrder` | server.js:112-120 | each file yields exactly one card, between the cards of the files before and after it |
| `Server.GalleryInOrder` | server.js:109-122 | for a non-empty list the page is the head, then the cards of the files before a file, that file's card, the cards of the files after it, then the closing tags |
| `Server.GalleryPage` | server.js:40-122 | the page always opens with the fixed head and closes with `</div></div></body></html>`; with no videos it is head, `No videos uploaded yet.` paragraph, closing tags |
| `Server.RenderGallery` | server.js:109-122 | the loop that appends one card per file builds exactly `Server.GalleryPage` |
| `Server.ListVideos` | server.js:33-124 | a directory read error answers 500 `Unable to list videos`; otherwise 200 with the gallery of the `.mp4` entries in listing order |
| `Pipeline.UploadedRecordingIsListed` | app/src/main/java/com/example/dashcamapp/MainActivity.java:366-370 | a recording `VID_<ts>.mp4` is posted in field `video` under that name; its stored name splits back into the time and that name, and is kept by the gallery filter wherever it appears in the listing |

## Left out

- Camera preview and surface callbacks (`onResume`, `onPause`, `surfaceCreated`, `surfaceChanged`, `surfaceDestroyed`, `releaseCamera`): Android lifecycle glue. The invariant "camera unlocked while recording" assumes none of them runs during a recording.
- Permission checks and prompts: platform UI.
- Toasts, log lines and button text: presentation only.
- The upload thread and the OkHttp call: network I/O and concurrency. The HTTP outcome is an input to `Upload.UploadVideo`, and the request is reduced to URL, field, file name and media type.
- The media-scanner callback that chains the stop to the upload: an asynchronous platform callback. `StopRecording` returns the file it hands to the scanner. The callback reads the `outputFile` field when it runs, which is not modelled.
- `Handler.postDelayed`: the posted stops are a queue of due times in posting order, and `OnStopTimer` runs the first-posted one still pending. That is the earliest due only when start times never decrease, which event sequences are not required to respect. Real time passing is not modelled.
- Float arithmetic: sensor values are reals, so float rounding in the subtraction and in `Math.sqrt` is not modelled.
- `long` overflow of `currentTime - lastCheckTime`: times are unbounded integers.
- `SimpleDateFormat` and `Date.now()`: the time stamp is an input string and the upload time an input natural number. JavaScript's exponent notation for numbers of 10^21 and above is not modelled.
- `Recording.Start`: `Camera.open()` and the recorder setters throwing is not modelled. A failing `start()` is treated like the `IOException` the code catches; Android actually throws an unchecked exception there, and that exception would escape `startRecording`.
- `Recording.Release`: an exception inside `releaseMediaRecorder`, which the code catches and logs, is not modelled.
- The `videoFile` field: `getOutputMediaFile` writes it and nothing reads it.
- Express, multer and fs setup, static serving and `app.listen`: framework wiring. multer refusing a part in a field other than `video` is not modelled.
- The gallery's CSS text is a parameter (`style`) of `Server.PageHead`. File names are spliced into the HTML without escaping, as in the handler.
