/** The recording-session flags of `MainActivity`: `isRecording`, the
    `mediaRecorder` (null or present), the camera and its lock, the output
    file and the 5-minute stop timers. The camera, recorder and directory
    creation are abstract success/failure inputs (`Device`, `stopOk`). */
module Recording {
  import opened Common

  /** Delay of the automatic stop posted after a successful start (5 minutes). */
  const MAX_DURATION_MS: int := 300000
  /** Sub-directory of the public movies directory holding the recordings. */
  const MEDIA_DIR_NAME: string := "DashcamVideos"

  /** The `camera` field: null, or open and locked to the app, or unlocked
      for use by the media recorder. */
  datatype Camera = NoCamera | Locked | Unlocked

  /** The `mediaRecorder` field: null, created and configured but not
      started, or recording. */
  datatype Recorder = NoRecorder | Configured | Started

  /** The fields the recording lifecycle reads and writes. `pendingStops`
      holds the due times of the posted `stopRecording` callbacks, in the
      order they were posted; they are never cancelled. */
  datatype Session = Session(
    isRecording: bool,
    recorder: Recorder,
    camera: Camera,
    outputFile: Option<string>,
    pendingStops: seq<int>)

  /** What the platform answers during one `startRecording`: the public
      movies directory, whether `DashcamVideos` exists or `mkdirs()`
      succeeds, the formatted `yyyyMMdd_HHmmss` time stamp, and whether
      `prepare()` and `start()` succeed. */
  datatype Device = Device(
    moviesDir: string,
    dirExists: bool,
    mkdirsOk: bool,
    timeStamp: string,
    prepareOk: bool,
    startOk: bool)

  /** Before anything happened: no camera, no recorder, nothing recording. */
  const Idle: Session := Session(false, NoRecorder, NoCamera, None, [])

  /** The name given to a new recording. */
  function MediaFileName(timeStamp: string): (name: string)
    ensures StartsWith(name, "VID_") && EndsWith(name, ".mp4")
    ensures |name| == |timeStamp| + 8
  {
    "VID_" + timeStamp + ".mp4"
  }

  /** Reads the time stamp back out of a recording's file name. */
  function TimeStampOf(name: string): Option<string>
  {
    if |name| >= 8 && StartsWith(name, "VID_") && EndsWith(name, ".mp4")
    then Some(name[4..|name| - 4])
    else None
  }

  /** The file name determines the time stamp it was made from. */
  lemma TimeStampRoundTrip(timeStamp: string)
    ensures TimeStampOf(MediaFileName(timeStamp)) == Some(timeStamp)
  {
    var name := MediaFileName(timeStamp);
    assert name[4..|name| - 4] == timeStamp;
  }

  /** Recordings made at different time stamps get different names. */
  lemma MediaFileNameInjective(t1: string, t2: string)
    requires t1 != t2
    ensures MediaFileName(t1) != MediaFileName(t2)
  {
    TimeStampRoundTrip(t1);
    TimeStampRoundTrip(t2);
  }

  /** The recordings directory under the public movies directory. */
  function MediaDir(moviesDir: string): string
  {
    moviesDir + "/" + MEDIA_DIR_NAME
  }

  /** `getOutputMediaFile`: null when the directory is missing and cannot be
      created, otherwise `VID_<timeStamp>.mp4` inside `DashcamVideos`. */
  function OutputMediaFile(d: Device): (f: Option<string>)
    ensures f.None? <==> !d.dirExists && !d.mkdirsOk
    ensures f.Some? && '/' !in d.timeStamp ==>
      BaseName(f.value) == MediaFileName(d.timeStamp) &&
      TimeStampOf(BaseName(f.value)) == Some(d.timeStamp) &&
      StartsWith(f.value, MediaDir(d.moviesDir) + "/")
  {
    if !d.dirExists && !d.mkdirsOk then None
    else
      var path := MediaDir(d.moviesDir) + "/" + MediaFileName(d.timeStamp);
      if '/' !in d.timeStamp then
        assert '/' !in MediaFileName(d.timeStamp);
        BaseNameOfChild(MediaDir(d.moviesDir), MediaFileName(d.timeStamp));
        TimeStampRoundTrip(d.timeStamp);
        assert path[..|MediaDir(d.moviesDir) + "/"|] == MediaDir(d.moviesDir) + "/";
        Some(path)
      else Some(path)
  }

  /** The session invariant every reachable state keeps. */
  predicate Consistent(s: Session)
  {
    (s.recorder == Started ==> s.isRecording) &&
    (s.isRecording ==> s.recorder != Configured && s.outputFile.Some? && s.camera == Unlocked) &&
    (s.recorder != NoRecorder ==> s.camera == Unlocked)
  }

  /** `releaseMediaRecorder`: drop a present recorder and lock the camera again. */
  function Release(s: Session): (r: Session)
    ensures r.recorder == NoRecorder
    ensures s.recorder == NoRecorder ==> r == s
    ensures s.recorder != NoRecorder && s.camera != NoCamera ==> r.camera == Locked
    ensures r.isRecording == s.isRecording && r.outputFile == s.outputFile && r.pendingStops == s.pendingStops
    ensures r.camera == NoCamera <==> s.camera == NoCamera
  {
    if s.recorder == NoRecorder then s
    else s.(recorder := NoRecorder, camera := if s.camera == NoCamera then NoCamera else Locked)
  }

  /** `startRecording` at time `now`. Opens the camera if needed, unlocks it
      and configures a new recorder; sets `isRecording` only once both
      `prepare()` and `start()` succeed, and then posts a stop 5 minutes
      later. A missing output file returns early, leaving the configured
      recorder and the unlocked camera behind; a failed prepare or start
      releases the recorder and relocks the camera. */
  function Start(s: Session, now: int, d: Device): (r: Session)
    requires !s.isRecording
    ensures r.isRecording <==> OutputMediaFile(d).Some? && d.prepareOk && d.startOk
    ensures r.outputFile == OutputMediaFile(d)
    ensures OutputMediaFile(d).None? ==> r.recorder == Configured && r.camera == Unlocked
    ensures OutputMediaFile(d).Some? && !(d.prepareOk && d.startOk) ==> r.recorder == NoRecorder && r.camera == Locked
    ensures r.isRecording ==> r.recorder == Started && r.pendingStops == s.pendingStops + [now + MAX_DURATION_MS]
    ensures !r.isRecording ==> r.pendingStops == s.pendingStops
    ensures Consistent(s) ==> Consistent(r)
  {
    var out := OutputMediaFile(d);
    var configured := s.(camera := Unlocked, recorder := Configured, outputFile := out);
    if out.None? then configured
    else if d.prepareOk && d.startOk then
      configured.(recorder := Started, isRecording := true,
                  pendingStops := s.pendingStops + [now + MAX_DURATION_MS])
    else Release(configured)
  }

  /** The guard of `stopRecording`: recording, and a recorder to stop. */
  predicate CanStop(s: Session)
  {
    s.isRecording && s.recorder != NoRecorder
  }

  /** `stopRecording`, where `stopOk` says whether `mediaRecorder.stop()`
      returns normally. Outside the guard nothing changes. Either way the
      recorder is reset, released and nulled; only a normal stop clears
      `isRecording`. The camera is not relocked. */
  function Stop(s: Session, stopOk: bool): (r: Session)
    ensures !CanStop(s) ==> r == s
    ensures CanStop(s) ==> r.recorder == NoRecorder && r.isRecording == !stopOk
    ensures r.camera == s.camera && r.outputFile == s.outputFile && r.pendingStops == s.pendingStops
    ensures !CanStop(r)
    ensures Consistent(s) ==> Consistent(r)
  {
    if CanStop(s) then s.(recorder := NoRecorder, isRecording := !stopOk) else s
  }

  /** The file a stop hands to the media scanner, whose callback uploads it:
      present exactly when the stop succeeded. */
  function StopArtifact(s: Session, stopOk: bool): (f: Option<string>)
    ensures f.Some? ==> CanStop(s) && stopOk
    ensures CanStop(s) && stopOk && Consistent(s) ==> f.Some? && f == s.outputFile
  {
    if CanStop(s) && stopOk then s.outputFile else None
  }

  /** The record button: stop while `isRecording`, start otherwise. */
  function Button(s: Session, now: int, d: Device, stopOk: bool): (r: Session)
    ensures s.isRecording ==> !CanStop(r) && r.pendingStops == s.pendingStops && r.outputFile == s.outputFile
    ensures s.isRecording && CanStop(s) ==> r.isRecording == !stopOk
    ensures !s.isRecording ==> (r.isRecording <==> OutputMediaFile(d).Some? && d.prepareOk && d.startOk)
    ensures Consistent(s) ==> Consistent(r)
  {
    if s.isRecording then Stop(s, stopOk) else Start(s, now, d)
  }

  /** The first-posted stop callback still pending runs: it is removed and
      calls the guarded `stopRecording`. Callbacks run in posting order,
      which is due-time order whenever start times never decrease. */
  function Timer(s: Session, stopOk: bool): (r: Session)
    requires s.pendingStops != []
    ensures r.pendingStops == s.pendingStops[1..]
    ensures !CanStop(s) ==> r == s.(pendingStops := s.pendingStops[1..])
    ensures CanStop(s) ==> r.recorder == NoRecorder && r.isRecording == !stopOk
    ensures !CanStop(r) && (Consistent(s) ==> Consistent(r))
  {
    Stop(s.(pendingStops := s.pendingStops[1..]), stopOk)
  }

  /** Stopping twice is stopping once: the second call, from the button or
      the timer, finds the guard false and changes nothing. */
  lemma StopIdempotent(s: Session, first: bool, second: bool)
    ensures Stop(Stop(s, first), second) == Stop(s, first)
    ensures StopArtifact(Stop(s, first), second) == None
  {
  }

  /** A stop whose `stop()` throws wedges the session: `isRecording` stays
      set with no recorder, so the button and every later timer change
      nothing but the timer queue, and no stop produces a recording. */
  lemma FailedStopWedges(s: Session, now: int, d: Device, ok1: bool, ok2: bool)
    requires CanStop(s)
    ensures var w := Stop(s, false);
      w.isRecording && w.recorder == NoRecorder &&
      Button(w, now, d, ok1) == w &&
      (w.pendingStops != [] ==> Timer(w, ok2) == w.(pendingStops := w.pendingStops[1..])) &&
      StopArtifact(w, ok1) == None
  {
  }

  /** Start from idle, stop with the button, start again before the first
      timer is due: that first, never-cancelled timer stops the second
      session well before its own 5 minutes are up. */
  lemma StaleTimerCutsSessionShort(d: Device)
    requires d.dirExists && d.prepareOk && d.startOk
    ensures var s1 := Button(Idle, 1000, d, true);
      var s2 := Button(s1, 2000, d, true);
      var s3 := Button(s2, 3000, d, true);
      s1.isRecording && !s2.isRecording && s3.isRecording &&
      s3.pendingStops == [1000 + MAX_DURATION_MS, 3000 + MAX_DURATION_MS] &&
      s3.pendingStops[0] < 3000 + MAX_DURATION_MS &&
      !Timer(s3, true).isRecording
  {
  }
}
