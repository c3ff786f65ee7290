/** The activity as a whole: the motion gate and the recording session side
    by side, and the three things that drive them — sensor samples, presses
    of the record button and the posted 5-minute stop callbacks. */
module Dashcam {
  import opened MotionGate
  import opened Recording

  /** The fields of `MainActivity` the core reads and writes. */
  datatype App = App(motion: Motion, session: Session)

  /** The activity when it is created. */
  const Launched: App := App(MotionGate.Initial, Idle)

  /** `onSensorChanged`: samples from other sensors are ignored; otherwise the
      gate observes the sample, and a trigger starts a recording. */
  function OnSensor(st: App, isLinear: bool, r: Reading, d: Device): (st': App)
    ensures !isLinear ==> st' == st
    ensures isLinear ==> st'.motion == Observe(st.motion, r)
    ensures st'.session != st.session ==>
      isLinear && Triggers(st.motion, r, st.session.isRecording) && st'.session == Start(st.session, r.time, d)
    ensures isLinear && Triggers(st.motion, r, st.session.isRecording) ==> st'.session == Start(st.session, r.time, d)
    ensures st.session.isRecording ==> st'.session == st.session
    ensures Consistent(st.session) ==> Consistent(st'.session)
  {
    if !isLinear then st
    else if Triggers(st.motion, r, st.session.isRecording) then
      App(Observe(st.motion, r), Start(st.session, r.time, d))
    else App(Observe(st.motion, r), st.session)
  }

  /** The first sample only stores the baseline and the time; it never
      starts a recording. */
  lemma FirstSampleOnlyRecordsBaseline(st: App, r: Reading, d: Device)
    requires !HasBaseline(st.motion)
    ensures OnSensor(st, true, r, d) == App(Motion(r.time, r.accel), st.session)
  {
    FirstSampleIsBaseline(st.motion, r, st.session.isRecording);
  }

  /** A sample less than 750 ms after `lastCheckTime` leaves the baseline,
      `lastCheckTime` and the recording state as they were. */
  lemma EarlySampleChangesNothing(st: App, isLinear: bool, r: Reading, d: Device)
    requires HasBaseline(st.motion) && r.time - st.motion.lastCheckTime < INTERVAL_MS
    ensures OnSensor(st, isLinear, r, d) == st
  {
    EarlySampleIgnored(st.motion, r, st.session.isRecording);
  }

  /** Once the interval has elapsed the baseline and `lastCheckTime` are
      replaced by the sample, whether or not a recording starts, and a
      recording starts exactly when the deviation is significant and none is
      in progress. */
  lemma DueSampleSlidesWindow(st: App, r: Reading, d: Device)
    requires Due(st.motion, r.time)
    ensures OnSensor(st, true, r, d).motion == Motion(r.time, r.accel)
    ensures OnSensor(st, true, r, d).session ==
      if Significant(st.motion.last, r.accel) && !st.session.isRecording
      then Start(st.session, r.time, d) else st.session
  {
    DueSampleSlides(st.motion, r, st.session.isRecording);
  }

  /** Everything that can happen to the activity. A timer event with no
      posted callback stands for nothing happening. */
  datatype Event =
    | SensorSample(isLinear: bool, reading: Reading, device: Device)
    | RecordButton(now: int, device: Device, stopOk: bool)
    | StopTimer(stopOk: bool)

  function Step(st: App, e: Event): App
  {
    match e
    case SensorSample(isLinear, r, d) => OnSensor(st, isLinear, r, d)
    case RecordButton(now, d, ok) => st.(session := Button(st.session, now, d, ok))
    case StopTimer(ok) =>
      if st.session.pendingStops == [] then st else st.(session := Timer(st.session, ok))
  }

  function RunEvents(st: App, es: seq<Event>): App
    decreases |es|
  {
    if es == [] then st else RunEvents(Step(st, es[0]), es[1..])
  }

  /** The session invariant holds after any sequence of events: a recorder
      is only ever recording while `isRecording`, and while recording the
      camera is unlocked and an output file exists. */
  lemma {:induction false} ConsistentAlways(st: App, es: seq<Event>)
    requires Consistent(st.session)
    ensures Consistent(RunEvents(st, es).session)
    decreases |es|
  {
    if es != [] {
      var next := Step(st, es[0]);
      assert Consistent(next.session);
      ConsistentAlways(next, es[1..]);
    }
  }

  /** After a stop whose `stop()` threw, the activity stays wedged for good:
      `isRecording` remains set with no recorder, so neither the button, nor
      a timer, nor motion can ever stop or start a recording again. */
  lemma {:induction false} WedgedForever(st: App, es: seq<Event>)
    requires st.session.isRecording && st.session.recorder == NoRecorder
    ensures RunEvents(st, es).session.isRecording
    ensures RunEvents(st, es).session.recorder == NoRecorder
    ensures RunEvents(st, es).session.outputFile == st.session.outputFile
    decreases |es|
  {
    if es != [] {
      var next := Step(st, es[0]);
      assert next.session.isRecording && next.session.recorder == NoRecorder;
      assert next.session.outputFile == st.session.outputFile;
      WedgedForever(next, es[1..]);
    }
  }
}
