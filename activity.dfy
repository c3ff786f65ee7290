/** `MainActivity` as an object whose methods update its fields in place.
    Each method is proved against the value-level definitions of modules
    `MotionGate`, `Recording` and `Dashcam`: its postcondition says that the
    abstract state afterwards is the one those functions compute. */
module Activity {
  import opened Common
  import opened MotionGate
  import opened Recording
  import opened Dashcam

  class MainActivity {
    var isRecording: bool
    var mediaRecorder: Recorder
    var camera: Camera
    var outputFile: Option<string>
    /** Due times of the posted `stopRecording` callbacks, in posting order. */
    var pendingStops: seq<int>
    var lastCheckTime: int
    /** The baseline sample, updated slot by slot. */
    var lastAccelValues: array<real>

    ghost predicate Valid()
      reads this
    {
      lastAccelValues.Length == 3 && Consistent(SessionState())
    }

    function SessionState(): Session
      reads this
    {
      Session(isRecording, mediaRecorder, camera, outputFile, pendingStops)
    }

    function MotionState(): Motion
      reads this, lastAccelValues
      requires lastAccelValues.Length == 3
    {
      Motion(lastCheckTime, Accel(lastAccelValues[0], lastAccelValues[1], lastAccelValues[2]))
    }

    function State(): App
      reads this, lastAccelValues
      requires lastAccelValues.Length == 3
    {
      App(MotionState(), SessionState())
    }

    /** The fields as Java initialises them. */
    constructor ()
      ensures Valid() && fresh(lastAccelValues)
      ensures State() == Launched
    {
      isRecording := false;
      mediaRecorder := NoRecorder;
      camera := NoCamera;
      outputFile := None;
      pendingStops := [];
      lastCheckTime := 0;
      lastAccelValues := new real[3](_ => 0.0);
    }

    /** `releaseMediaRecorder`. */
    method ReleaseMediaRecorder()
      requires lastAccelValues.Length == 3
      modifies this
      ensures SessionState() == Release(old(SessionState()))
      ensures lastCheckTime == old(lastCheckTime) && lastAccelValues == old(lastAccelValues)
    {
      if mediaRecorder != NoRecorder {
        mediaRecorder := NoRecorder;
        if camera != NoCamera {
          camera := Locked;
        }
      }
    }

    /** `startRecording` at time `now`; both callers only call it while not
      recording. */
    method StartRecording(now: int, d: Device)
      requires Valid() && !isRecording
      modifies this
      ensures Valid()
      ensures SessionState() == Start(old(SessionState()), now, d)
      ensures lastCheckTime == old(lastCheckTime) && lastAccelValues == old(lastAccelValues)
    {
      if camera == NoCamera {
        camera := Locked;
      }
      camera := Unlocked;
      mediaRecorder := Configured;
      outputFile := OutputMediaFile(d);
      if outputFile == None {
        return;
      }
      if d.prepareOk && d.startOk {
        mediaRecorder := Started;
        isRecording := true;
        pendingStops := pendingStops + [now + MAX_DURATION_MS];
      } else {
        ReleaseMediaRecorder();
      }
    }

    /** `stopRecording`; `scanned` is the file handed to the media scanner,
      whose callback uploads it. */
    method StopRecording(stopOk: bool) returns (scanned: Option<string>)
      requires Valid()
      modifies this
      ensures Valid()
      ensures SessionState() == Stop(old(SessionState()), stopOk)
      ensures scanned == StopArtifact(old(SessionState()), stopOk)
      ensures lastCheckTime == old(lastCheckTime) && lastAccelValues == old(lastAccelValues)
    {
      scanned := None;
      if isRecording && mediaRecorder != NoRecorder {
        if stopOk {
          mediaRecorder := NoRecorder;
          isRecording := false;
          scanned := outputFile;
        } else {
          mediaRecorder := NoRecorder;
        }
      }
    }

    /** The record button's click listener. */
    method OnRecordButton(now: int, d: Device, stopOk: bool)
      requires Valid()
      modifies this
      ensures Valid()
      ensures SessionState() == Button(old(SessionState()), now, d, stopOk)
      ensures lastCheckTime == old(lastCheckTime) && lastAccelValues == old(lastAccelValues)
    {
      if isRecording {
        var _ := StopRecording(stopOk);
      } else {
        StartRecording(now, d);
      }
    }

    /** The first-posted pending 5-minute callback runs. */
    method OnStopTimer(stopOk: bool)
      requires Valid() && pendingStops != []
      modifies this
      ensures Valid()
      ensures SessionState() == Timer(old(SessionState()), stopOk)
      ensures lastCheckTime == old(lastCheckTime) && lastAccelValues == old(lastAccelValues)
    {
      pendingStops := pendingStops[1..];
      var _ := StopRecording(stopOk);
    }

    /** `onSensorChanged` for a sample `(x, y, z)` received at `currentTime`. */
    method OnSensorChanged(isLinearAcceleration: bool, x: real, y: real, z: real, currentTime: int, d: Device)
      requires Valid()
      modifies this, lastAccelValues
      ensures Valid() && lastAccelValues == old(lastAccelValues)
      ensures State() == OnSensor(old(State()), isLinearAcceleration, Reading(Accel(x, y, z), currentTime), d)
    {
      ghost var before := State();
      ghost var r := Reading(Accel(x, y, z), currentTime);
      if isLinearAcceleration {
        if lastCheckTime == 0 {
          lastAccelValues[0] := x;
          lastAccelValues[1] := y;
          lastAccelValues[2] := z;
          lastCheckTime := currentTime;
          return;
        }
        if currentTime - lastCheckTime >= INTERVAL_MS {
          var dx := x - lastAccelValues[0];
          var dy := y - lastAccelValues[1];
          var dz := z - lastAccelValues[2];
          assert dx * dx + dy * dy + dz * dz == SquaredDeviation(before.motion.last, r.accel);
          if dx * dx + dy * dy + dz * dz > ACCELERATION_THRESHOLD * ACCELERATION_THRESHOLD && !isRecording {
            StartRecording(currentTime, d);
          }
          assert SessionState() == OnSensor(before, true, r, d).session;
          lastAccelValues[0] := x;
          lastAccelValues[1] := y;
          lastAccelValues[2] := z;
          lastCheckTime := currentTime;
        }
      }
    }
  }
}
