/** The motion trigger gate of `MainActivity.onSensorChanged`: a baseline
    sample, a 750 ms evaluation interval and a deviation threshold of 3.0.
    Sensor values are modelled as reals; the deviation test compares squared
    magnitudes instead of taking a floating-point square root. */
module MotionGate {

  /** Minimum time between two evaluations, in milliseconds. */
  const INTERVAL_MS: int := 750
  /** Deviation above which a sample counts as significant motion. */
  const ACCELERATION_THRESHOLD: real := 3.0

  /** One linear-acceleration reading: `event.values[0..2]`. */
  datatype Accel = Accel(x: real, y: real, z: real)

  /** A reading together with the wall-clock time it was received at. */
  datatype Reading = Reading(accel: Accel, time: int)

  /** The gate's state: `lastCheckTime` (0 means "no baseline yet") and the
      three slots of `lastAccelValues`. */
  datatype Motion = Motion(lastCheckTime: int, last: Accel)

  /** The state before the first sample: Java's zero-initialised fields. */
  const Initial: Motion := Motion(0, Accel(0.0, 0.0, 0.0))

  /** dx² + dy² + dz² between the baseline and the current reading. */
  function SquaredDeviation(prev: Accel, cur: Accel): (d: real)
    ensures d >= 0.0
  {
    var dx, dy, dz := cur.x - prev.x, cur.y - prev.y, cur.z - prev.z;
    assert dx * dx >= 0.0 && dy * dy >= 0.0 && dz * dz >= 0.0;
    dx * dx + dy * dy + dz * dz
  }

  /** The deviation exceeds the threshold, compared without a square root. */
  predicate Significant(prev: Accel, cur: Accel)
  {
    SquaredDeviation(prev, cur) > ACCELERATION_THRESHOLD * ACCELERATION_THRESHOLD
  }

  /** Comparing squares is the same test as `sqrt(dx² + dy² + dz²) > 3.0`:
      for the non-negative square root `deviation`, both agree. */
  lemma DeviationTest(prev: Accel, cur: Accel, deviation: real)
    requires deviation >= 0.0 && deviation * deviation == SquaredDeviation(prev, cur)
    ensures Significant(prev, cur) <==> deviation > ACCELERATION_THRESHOLD
  {
    assert ACCELERATION_THRESHOLD * ACCELERATION_THRESHOLD == 9.0;
    SquareTest(SquaredDeviation(prev, cur), deviation);
  }

  /** For a non-negative root, its square exceeds 9 exactly when the root
      exceeds 3. */
  lemma SquareTest(sq: real, root: real)
    requires root >= 0.0 && root * root == sq
    ensures sq > 9.0 <==> root > 3.0
  {
    if root > 3.0 {
      MulMono(3.0, root, root);
      MulMono(3.0, root, 3.0);
    } else {
      MulMono(root, 3.0, root);
      MulMono(root, 3.0, 3.0);
    }
  }

  /** Multiplying by a non-negative factor keeps an inequality. */
  lemma MulMono(a: real, b: real, c: real)
    requires 0.0 <= c && a <= b
    ensures c * a <= c * b
  {
    assert c * b - c * a == c * (b - a);
  }

  /** A baseline has been recorded (`lastCheckTime != 0`). */
  predicate HasBaseline(m: Motion)
  {
    m.lastCheckTime != 0
  }

  /** The sample at time `now` falls on an evaluation boundary. */
  predicate Due(m: Motion, now: int)
  {
    HasBaseline(m) && now - m.lastCheckTime >= INTERVAL_MS
  }

  /** The gate's decision: this sample starts a recording. It needs a
      baseline, an elapsed interval, a significant deviation and no
      recording in progress. */
  predicate Triggers(m: Motion, r: Reading, recording: bool)
  {
    Due(m, r.time) && Significant(m.last, r.accel) && !recording
  }

  /** The gate's new state after one sample: the first sample becomes the
      baseline, a sample on an evaluation boundary replaces it, any other
      sample is ignored. */
  function Observe(m: Motion, r: Reading): (m': Motion)
  {
    if !HasBaseline(m) || Due(m, r.time) then Motion(r.time, r.accel) else m
  }

  /** The first sample only records the baseline and the time; it never triggers. */
  lemma FirstSampleIsBaseline(m: Motion, r: Reading, recording: bool)
    requires !HasBaseline(m)
    ensures Observe(m, r) == Motion(r.time, r.accel)
    ensures !Triggers(m, r, recording)
  {
  }

  /** A sample less than 750 ms after the last evaluation changes nothing and
      never triggers, whatever its deviation. */
  lemma EarlySampleIgnored(m: Motion, r: Reading, recording: bool)
    requires HasBaseline(m) && r.time - m.lastCheckTime < INTERVAL_MS
    ensures Observe(m, r) == m
    ensures !Triggers(m, r, recording)
  {
  }

  /** On an evaluation boundary the window always slides forward, whether or
      not the sample triggers; and it triggers exactly when the deviation is
      significant and nothing is being recorded. */
  lemma DueSampleSlides(m: Motion, r: Reading, recording: bool)
    requires Due(m, r.time)
    ensures Observe(m, r) == Motion(r.time, r.accel)
    ensures Triggers(m, r, recording) <==> Significant(m.last, r.accel) && !recording
  {
  }

  /** Times are wall-clock milliseconds since the epoch, hence positive. */
  predicate PositiveTimes(rs: seq<Reading>)
  {
    forall i :: 0 <= i < |rs| ==> rs[i].time > 0
  }

  /** The gate's state after a whole stream of samples. */
  function Run(m: Motion, rs: seq<Reading>): Motion
    decreases |rs|
  {
    if rs == [] then m else Run(Observe(m, rs[0]), rs[1..])
  }

  /** The times of the samples that were judged against a baseline. */
  function Evaluations(m: Motion, rs: seq<Reading>): (e: seq<int>)
    decreases |rs|
  {
    if rs == [] then []
    else (if Due(m, rs[0].time) then [rs[0].time] else []) + Evaluations(Observe(m, rs[0]), rs[1..])
  }

  /** Evaluations of a stream are at least 750 ms apart, and the first one
      comes at least 750 ms after the baseline in force: the gate is a rate
      limiter, so triggers (which need an evaluation) are too. */
  lemma {:induction false} EvaluationsSpaced(m: Motion, rs: seq<Reading>)
    requires m.lastCheckTime >= 0 && PositiveTimes(rs)
    ensures var e := Evaluations(m, rs);
      (forall i :: 0 <= i < |e| - 1 ==> e[i] + INTERVAL_MS <= e[i + 1]) &&
      (HasBaseline(m) && |e| > 0 ==> m.lastCheckTime + INTERVAL_MS <= e[0])
    decreases |rs|
  {
    if rs != [] {
      var m' := Observe(m, rs[0]);
      assert PositiveTimes(rs[1..]) by {
        forall i | 0 <= i < |rs[1..]| ensures rs[1..][i].time > 0 {
          assert rs[1..][i] == rs[i + 1];
        }
      }
      EvaluationsSpaced(m', rs[1..]);
      var tail := Evaluations(m', rs[1..]);
      if Due(m, rs[0].time) {
        assert Evaluations(m, rs) == [rs[0].time] + tail;
        assert m'.lastCheckTime == rs[0].time > 0;
      } else {
        assert Evaluations(m, rs) == tail;
      }
    }
  }

  /** Once a baseline exists, `lastCheckTime` never moves backwards. */
  lemma {:induction false} CheckTimeMonotone(m: Motion, rs: seq<Reading>)
    requires HasBaseline(m) && m.lastCheckTime > 0
    ensures HasBaseline(Run(m, rs)) && Run(m, rs).lastCheckTime >= m.lastCheckTime
    decreases |rs|
  {
    if rs != [] {
      CheckTimeMonotone(Observe(m, rs[0]), rs[1..]);
    }
  }

  /** A burst of samples that all arrive before the interval has elapsed
      leaves the gate exactly as it was: the burst is ignored, not averaged. */
  lemma {:induction false} BurstIgnored(m: Motion, rs: seq<Reading>)
    requires HasBaseline(m)
    requires forall i :: 0 <= i < |rs| ==> rs[i].time - m.lastCheckTime < INTERVAL_MS
    ensures Run(m, rs) == m && Evaluations(m, rs) == []
    decreases |rs|
  {
    if rs != [] {
      assert Observe(m, rs[0]) == m;
      assert forall i :: 0 <= i < |rs[1..]| ==> rs[1..][i] == rs[i + 1];
      BurstIgnored(m, rs[1..]);
    }
  }
}
