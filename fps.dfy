/**
 * The frame-rate counter of the TNM046 utility library (displayFPS).
 *
 * displayFPS is called once per rendered frame. Three function-local
 * statics survive between calls: the frames counted since the last
 * measurement, the last measured rate and the time that measurement was
 * taken. At least one second after that time, the rate is measured again
 * as frames / elapsed seconds and the count restarts. Whenever the count
 * is zero before the frame is counted, the window title is rewritten with
 * the rate. The call then counts its frame and returns the rate.
 *
 * The clock is a parameter. The statics are the fields of FpsCounter; they
 * are initialised on the first call, which the model writes as the
 * constructor taking that first clock reading.
 */
module FrameRate {

  /** The statics between two calls. */
  datatype Counter = Counter(frames: nat, fps: real, t0: real)

  /** The statics when first initialised, with the clock reading start. */
  function Start(start: real): Counter
  {
    Counter(0, 0.0, start)
  }

  /** At least one second has passed since the last measurement. */
  predicate Refreshes(k: Counter, t: real)
  {
    t - k.t0 >= 1.0
  }

  /** The statics after a call at time t. */
  function Step(k: Counter, t: real): Counter
  {
    if Refreshes(k, t) then Counter(1, k.frames as real / (t - k.t0), t)
    else Counter(k.frames + 1, k.fps, k.t0)
  }

  /** The call at time t rewrites the window title: the count is zero once the measurement is done. */
  predicate Retitles(k: Counter, t: real)
  {
    (if Refreshes(k, t) then 0 else k.frames) == 0
  }

  /** The statics after a call at each reading of ts in turn. */
  function Run(k: Counter, ts: seq<real>): Counter
    decreases |ts|
  {
    if ts == [] then k else Run(Step(k, ts[0]), ts[1..])
  }

  /** Milliseconds per frame shown in the title; 0 before any rate is known. */
  function FrameTimeMs(fps: real): (ms: real)
    ensures fps > 0.0 ==> ms > 0.0 && ms * fps == 1000.0
    ensures fps <= 0.0 ==> ms == 0.0
  {
    if fps > 0.0 then 1000.0 / fps else 0.0
  }

  /** The rate is never negative. */
  predicate Valid(k: Counter)
  {
    k.fps >= 0.0
  }

  /**
   * A call keeps the rate non-negative and counts its own frame. A new
   * measurement restarts the window at t; its rate times the elapsed time
   * is the number of frames counted, so it never exceeds that number.
   */
  lemma StepMeasures(k: Counter, t: real)
    requires Valid(k)
    ensures Valid(Step(k, t))
    ensures Step(k, t).frames >= 1
    ensures Refreshes(k, t) ==>
      Step(k, t).t0 == t && Step(k, t).frames == 1
      && Step(k, t).fps * (t - k.t0) == k.frames as real
      && Step(k, t).fps <= k.frames as real
  {
    if Refreshes(k, t) {
      var dt := t - k.t0;
      var f := k.frames as real;
      assert f / dt * dt == f;
      assert f / dt <= f by {
        assert f <= f * dt;
      }
    }
  }

  /** The first call always rewrites the title, whatever the clock says. */
  lemma FirstCallRetitles(start: real, t: real)
    ensures Retitles(Start(start), t)
  {
  }

  /** After the first call the title is rewritten exactly when the rate is measured again. */
  lemma RetitleOnlyOnMeasure(k: Counter, t: real)
    requires k.frames >= 1
    ensures Retitles(k, t) <==> Refreshes(k, t)
  {
  }

  /** Every call after the first sees a count of at least one. */
  lemma {:induction false} RunCounts(k: Counter, ts: seq<real>)
    requires |ts| >= 1
    ensures Run(k, ts).frames >= 1
    decreases |ts|
  {
    if |ts| > 1 {
      RunCounts(Step(k, ts[0]), ts[1..]);
    }
  }

  /** A run of calls keeps the rate non-negative. */
  lemma {:induction false} RunValid(k: Counter, ts: seq<real>)
    requires Valid(k)
    ensures Valid(Run(k, ts))
    decreases |ts|
  {
    if ts != [] {
      StepMeasures(k, ts[0]);
      RunValid(Step(k, ts[0]), ts[1..]);
    }
  }

  /**
   * Calls that all come within a second of the last measurement only
   * count frames: the rate and the measurement time stay as they were.
   */
  lemma {:induction false} RunWithinSecond(k: Counter, ts: seq<real>)
    requires forall i | 0 <= i < |ts| :: ts[i] - k.t0 < 1.0
    ensures Run(k, ts) == Counter(k.frames + |ts|, k.fps, k.t0)
    decreases |ts|
  {
    if ts != [] {
      var k' := Step(k, ts[0]);
      assert k' == Counter(k.frames + 1, k.fps, k.t0);
      assert forall i | 0 <= i < |ts[1..]| :: ts[1..][i] - k'.t0 < 1.0 by {
        forall i | 0 <= i < |ts[1..]| ensures ts[1..][i] - k'.t0 < 1.0 {
          assert ts[1..][i] == ts[i + 1];
        }
      }
      RunWithinSecond(k', ts[1..]);
    }
  }

  /**
   * The measured rate is the number of calls since the previous
   * measurement divided by the time since it: the k.frames calls already
   * counted, then the calls ts within the second, then the measuring call
   * at t.
   */
  lemma MeasuredRate(k: Counter, ts: seq<real>, t: real)
    requires forall i | 0 <= i < |ts| :: ts[i] - k.t0 < 1.0
    requires t - k.t0 >= 1.0
    ensures Step(Run(k, ts), t).fps == (k.frames + |ts|) as real / (t - k.t0)
    ensures Step(Run(k, ts), t).t0 == t
  {
    RunWithinSecond(k, ts);
  }

  /** The function-local statics of displayFPS. */
  class FpsCounter {
    var frames: nat
    var fps: real
    var t0: real

    /** The statics as a value. */
    function State(): Counter
      reads this
    {
      Counter(frames, fps, t0)
    }

    /** First call: the statics are initialised, t0 from the clock. */
    constructor(start: real)
      ensures State() == Start(start)
    {
      frames := 0;
      fps := 0.0;
      t0 := start;
    }

    /**
     * One call of displayFPS at clock reading t: returns the rate and
     * whether the window title is rewritten.
     */
    method Tick(t: real) returns (rate: real, retitle: bool)
      modifies this
      ensures State() == Step(old(State()), t)
      ensures retitle == Retitles(old(State()), t)
      ensures rate == fps
    {
      if t - t0 >= 1.0 {
        fps := frames as real / (t - t0);
        t0 := t;
        frames := 0;
      }
      retitle := frames == 0;
      frames := frames + 1;
      rate := fps;
    }
  }
}
