/**
 * `FPS`: the frame gate. Its static fields become the fields of one
 * object. Performance-counter readings are integer ticks passed in by the
 * caller, as is the value the frame callback returns; durations are exact
 * reals rather than doubles.
 */
module FrameRate {

  /**
   * Whether `elapsed` ticks at `freq` ticks per second reach one frame
   * interval, compared in seconds as `FPS::Run` does.
   */
  predicate IntervalReached(elapsed: int, freq: nat, frameRate: real)
    requires freq > 0 && frameRate > 0.0
  {
    (elapsed as real) / (freq as real) >= 1.0 / frameRate
  }

  /** The same test on integer ticks: `elapsed * frameRate >= freq`. */
  lemma IntervalInTicks(elapsed: int, freq: nat, frameRate: real)
    requires freq > 0 && frameRate > 0.0
    ensures IntervalReached(elapsed, freq, frameRate) <==> (elapsed as real) * frameRate >= freq as real
  {
    var e, f := elapsed as real, freq as real;
    if e / f >= 1.0 / frameRate {
      calc {
        e * frameRate;
      ==
        (e / f) * (f * frameRate);
      >= { assert f * frameRate > 0.0; }
        (1.0 / frameRate) * (f * frameRate);
      ==
        f;
      }
    } else {
      calc {
        e * frameRate;
      ==
        (e / f) * (f * frameRate);
      < { assert f * frameRate > 0.0; }
        (1.0 / frameRate) * (f * frameRate);
      ==
        f;
      }
    }
  }

  class FPS {
    var updateFlag: bool
    var frameRate: real
    /** Seconds between the last two frame starts, once measured. */
    var deltaTime: real
    /** The measured frame rate, `1 / deltaTime`. */
    var actualFPS: real
    /** Counter ticks per second. */
    var freq: nat
    /** The counter reading taken when the last frame started. */
    var updateTime: int

    /** The two measurements agree: both unset, or a positive interval and its inverse. */
    ghost predicate Consistent()
      reads this
    {
      (deltaTime == 0.0 && actualFPS == 0.0) || (deltaTime > 0.0 && deltaTime * actualFPS == 1.0)
    }

    /** Initialised with a positive frequency and target rate, and consistent. */
    ghost predicate Valid()
      reads this
    {
      freq > 0 && frameRate > 0.0 && Consistent()
    }

    /** The zero-initialised static fields, before `Initialize`. */
    constructor ()
      ensures Consistent()
      ensures !updateFlag && frameRate == 0.0 && deltaTime == 0.0 && actualFPS == 0.0
      ensures freq == 0 && updateTime == 0
    {
      updateFlag := false;
      frameRate := 0.0;
      deltaTime := 0.0;
      actualFPS := 0.0;
      freq := 0;
      updateTime := 0;
    }

    /**
     * Records the counter frequency and the current counter, requests a
     * frame and fixes the target rate. The measurements are left as they were.
     */
    method Initialize(rate: real, frequency: nat, counter: int)
      requires rate > 0.0 && frequency > 0
      requires Consistent()
      modifies this`freq, this`updateTime, this`updateFlag, this`frameRate
      ensures Valid()
      ensures freq == frequency && updateTime == counter && frameRate == rate
      ensures updateFlag
    {
      freq := frequency;
      updateTime := counter;
      updateFlag := true;
      frameRate := rate;
    }

    /**
     * One pass of the gate. If a frame is due, the counter is sampled
     * (`startCounter`) and the callback runs, returning `callbackResult`;
     * a false result stops everything. Then the counter is sampled again
     * (`nowCounter`) and, once a whole frame interval has passed since the
     * frame started, the next frame is requested and the interval measured.
     */
    method Run(startCounter: int, callbackResult: bool, nowCounter: int) returns (cont: bool, invoked: bool)
      requires Valid()
      modifies this`updateFlag, this`updateTime, this`deltaTime, this`actualFPS
      ensures Valid()
      ensures invoked == old(updateFlag)
      ensures updateTime == (if invoked then startCounter else old(updateTime))
      ensures !cont <==> invoked && !callbackResult
      ensures !cont ==> updateFlag && deltaTime == old(deltaTime) && actualFPS == old(actualFPS)
      ensures cont ==> (updateFlag <==> IntervalReached(nowCounter - updateTime, freq, frameRate))
      ensures cont && updateFlag ==>
        && deltaTime == ((nowCounter - updateTime) as real) / (freq as real)
        && deltaTime >= 1.0 / frameRate
        && actualFPS <= frameRate
      ensures !(cont && updateFlag) ==> deltaTime == old(deltaTime) && actualFPS == old(actualFPS)
    {
      invoked := updateFlag;
      if updateFlag {
        updateTime := startCounter;
        if !callbackResult {
          return false, invoked;
        }
        updateFlag := false;
      }

      var elapsed := ((nowCounter - updateTime) as real) / (freq as real);
      if elapsed >= 1.0 / frameRate {
        RateBelowTarget(elapsed, frameRate);
        updateFlag := true;
        deltaTime := elapsed;
        actualFPS := 1.0 / elapsed;
      }
      cont := true;
    }

    /** The measured frame rate: zero before the first measurement, else the inverse of `GetDeltaTime`. */
    function GetFPS(): (fps: real)
      requires Consistent()
      reads this
      ensures fps == 0.0 <==> GetDeltaTime() == 0.0
      ensures fps != 0.0 ==> fps * GetDeltaTime() == 1.0
    {
      actualFPS
    }

    /** The measured interval: zero before the first measurement, else positive. */
    function GetDeltaTime(): (dt: real)
      requires Consistent()
      reads this
      ensures dt >= 0.0
      ensures dt == 0.0 <==> actualFPS == 0.0
    {
      deltaTime
    }
  }

  /** The getters of a gate that was never initialised read the zeroed statics. */
  method ReadBeforeInitialize() returns (fps: real, deltaTime: real)
    ensures fps == 0.0 && deltaTime == 0.0
  {
    var gate := new FPS();
    fps := gate.GetFPS();
    deltaTime := gate.GetDeltaTime();
  }

  /** An interval of at least one frame period means a rate of at most the target. */
  lemma RateBelowTarget(delta: real, frameRate: real)
    requires frameRate > 0.0 && delta >= 1.0 / frameRate
    ensures delta > 0.0 && delta * (1.0 / delta) == 1.0
    ensures 1.0 / delta <= frameRate
  {
    assert 1.0 / frameRate > 0.0;
    calc {
      1.0 / delta;
    ==
      (1.0 / delta) * 1.0;
    ==
      (1.0 / delta) * ((1.0 / frameRate) * frameRate);
    <=
      (1.0 / delta) * (delta * frameRate);
    ==
      frameRate;
    }
  }
}
