/** The live window's bookkeeping: per-axis zero references and peak histories, the
    averaging flag and its accumulators, and the frames-per-second counter.

    The program reads two clocks: a nanosecond clock (constructor's averaging start,
    the reset buttons, start of averaging) and a seconds clock (constructor's FPS start,
    the periodic update). Both readings are parameters here. */
module LiveWindow {
  import opened Wrappers

  /** One point of a peak-position history curve. */
  datatype HistoryPoint = HistoryPoint(time: real, peak: real)

  /** The FPS counter: frames counted, when counting started, and the rate last shown. */
  datatype FpsCounter = FpsCounter(frameCount: int, startTime: real, shownFps: real)

  /** Seconds of elapsed time after which the FPS display is refreshed. */
  const FpsInterval: real := 3.0

  /** The FPS branch of the periodic update at seconds-clock reading now: once more than
      three seconds have elapsed since startTime, show frames / elapsed and restart the
      count at now; otherwise leave the counter alone. */
  function FpsTick(c: FpsCounter, now: real): (r: FpsCounter)
    ensures now - c.startTime > FpsInterval ==>
              r.frameCount == 0 && r.startTime == now &&
              r.shownFps * (now - c.startTime) == c.frameCount as real
    ensures now - c.startTime <= FpsInterval ==> r == c
    ensures now - r.startTime <= FpsInterval
  {
    var elapsed := now - c.startTime;
    if elapsed > FpsInterval then FpsCounter(0, now, c.frameCount as real / elapsed) else c
  }

  class AutocollimatorLiveWindow {
    var conversionFactor: real
    var peakXHistory: seq<HistoryPoint>
    var peakYHistory: seq<HistoryPoint>
    var zeroX: Option<real>
    var zeroY: Option<real>
    var averaging: bool
    var averageStartTime: int
    var averageXValues: seq<real>
    var averageYValues: seq<real>
    var latestPeakX: Option<real>
    var latestPeakY: Option<real>
    var fps: FpsCounter

    /** A fresh window; clockNs and clockS are the two clock readings taken while it is built. */
    constructor(conversionFactor: real, clockNs: int, clockS: real)
      ensures this.conversionFactor == conversionFactor
      ensures peakXHistory == [] && peakYHistory == []
      ensures zeroX == Some(0.0) && zeroY == Some(0.0)
      ensures !averaging && averageStartTime == clockNs
      ensures averageXValues == [] && averageYValues == []
      ensures latestPeakX == Some(0.0) && latestPeakY == Some(0.0)
      ensures fps == FpsCounter(0, clockS, 0.0)
    {
      this.conversionFactor := conversionFactor;
      peakXHistory, peakYHistory := [], [];
      zeroX, zeroY := Some(0.0), Some(0.0);
      averaging := false;
      averageStartTime := clockNs;
      averageXValues, averageYValues := [], [];
      latestPeakX, latestPeakY := Some(0.0), Some(0.0);
      fps := FpsCounter(0, clockS, 0.0);
    }

    /** The FPS part of the periodic update, at seconds-clock reading now. */
    method UpdateFps(now: real)
      modifies this
      ensures fps == FpsTick(old(fps), now)
      ensures now - fps.startTime <= FpsInterval
      ensures zeroX == old(zeroX) && zeroY == old(zeroY)
      ensures peakXHistory == old(peakXHistory) && peakYHistory == old(peakYHistory)
      ensures averaging == old(averaging) && averageStartTime == old(averageStartTime)
      ensures averageXValues == old(averageXValues) && averageYValues == old(averageYValues)
      ensures latestPeakX == old(latestPeakX) && latestPeakY == old(latestPeakY)
      ensures conversionFactor == old(conversionFactor)
    {
      var elapsed := now - fps.startTime;
      if elapsed > FpsInterval {
        fps := FpsCounter(0, now, fps.frameCount as real / elapsed);
      }
    }

    /** "Reset X Peak Position": the latest X peak becomes the X zero, the X history is
        emptied, and the FPS start time is set from the nanosecond clock. */
    method ResetXPeakPosition(clockNs: int)
      modifies this
      ensures zeroX == old(latestPeakX) && peakXHistory == []
      ensures fps == old(fps).(startTime := clockNs as real)
      ensures zeroY == old(zeroY) && peakYHistory == old(peakYHistory)
      ensures latestPeakX == old(latestPeakX) && latestPeakY == old(latestPeakY)
      ensures averaging == old(averaging) && averageStartTime == old(averageStartTime)
      ensures averageXValues == old(averageXValues) && averageYValues == old(averageYValues)
      ensures conversionFactor == old(conversionFactor)
    {
      zeroX := latestPeakX;
      peakXHistory := [];
      fps := fps.(startTime := clockNs as real);
    }

    /** "Reset Y Peak Position": the Y counterpart of ResetXPeakPosition. */
    method ResetYPeakPosition(clockNs: int)
      modifies this
      ensures zeroY == old(latestPeakY) && peakYHistory == []
      ensures fps == old(fps).(startTime := clockNs as real)
      ensures zeroX == old(zeroX) && peakXHistory == old(peakXHistory)
      ensures latestPeakX == old(latestPeakX) && latestPeakY == old(latestPeakY)
      ensures averaging == old(averaging) && averageStartTime == old(averageStartTime)
      ensures averageXValues == old(averageXValues) && averageYValues == old(averageYValues)
      ensures conversionFactor == old(conversionFactor)
    {
      zeroY := latestPeakY;
      peakYHistory := [];
      fps := fps.(startTime := clockNs as real);
    }

    /** "Take Average": arm averaging and empty both accumulators. */
    method StartAveraging(clockNs: int)
      modifies this
      ensures averaging && averageStartTime == clockNs
      ensures averageXValues == [] && averageYValues == []
      ensures zeroX == old(zeroX) && zeroY == old(zeroY)
      ensures peakXHistory == old(peakXHistory) && peakYHistory == old(peakYHistory)
      ensures latestPeakX == old(latestPeakX) && latestPeakY == old(latestPeakY)
      ensures fps == old(fps) && conversionFactor == old(conversionFactor)
    {
      averaging := true;
      averageStartTime := clockNs;
      averageXValues, averageYValues := [], [];
    }
  }

  /** A tick right after a refresh changes nothing: the refresh rule is idempotent at a
      fixed clock reading. */
  lemma FpsTickIdempotent(c: FpsCounter, now: real)
    ensures FpsTick(FpsTick(c, now), now) == FpsTick(c, now)
  {
  }

  /** After either reset button the FPS display stops refreshing. The reset stores a
      nanosecond reading, 10^9 * t for a seconds reading t, as the start time, and the
      update subtracts it from a seconds reading now: until now passes 10^9 * t (for a
      present-day t, decades later) the elapsed time is negative and the counter keeps
      its state. */
  lemma FpsStallsAfterReset(c: FpsCounter, t: real, now: real)
    requires now < 1000000000.0 * t
    ensures FpsTick(c.(startTime := 1000000000.0 * t), now) == c.(startTime := 1000000000.0 * t)
  {
  }

  /** Read consistently in seconds, a reset followed by an update more than three seconds
      later does refresh the display. */
  lemma FpsRefreshesWithSecondsClock(c: FpsCounter, t: real, now: real)
    requires now > t + FpsInterval
    ensures FpsTick(c.(startTime := t), now).startTime == now
    ensures FpsTick(c.(startTime := t), now).frameCount == 0
  {
  }
}
