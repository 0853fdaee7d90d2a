/** Frame projection and the Gaussian peak finder.

    A frame is a rectangular grid of integer intensities. It is projected onto its columns
    (the X profile) and its rows (the Y profile). Each profile goes to a curve fit that starts
    from amplitude = profile maximum, centre = first index of the maximum, sigma = 10, and the
    fitted centre times the conversion factor is that axis's peak in arcseconds. The fit
    itself is a parameter (an oracle). It may succeed, raise a RuntimeError (caught: the
    axis reads NaN, None here), or raise anything else (the call fails). */
module ImageProcessing {
  import opened Wrappers

  /** A grayscale frame: rows of pixels, each row `width` pixels long. */
  datatype Frame = Frame(rows: seq<seq<int>>, width: nat)

  predicate WellFormed(f: Frame)
  {
    forall i :: 0 <= i < |f.rows| ==> |f.rows[i]| == f.width
  }

  function Height(f: Frame): nat
  {
    |f.rows|
  }

  /** The starting point handed to the fit. */
  datatype Guess = Guess(amplitude: int, centre: nat, sigma: int)

  datatype FitOutcome = Fitted(centre: real) | RuntimeFailure | OtherFailure

  /** The curve fit of a profile from a starting guess. */
  type FitOracle = (seq<int>, Guess) -> FitOutcome

  /** Why a frame could not be processed: the maximum of an empty profile (numpy's
      ValueError), or an exception from the fit that is not a RuntimeError. */
  datatype FrameError = EmptyProfile | FitRaised

  /** Why no processor was built: an unknown type name (ValueError) or a known one that has
      no implementation. */
  datatype ProcessorError = UnknownType | NotImplemented(processorType: string)

  // Profiles are sums of integer pixel values, so this module keeps its own integer sum,
  // pointwise addition and maximum rather than the real-valued ones of LeastSquares, whose
  // sequences hold the straightness heights.

  function SumInts(s: seq<int>): int
  {
    if |s| == 0 then 0 else SumInts(s[..|s| - 1]) + s[|s| - 1]
  }

  /** The sum of column j over all rows. */
  function ColumnSum(rows: seq<seq<int>>, j: nat): int
    requires forall i :: 0 <= i < |rows| ==> j < |rows[i]|
  {
    if |rows| == 0 then 0 else ColumnSum(rows[..|rows| - 1], j) + rows[|rows| - 1][j]
  }

  /** The sum of every pixel of the frame, row by row. */
  function Total(rows: seq<seq<int>>): int
  {
    if |rows| == 0 then 0 else Total(rows[..|rows| - 1]) + SumInts(rows[|rows| - 1])
  }

  /** np.sum(frame, axis=0): one entry per column. */
  function IntensityX(f: Frame): (p: seq<int>)
    requires WellFormed(f)
    ensures |p| == f.width
  {
    seq(f.width, j requires 0 <= j < f.width => ColumnSum(f.rows, j))
  }

  /** np.sum(frame, axis=1): one entry per row. */
  function IntensityY(f: Frame): (p: seq<int>)
    requires WellFormed(f)
    ensures |p| == Height(f)
  {
    seq(|f.rows|, i requires 0 <= i < |f.rows| => SumInts(f.rows[i]))
  }

  /** np.max */
  function MaxOf(s: seq<int>): (m: int)
    requires |s| > 0
    ensures m in s
    ensures forall j :: 0 <= j < |s| ==> s[j] <= m
  {
    if |s| == 1 then s[0]
    else
      var m := MaxOf(s[..|s| - 1]);
      assert forall j :: 0 <= j < |s| - 1 ==> s[j] == s[..|s| - 1][j];
      if s[|s| - 1] > m then s[|s| - 1] else m
  }

  /** np.argmax: the first index at which the maximum is attained. */
  function ArgMax(s: seq<int>): (k: nat)
    requires |s| > 0
    ensures k < |s|
    ensures forall j :: 0 <= j < |s| ==> s[j] <= s[k]
    ensures forall j :: 0 <= j < k ==> s[j] < s[k]
  {
    if |s| == 1 then 0
    else
      var k := ArgMax(s[..|s| - 1]);
      assert forall j :: 0 <= j < |s| - 1 ==> s[j] == s[..|s| - 1][j];
      if s[|s| - 1] > s[k] then |s| - 1 else k
  }

  /** The fit's starting point: amplitude = max, centre = argmax, sigma = 10. */
  function InitialGuess(profile: seq<int>): (g: Guess)
    requires |profile| > 0
    ensures g.centre < |profile| && profile[g.centre] == g.amplitude
    ensures forall j :: 0 <= j < |profile| ==> profile[j] <= g.amplitude
    ensures forall j :: 0 <= j < g.centre ==> profile[j] < g.amplitude
    ensures g.sigma == 10
  {
    var k := ArgMax(profile);
    Guess(MaxOf(profile), k, 10)
  }

  /** One axis: the fitted centre times the conversion factor, NaN (None) when the fit
      raises a RuntimeError, an error when the profile is empty or the fit raises
      anything else. */
  function AxisPeak(profile: seq<int>, factor: real, fit: FitOracle): (r: Result<Option<real>, FrameError>)
    ensures |profile| == 0 ==> r == Err(EmptyProfile)
    ensures |profile| > 0 && fit(profile, InitialGuess(profile)).Fitted? ==>
              r == Ok(Some(fit(profile, InitialGuess(profile)).centre * factor))
    ensures |profile| > 0 && fit(profile, InitialGuess(profile)) == RuntimeFailure ==> r == Ok(None)
    ensures |profile| > 0 && fit(profile, InitialGuess(profile)) == OtherFailure ==> r == Err(FitRaised)
  {
    if |profile| == 0 then Err(EmptyProfile)
    else
      if fit(profile, InitialGuess(profile)).Fitted? then
        Ok(Some(fit(profile, InitialGuess(profile)).centre * factor))
      else if fit(profile, InitialGuess(profile)).RuntimeFailure? then Ok(None)
      else Err(FitRaised)
  }

  /** The whole frame: X first, then Y. A NaN on one axis leaves the other axis's value as
      its own fit decides; an exception on either axis fails the call. */
  function Analyse(f: Frame, factor: real, fit: FitOracle): (r: Result<(Option<real>, Option<real>), FrameError>)
    requires WellFormed(f)
    ensures r.Ok? <==> AxisPeak(IntensityX(f), factor, fit).Ok? && AxisPeak(IntensityY(f), factor, fit).Ok?
    ensures r.Ok? ==> (r.value.0 == AxisPeak(IntensityX(f), factor, fit).value &&
                       r.value.1 == AxisPeak(IntensityY(f), factor, fit).value)
    ensures AxisPeak(IntensityX(f), factor, fit).Err? ==> r == Err(AxisPeak(IntensityX(f), factor, fit).error)
  {
    var px := AxisPeak(IntensityX(f), factor, fit);
    if px.Err? then Err(px.error)
    else
      var py := AxisPeak(IntensityY(f), factor, fit);
      if py.Err? then Err(py.error) else Ok((px.value, py.value))
  }

  /** Which processor types the constructor accepts: only "Gaussian" builds one. */
  function CheckProcessorType(processorType: string): (r: Result<(), ProcessorError>)
    ensures r.Ok? <==> processorType == "Gaussian"
    ensures r == Err(UnknownType) <==> processorType !in ["Gaussian", "CircleFit", "Linefit"]
    ensures r.Err? && r.error.NotImplemented? ==> r.error.processorType == processorType
  {
    if processorType !in ["Gaussian", "CircleFit", "Linefit"] then Err(UnknownType)
    else if processorType == "Gaussian" then Ok(())
    else Err(NotImplemented(processorType))
  }

  class GaussianProcessor {
    const conversionFactor: real
    var latestFrame: Option<Frame>

    constructor(conversionFactor: real)
      ensures this.conversionFactor == conversionFactor && latestFrame == None
    {
      this.conversionFactor := conversionFactor;
      latestFrame := None;
    }

    /** Records the frame, projects it and fits both axes. */
    method ProcessFrame(frame: Frame, fit: FitOracle) returns (r: Result<(Option<real>, Option<real>), FrameError>)
      requires WellFormed(frame)
      modifies this
      ensures latestFrame == Some(frame)
      ensures r == Analyse(frame, conversionFactor, fit)
    {
      latestFrame := Some(frame);
      var intensityX := IntensityX(frame);
      var intensityY := IntensityY(frame);
      var peakX := AxisPeak(intensityX, conversionFactor, fit);
      if peakX.Err? {
        return Err(peakX.error);
      }
      var peakY := AxisPeak(intensityY, conversionFactor, fit);
      if peakY.Err? {
        return Err(peakY.error);
      }
      r := Ok((peakX.value, peakY.value));
    }
  }

  class ImageProcessor {
    const conversionFactor: real
    const cameraType: string
    const processor: GaussianProcessor
    var latestFrame: Option<Frame>

    constructor(conversionFactor: real, processor: GaussianProcessor)
      ensures this.conversionFactor == conversionFactor && this.processor == processor
      ensures cameraType == "Gaussian" && latestFrame == None
    {
      this.conversionFactor := conversionFactor;
      this.processor := processor;
      cameraType := "Gaussian";
      latestFrame := None;
    }

    /** The Python constructor: validate the type name, then build the Gaussian processor. */
    static method Create(conversionFactor: real, processorType: string) returns (r: Result<ImageProcessor, ProcessorError>)
      ensures r.Ok? <==> CheckProcessorType(processorType).Ok?
      ensures r.Err? ==> r.error == CheckProcessorType(processorType).error
      ensures r.Ok? ==> fresh(r.value) && fresh(r.value.processor)
      ensures r.Ok? ==> r.value.conversionFactor == conversionFactor && r.value.processor.conversionFactor == conversionFactor
      ensures r.Ok? ==> r.value.cameraType == processorType && r.value.latestFrame == None && r.value.processor.latestFrame == None
    {
      var check := CheckProcessorType(processorType);
      if check.Err? {
        return Err(check.error);
      }
      var inner := new GaussianProcessor(conversionFactor);
      var outer := new ImageProcessor(conversionFactor, inner);
      r := Ok(outer);
    }

    /** Hands the frame to the inner processor and returns its answer unchanged. */
    method ProcessFrame(frame: Frame, fit: FitOracle) returns (r: Result<(Option<real>, Option<real>), FrameError>)
      requires WellFormed(frame)
      modifies processor
      ensures r == Analyse(frame, processor.conversionFactor, fit)
      ensures processor.latestFrame == Some(frame)
    {
      r := processor.ProcessFrame(frame, fit);
    }
  }

  // ---------------------------------------------------------------------------
  // Properties of the projection

  lemma {:induction false} SumIntsAppend(s: seq<int>, t: seq<int>)
    ensures SumInts(s + t) == SumInts(s) + SumInts(t)
  {
    if |t| > 0 {
      assert (s + t)[..|s + t| - 1] == s + t[..|t| - 1];
      SumIntsAppend(s, t[..|t| - 1]);
    } else {
      assert s + t == s;
    }
  }

  function AddInts(u: seq<int>, v: seq<int>): (w: seq<int>)
    requires |u| == |v|
    ensures |w| == |u|
  {
    seq(|u|, i requires 0 <= i < |u| => u[i] + v[i])
  }

  lemma {:induction false} SumIntsAdd(u: seq<int>, v: seq<int>)
    requires |u| == |v|
    ensures SumInts(AddInts(u, v)) == SumInts(u) + SumInts(v)
  {
    if |u| > 0 {
      var n := |u| - 1;
      assert AddInts(u, v)[..n] == AddInts(u[..n], v[..n]);
      SumIntsAdd(u[..n], v[..n]);
    }
  }

  /** Adding a row to the frame adds it to the column profile. */
  lemma ColumnsOfLastRow(f: Frame)
    requires WellFormed(f) && |f.rows| > 0
    ensures WellFormed(Frame(f.rows[..|f.rows| - 1], f.width))
    ensures IntensityX(f) == AddInts(IntensityX(Frame(f.rows[..|f.rows| - 1], f.width)), f.rows[|f.rows| - 1])
  {
  }

  lemma {:induction false} ColumnTotal(f: Frame)
    requires WellFormed(f)
    decreases |f.rows|
    ensures SumInts(IntensityX(f)) == Total(f.rows)
  {
    if |f.rows| > 0 {
      var g := Frame(f.rows[..|f.rows| - 1], f.width);
      ColumnsOfLastRow(f);
      ColumnTotal(g);
      SumIntsAdd(IntensityX(g), f.rows[|f.rows| - 1]);
    } else {
      assert IntensityX(f) == seq(f.width, j => 0);
      ZerosSum(f.width);
    }
  }

  lemma {:induction false} ZerosSum(n: nat)
    ensures SumInts(seq(n, j => 0)) == 0
  {
    if n > 0 {
      assert seq(n, j => 0)[..n - 1] == seq(n - 1, j => 0);
      ZerosSum(n - 1);
    }
  }

  lemma {:induction false} RowTotal(f: Frame)
    requires WellFormed(f)
    decreases |f.rows|
    ensures SumInts(IntensityY(f)) == Total(f.rows)
  {
    if |f.rows| > 0 {
      var g := Frame(f.rows[..|f.rows| - 1], f.width);
      assert IntensityY(f)[..|f.rows| - 1] == IntensityY(g);
      RowTotal(g);
    }
  }

  /** Both profiles add up to the frame's total intensity. */
  lemma ProfilesPreserveTotal(f: Frame)
    requires WellFormed(f)
    ensures SumInts(IntensityX(f)) == Total(f.rows) == SumInts(IntensityY(f))
  {
    ColumnTotal(f);
    RowTotal(f);
  }

  /** An empty frame (no rows or no columns) makes the call fail at the first profile
      that is empty. */
  lemma EmptyFrameFails(f: Frame, factor: real, fit: FitOracle)
    requires WellFormed(f) && (f.width == 0 || Height(f) == 0)
    ensures Analyse(f, factor, fit).Err?
  {
  }

  /** A RuntimeError on the X fit does not touch the Y result. */
  lemma XFailureKeepsY(f: Frame, factor: real, fit: FitOracle)
    requires WellFormed(f) && f.width > 0 && Height(f) > 0
    requires fit(IntensityX(f), InitialGuess(IntensityX(f))) == RuntimeFailure
    requires fit(IntensityY(f), InitialGuess(IntensityY(f))).Fitted?
    ensures Analyse(f, factor, fit)
         == Ok((None, Some(fit(IntensityY(f), InitialGuess(IntensityY(f))).centre * factor)))
  {
  }
}
