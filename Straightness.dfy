/** The straightness measurement window: per-position averages of the live peak
    positions, stored in two lists kept in lockstep (one per axis), detrended with the
    least-squares line, and summarised by the min-max difference. */
module Straightness {
  import opened Wrappers
  import LS = LeastSquares

  /** np.pi */
  const Pi: real := 3.141592653589793

  /** One stored measurement: the position number the user typed and the height difference. */
  datatype Entry = Entry(position: int, height: real)

  /** One pass of the averaging loop: the latest X and Y peaks, None when a peak is NaN. */
  datatype Sample = Sample(peakX: Option<real>, peakY: Option<real>)

  datatype Axis = X | Y

  /** A point of a plotted curve: position times increment, detrended height. */
  datatype Point = Point(x: real, y: real)

  /** What a take-measurement action ends with. InvalidInput: one of the three text boxes
      does not parse, nothing changes. PositionOutOfRange: the store indexes past the
      start of the lists (an IndexError), nothing changes. FitFailed: the store happened
      but np.polyfit raised on the stored positions, so the curves, the min-max
      differences and the counter keep their old values. */
  datatype Outcome = InvalidInput | PositionOutOfRange | FitFailed | Measured(minMaxX: real, minMaxY: real)

  function Peak(s: Sample, axis: Axis): Option<real>
  {
    match axis
    case X => s.peakX
    case Y => s.peakY
  }

  /** The non-NaN peaks of one axis, in the order they were sampled. */
  function ValidPeaks(samples: seq<Sample>, axis: Axis): (vs: seq<real>)
    ensures |vs| <= |samples|
  {
    if |samples| == 0 then []
    else
      var init := ValidPeaks(samples[..|samples| - 1], axis);
      match Peak(samples[|samples| - 1], axis)
      case None => init
      case Some(v) => init + [v]
  }

  /** np.mean of the collected values, or 0 when there are none. */
  function Average(vs: seq<real>): (a: real)
    ensures |vs| == 0 ==> a == 0.0
    ensures |vs| > 0 ==> a * (|vs| as real) == LS.Sum(vs)
  {
    if |vs| == 0 then 0.0 else LS.Mean(vs)
  }

  /** Inverse of the microns conversion, for a non-zero increment. */
  function ArcsecondsFromMicrons(h: real, increment: real): real
    requires increment != 0.0
  {
    h * (3600.0 * 180.0) / (Pi * increment * 1000000.0)
  }

  /** The stored height difference: with unit "microns" the angle in arcseconds becomes a
      height over the increment, which the inverse conversion turns back into the angle;
      any other unit text keeps the average as it is. */
  function HeightDifference(avg: real, increment: real, unit: string): (h: real)
    ensures unit != "microns" ==> h == avg
    ensures unit == "microns" && increment != 0.0 ==> ArcsecondsFromMicrons(h, increment) == avg
  {
    if unit == "microns" then
      MicronsInverse(avg, increment);
      avg * Pi * increment * 1000000.0 / (3600.0 * 180.0)
    else avg
  }

  lemma MicronsInverse(avg: real, increment: real)
    ensures increment != 0.0 ==>
              ArcsecondsFromMicrons(avg * Pi * increment * 1000000.0 / (3600.0 * 180.0), increment) == avg
  {
    if increment != 0.0 {
      var k := Pi * increment * 1000000.0;
      assert k != 0.0;
      assert avg * Pi * increment * 1000000.0 / (3600.0 * 180.0) == avg * k / (3600.0 * 180.0);
    }
  }

  /** Python's reading of list index i on a list of length n: negative indices count from
      the end, anything else out of range is an IndexError (None). */
  function PythonIndex(n: nat, i: int): (k: Option<nat>)
    ensures k.Some? <==> -(n as int) <= i < n
    ensures k.Some? ==> k.value < n && (k.value == i || k.value == n + i)
  {
    if 0 <= i < n then Some(i)
    else if -(n as int) <= i < 0 then Some(n + i)
    else None
  }

  /** Storing an entry under a position: append past the end, otherwise assign to the slot
      position - 1 (with Python's negative indexing); None is an IndexError. */
  function StoreAt(list: seq<Entry>, position: int, e: Entry): (r: Option<seq<Entry>>)
    ensures position > |list| ==> r == Some(list + [e])
    ensures 1 <= position <= |list| ==>
              r.Some? && |r.value| == |list| && r.value[position - 1] == e &&
              forall j :: 0 <= j < |list| && j != position - 1 ==> r.value[j] == list[j]
    ensures 1 - |list| <= position <= 0 ==>
              r.Some? && |r.value| == |list| && r.value[|list| + position - 1] == e &&
              forall j :: 0 <= j < |list| && j != |list| + position - 1 ==> r.value[j] == list[j]
    ensures r.None? <==> position < 1 - |list|
  {
    if position > |list| then Some(list + [e])
    else
      match PythonIndex(|list|, position - 1)
      case None => None
      case Some(k) => Some(list[k := e])
  }

  function Positions(list: seq<Entry>): (ps: seq<real>)
    ensures |ps| == |list|
  {
    seq(|list|, i requires 0 <= i < |list| => list[i].position as real)
  }

  function Heights(list: seq<Entry>): (hs: seq<real>)
    ensures |hs| == |list|
  {
    seq(|list|, i requires 0 <= i < |list| => list[i].height)
  }

  /** The detrended heights of a non-empty record. */
  function Detrended(list: seq<Entry>): (d: seq<real>)
    requires |list| > 0
    ensures |d| == |list|
  {
    LS.Detrend(Positions(list), Heights(list))
  }

  /** The min-max difference of the detrended heights. */
  function MinMax(list: seq<Entry>): (r: real)
    requires |list| > 0
    ensures r >= 0.0
  {
    LS.Spread(Detrended(list))
  }

  /** The plotted curve: positions scaled by the increment against the detrended heights. */
  function Curve(list: seq<Entry>, increment: real): (c: seq<Point>)
    requires |list| > 0
    ensures |c| == |list|
    ensures forall i :: 0 <= i < |c| ==>
              c[i].x == list[i].position as real * increment && c[i].y == Detrended(list)[i]
  {
    var d := Detrended(list);
    seq(|list|, i requires 0 <= i < |list| => Point(list[i].position as real * increment, d[i]))
  }

  /** np.polyfit divides each column of its Vandermonde matrix by the column's norm.
      When every stored position is 0 the position column has norm 0, the division
      yields NaN and the least-squares solver raises: the fit fails. */
  predicate FitFails(list: seq<Entry>)
  {
    forall i :: 0 <= i < |list| ==> list[i].position == 0
  }

  /** The two lists hold the same positions in the same order. */
  predicate Lockstep(xs: seq<Entry>, ys: seq<Entry>)
  {
    |xs| == |ys| && forall i :: 0 <= i < |xs| ==> xs[i].position == ys[i].position
  }

  /** The averaging loop: it walks the samples the live window offered during the
      timeframe and keeps the non-NaN peaks of each axis. */
  method CollectSamples(samples: seq<Sample>) returns (xs: seq<real>, ys: seq<real>)
    ensures xs == ValidPeaks(samples, X) && ys == ValidPeaks(samples, Y)
  {
    xs, ys := [], [];
    var i := 0;
    while i < |samples|
      invariant 0 <= i <= |samples|
      invariant xs == ValidPeaks(samples[..i], X)
      invariant ys == ValidPeaks(samples[..i], Y)
    {
      assert samples[..i + 1][..i] == samples[..i];
      if samples[i].peakX.Some? {
        xs := xs + [samples[i].peakX.value];
      }
      if samples[i].peakY.Some? {
        ys := ys + [samples[i].peakY.value];
      }
      i := i + 1;
    }
    assert samples[..i] == samples;
  }

  class StraightnessWindow {
    var measurementsX: seq<Entry>
    var measurementsY: seq<Entry>
    var currentPosition: int
    var minMaxX: real
    var minMaxY: real
    var curveX: seq<Point>
    var curveY: seq<Point>

    predicate Valid()
      reads this
    {
      Lockstep(measurementsX, measurementsY)
    }

    constructor()
      ensures Valid()
      ensures measurementsX == [] && measurementsY == [] && currentPosition == 1
      ensures minMaxX == 0.0 && minMaxY == 0.0 && curveX == [] && curveY == []
    {
      measurementsX, measurementsY := [], [];
      currentPosition := 1;
      minMaxX, minMaxY := 0.0, 0.0;
      curveX, curveY := [], [];
    }

    /** The "Take Measurement" button. The three text boxes arrive parsed (None when the
        text does not parse); samples are the live peaks the averaging loop observed. */
    method TakeMeasurement(increment: Option<real>, timeframe: Option<real>, position: Option<int>,
                           unit: string, samples: seq<Sample>) returns (outcome: Outcome)
      requires Valid()
      modifies this
      ensures Valid()
      ensures outcome == InvalidInput <==> increment.None? || timeframe.None? || position.None?
      ensures outcome == InvalidInput ==> unchanged(this)
      ensures outcome == PositionOutOfRange <==>
                increment.Some? && timeframe.Some? && position.Some? &&
                position.value < 1 - |old(measurementsX)|
      ensures outcome == PositionOutOfRange ==> unchanged(this)
      ensures outcome == FitFailed ==>
                var p, inc := position.value, increment.value;
                var hx := HeightDifference(Average(ValidPeaks(samples, X)), inc, unit);
                var hy := HeightDifference(Average(ValidPeaks(samples, Y)), inc, unit);
                Some(measurementsX) == StoreAt(old(measurementsX), p, Entry(p, hx)) &&
                Some(measurementsY) == StoreAt(old(measurementsY), p, Entry(p, hy)) &&
                FitFails(measurementsX) &&
                minMaxX == old(minMaxX) && minMaxY == old(minMaxY) &&
                curveX == old(curveX) && curveY == old(curveY) &&
                currentPosition == old(currentPosition)
      ensures outcome.Measured? ==>
                var p, inc := position.value, increment.value;
                var hx := HeightDifference(Average(ValidPeaks(samples, X)), inc, unit);
                var hy := HeightDifference(Average(ValidPeaks(samples, Y)), inc, unit);
                Some(measurementsX) == StoreAt(old(measurementsX), p, Entry(p, hx)) &&
                Some(measurementsY) == StoreAt(old(measurementsY), p, Entry(p, hy)) &&
                |measurementsX| > 0 && !FitFails(measurementsX) &&
                minMaxX == MinMax(measurementsX) && minMaxY == MinMax(measurementsY) &&
                outcome == Measured(minMaxX, minMaxY) &&
                curveX == Curve(measurementsX, inc) && curveY == Curve(measurementsY, inc) &&
                currentPosition == p + 1
    {
      if increment.None? || timeframe.None? || position.None? {
        return InvalidInput;
      }
      var xs, ys := CollectSamples(samples);
      var hx := HeightDifference(Average(xs), increment.value, unit);
      var hy := HeightDifference(Average(ys), increment.value, unit);
      outcome := Record(position.value, increment.value, hx, hy);
    }

    /** Stores the two height differences under position p and refreshes the curves, the
        min-max differences and the position counter. */
    method Record(p: int, inc: real, hx: real, hy: real) returns (outcome: Outcome)
      requires Valid()
      modifies this
      ensures Valid()
      ensures outcome == PositionOutOfRange <==> p < 1 - |old(measurementsX)|
      ensures outcome == PositionOutOfRange ==> unchanged(this)
      ensures outcome != InvalidInput
      ensures outcome == FitFailed <==>
                StoreAt(old(measurementsX), p, Entry(p, hx)).Some? &&
                FitFails(StoreAt(old(measurementsX), p, Entry(p, hx)).value)
      ensures outcome == FitFailed ==>
                Some(measurementsX) == StoreAt(old(measurementsX), p, Entry(p, hx)) &&
                Some(measurementsY) == StoreAt(old(measurementsY), p, Entry(p, hy)) &&
                minMaxX == old(minMaxX) && minMaxY == old(minMaxY) &&
                curveX == old(curveX) && curveY == old(curveY) &&
                currentPosition == old(currentPosition)
      ensures outcome.Measured? ==>
                Some(measurementsX) == StoreAt(old(measurementsX), p, Entry(p, hx)) &&
                Some(measurementsY) == StoreAt(old(measurementsY), p, Entry(p, hy)) &&
                |measurementsX| > 0 && !FitFails(measurementsX) &&
                minMaxX == MinMax(measurementsX) && minMaxY == MinMax(measurementsY) &&
                outcome == Measured(minMaxX, minMaxY) &&
                curveX == Curve(measurementsX, inc) && curveY == Curve(measurementsY, inc) &&
                currentPosition == p + 1
    {
      var newX := StoreAt(measurementsX, p, Entry(p, hx));
      var newY := StoreAt(measurementsY, p, Entry(p, hy));
      StorePreservesLockstep(measurementsX, measurementsY, p, hx, hy);
      if newX.None? {
        return PositionOutOfRange;
      }
      measurementsX, measurementsY := newX.value, newY.value;
      if FitFails(measurementsX) {
        return FitFailed;
      }
      Refresh(inc);
      currentPosition := p + 1;
      outcome := Measured(minMaxX, minMaxY);
    }

    /** Redraws both curves and recomputes both min-max differences from the stored lists. */
    method Refresh(inc: real)
      requires |measurementsX| > 0 && |measurementsY| > 0
      requires !FitFails(measurementsX)
      modifies this
      ensures measurementsX == old(measurementsX) && measurementsY == old(measurementsY)
      ensures currentPosition == old(currentPosition)
      ensures minMaxX == MinMax(measurementsX) && minMaxY == MinMax(measurementsY)
      ensures curveX == Curve(measurementsX, inc) && curveY == Curve(measurementsY, inc)
    {
      curveX, curveY := Curve(measurementsX, inc), Curve(measurementsY, inc);
      minMaxX, minMaxY := MinMax(measurementsX), MinMax(measurementsY);
    }

    /** The "Clear All Values" button. */
    method ClearAllValues()
      modifies this
      ensures Valid()
      ensures measurementsX == [] && measurementsY == [] && currentPosition == 1
      ensures minMaxX == 0.0 && minMaxY == 0.0 && curveX == [] && curveY == []
    {
      measurementsX, measurementsY := [], [];
      currentPosition := 1;
      minMaxX, minMaxY := 0.0, 0.0;
      curveX, curveY := [], [];
    }
  }

  // ---------------------------------------------------------------------------
  // Properties

  /** Storing the same position into both lists keeps them in lockstep, and either both
      stores succeed or both fail. */
  lemma StorePreservesLockstep(xs: seq<Entry>, ys: seq<Entry>, p: int, hx: real, hy: real)
    requires Lockstep(xs, ys)
    ensures StoreAt(xs, p, Entry(p, hx)).Some? <==> StoreAt(ys, p, Entry(p, hy)).Some?
    ensures StoreAt(xs, p, Entry(p, hx)).Some? ==>
              Lockstep(StoreAt(xs, p, Entry(p, hx)).value, StoreAt(ys, p, Entry(p, hy)).value)
  {
  }

  /** A stored entry carries the position it was stored under, and a successful store
      never shrinks the list. */
  lemma StoreKeepsPosition(list: seq<Entry>, p: int, h: real)
    requires StoreAt(list, p, Entry(p, h)).Some?
    ensures var r := StoreAt(list, p, Entry(p, h)).value;
            |list| <= |r| <= |list| + 1 && Entry(p, h) in r
  {
  }

  /** Measuring the same position twice, when it is in range or the next one past the
      end, stores it once and the latest value wins. */
  lemma OverwriteTwice(list: seq<Entry>, p: int, h1: real, h2: real)
    requires 1 <= p <= |list| + 1
    ensures var once := StoreAt(list, p, Entry(p, h1)).value;
            StoreAt(once, p, Entry(p, h2)) == StoreAt(list, p, Entry(p, h2))
  {
    var once := StoreAt(list, p, Entry(p, h1)).value;
    if p <= |list| {
      assert once == list[p - 1 := Entry(p, h1)];
      assert once[p - 1 := Entry(p, h2)] == list[p - 1 := Entry(p, h2)];
    } else {
      assert once == list + [Entry(p, h1)];
      assert once[p - 1 := Entry(p, h2)] == list + [Entry(p, h2)];
    }
  }

  /** A position more than one past the end is appended, and still past the end after
      that: measuring it twice stores two entries with the same position. */
  lemma DuplicateAppend(list: seq<Entry>, p: int, h1: real, h2: real)
    requires p > |list| + 1
    ensures var once := StoreAt(list, p, Entry(p, h1)).value;
            StoreAt(once, p, Entry(p, h2)) == Some(list + [Entry(p, h1), Entry(p, h2)])
  {
    var once := StoreAt(list, p, Entry(p, h1)).value;
    assert once + [Entry(p, h2)] == list + [Entry(p, h1), Entry(p, h2)];
  }

  /** One measurement at position 1 followed by one at position 0: the second store
      overwrites the last entry (index -1), leaving only position 0, and the fit fails. */
  lemma StoreAtZeroBreaksFit(h0: real, h: real)
    ensures StoreAt([Entry(1, h0)], 0, Entry(0, h)) == Some([Entry(0, h)])
    ensures FitFails([Entry(0, h)])
  {
    assert PythonIndex(1, -1) == Some(0);
    assert [Entry(1, h0)][0 := Entry(0, h)] == [Entry(0, h)];
  }

  /** NaN samples never count: the peaks kept are those of the non-NaN samples. */
  lemma {:induction false} NaNSamplesIgnored(samples: seq<Sample>, axis: Axis)
    ensures forall v :: v in ValidPeaks(samples, axis) <==>
              exists i :: 0 <= i < |samples| && Peak(samples[i], axis) == Some(v)
  {
    if |samples| > 0 {
      var init := samples[..|samples| - 1];
      NaNSamplesIgnored(init, axis);
      forall v ensures v in ValidPeaks(samples, axis) <==>
                       exists i :: 0 <= i < |samples| && Peak(samples[i], axis) == Some(v)
      {
        if exists i :: 0 <= i < |samples| && Peak(samples[i], axis) == Some(v) {
          var i :| 0 <= i < |samples| && Peak(samples[i], axis) == Some(v);
          if i < |samples| - 1 {
            assert init[i] == samples[i];
          }
        }
        if v in ValidPeaks(init, axis) {
          var i :| 0 <= i < |init| && Peak(init[i], axis) == Some(v);
          assert samples[i] == init[i];
        }
      }
    }
  }

  /** Appending a NaN sample leaves the average as it was. */
  lemma NaNSampleKeepsAverage(samples: seq<Sample>, axis: Axis, s: Sample)
    requires Peak(s, axis).None?
    ensures Average(ValidPeaks(samples + [s], axis)) == Average(ValidPeaks(samples, axis))
  {
    assert (samples + [s])[..|samples|] == samples;
  }

  /** With no valid sample the average is 0. */
  lemma AllNaNAveragesZero(samples: seq<Sample>, axis: Axis)
    requires forall i :: 0 <= i < |samples| ==> Peak(samples[i], axis).None?
    ensures Average(ValidPeaks(samples, axis)) == 0.0
  {
    NoValidPeaks(samples, axis);
  }

  lemma {:induction false} NoValidPeaks(samples: seq<Sample>, axis: Axis)
    requires forall i :: 0 <= i < |samples| ==> Peak(samples[i], axis).None?
    ensures ValidPeaks(samples, axis) == []
  {
    if |samples| > 0 {
      NoValidPeaks(samples[..|samples| - 1], axis);
    }
  }

  /** Samples 2, NaN, 4, NaN, 6 average to 4, not to 12 / 5. */
  lemma AverageExample()
    ensures Average(ValidPeaks([Sample(Some(2.0), None), Sample(None, None), Sample(Some(4.0), None),
                                Sample(None, None), Sample(Some(6.0), None)], X)) == 4.0
  {
    var s := [Sample(Some(2.0), None), Sample(None, None), Sample(Some(4.0), None),
              Sample(None, None), Sample(Some(6.0), None)];
    assert s[..1][..0] == [];
    assert ValidPeaks(s[..1], X) == [2.0];
    assert s[..2][..1] == s[..1];
    assert ValidPeaks(s[..2], X) == [2.0];
    assert s[..3][..2] == s[..2];
    assert ValidPeaks(s[..3], X) == [2.0, 4.0];
    assert s[..4][..3] == s[..3];
    assert ValidPeaks(s[..4], X) == [2.0, 4.0];
    assert s[..4] == s[..|s| - 1];
    assert ValidPeaks(s, X) == [2.0, 4.0, 6.0];
    assert LS.Sum([2.0, 4.0, 6.0]) == 12.0;
  }

  /** When every stored height lies on a line in the position, the detrended curve is flat
      at zero and the min-max difference is 0. */
  lemma StraightRecordReadsZero(list: seq<Entry>, a: real, b: real)
    requires |list| > 0
    requires forall i :: 0 <= i < |list| ==> list[i].height == a + b * (list[i].position as real)
    ensures forall i :: 0 <= i < |list| ==> Detrended(list)[i] == 0.0
    ensures MinMax(list) == 0.0
  {
    LS.DetrendOfLine(Positions(list), Heights(list), a, b);
    LS.SpreadOfLineIsZero(Positions(list), Heights(list), a, b);
  }

  /** The plotted detrended heights balance around zero: they sum to 0. */
  lemma CurveBalanced(list: seq<Entry>, increment: real)
    requires |list| > 0
    ensures var c := Curve(list, increment);
            LS.Sum(seq(|c|, i requires 0 <= i < |c| => c[i].y)) == 0.0
  {
    var c := Curve(list, increment);
    assert seq(|c|, i requires 0 <= i < |c| => c[i].y) == Detrended(list);
    LS.NormalEquations(Positions(list), Heights(list));
  }
}
