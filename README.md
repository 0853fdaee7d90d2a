# Autocollimator bookkeeping, modelled in Dafny

The Autocollimator program watches a reflected beam with a camera. It turns each frame
into a peak position per axis, shows live peak histories against a zero reference, and
records a straightness profile: one averaged height difference per stage position,
detrended with a least-squares line and summarised by its min-max difference. This
project models the bookkeeping around the optics and proves what it promises:

- `Straightness`: the straightness window. Its `take_measurement` parses three inputs,
  averages the non-NaN live peaks, converts the average to microns on request and stores
  it into two lists kept in lockstep, one per axis (append past the end, otherwise
  overwrite). It then redraws the detrended curves, recomputes both min-max differences
  and advances the position counter. `clear_all_values` resets the record.
- `LeastSquares`: degree-1 least squares in closed form over `real` (the
  `polyfit`/`polyval` detrend) and the max − min spread. It proves the normal equations,
  that the line minimises the squared residuals, and that values already on a line
  detrend to zero.
- `LiveWindow`: the live window's fields (zero references, peak histories, averaging
  flag and accumulators, FPS counter) and the buttons and timer branch that update them.
  The program reads two clocks, one in nanoseconds and one in seconds. Both readings are
  parameters.
- `ImageProcessing`: the processor-type dispatch and the Gaussian processor's frame
  handling: column and row projections, the fit's initial guess, and the rule
  "centre × conversion factor, or NaN when the fit raises a RuntimeError". The curve fit
  is a parameter (an oracle).
- `ConfigIni`: the configuration reader's process-wide cache and its string helpers:
  the caret substitution, the timestamp placeholder, the boolean test, and the
  split-and-dispatch of a "value unit" string to the first base unit that accepts it.
  The file parser and the unit library are parameters.
- `Wrappers`: `Option` and `Result`.

NaN is `None` in an `Option<real>`. Floating-point numbers are `real`. A Python
exception is an `Err` of a `Result`, or a named outcome where the program catches it and
returns.

Notable behaviours of the code, which the model keeps:

- A unit other than "microns" stores the average unchanged. Unknown unit text is not
  refused.
- A position more than one past the end is appended as the next entry. No gap is
  created.
- Such a position is still past the end after the append. Measuring it again appends a
  second entry with the same position instead of overwriting the first.
- A position of 0 or below reaches Python's negative indexing. It either overwrites an
  entry counted from the end or raises an IndexError.
- When every stored position is 0 (for example one measurement at position 1, then one
  at position 0), `np.polyfit` divides the position column by its zero norm and fails.
  The lists have already been stored at that point, but the curves, the min-max
  differences and the position counter are not updated. The model reports this as the
  outcome `FitFailed`.
- A fit failure other than RuntimeError propagates out of `process_frame`, and only a
  RuntimeError becomes NaN.
- The periodic update measures FPS time in seconds. The reset buttons store a
  nanosecond reading as the FPS start time, so after either reset the FPS display does
  not refresh again.

## Model

| member | source | states |
|---|---|---|
| Straightness.ValidPeaks | src/win_straightness.py:115-119 | the kept values of one axis, at most one per sample; NaNSamplesIgnored says which |
| Straightness.CollectSamples | src/win_straightness.py:115-119 | the averaging loop keeps exactly the non-NaN X peaks and the non-NaN Y peaks, each in sampling order |
| Straightness.NaNSamplesIgnored | src/win_straightness.py:115-119 | a value is kept for an axis iff some sample carries it as a non-NaN peak of that axis |
| Straightness.NaNSampleKeepsAverage | src/win_straightness.py:115-122 | a further NaN sample leaves the axis average unchanged (NaN never counts as zero) |
| Straightness.AllNaNAveragesZero | src/win_straightness.py:121-122 | when no sample of an axis is valid its average is exactly 0 |
| Straightness.Average | src/win_straightness.py:121-122 | 0 for no values, otherwise the value whose count-fold is the sum of the values (the mean) |
| Straightness.AverageExample | src/win_straightness.py:115-122 | samples 2, NaN, 4, NaN, 6 average to 4 |
| Straightness.HeightDifference | src/win_straightness.py:125-130 | any unit text other than "microns" keeps the average; with "microns" the value avg·π·increment·1e6/(3600·180) is turned back into the average by the inverse conversion, for a non-zero increment |
| Straightness.PythonIndex | src/win_straightness.py:137-138 | list index i on length n is valid iff -n <= i < n, and a negative index counts from the end |
| Straightness.StoreAt | src/win_straightness.py:133-138 | position > length appends exactly one entry; 1 <= position <= length replaces entry position-1 only; 1-length <= position <= 0 replaces the entry counted from the end; an IndexError happens iff position < 1-length |
| Straightness.StorePreservesLockstep | src/win_straightness.py:133-138 | storing one position into both lists succeeds for both or neither and keeps them equally long with equal positions |
| Straightness.StoreKeepsPosition | src/win_straightness.py:133-138 | a successful store contains the new (position, value) entry and grows the list by at most one |
| Straightness.OverwriteTwice | src/win_straightness.py:133-138 | storing a position twice, when it is in range or the next past the end, equals storing only the latest value |
| Straightness.DuplicateAppend | src/win_straightness.py:133-135 | storing a position more than one past the end twice appends two entries with that position |
| Straightness.StoreAtZeroBreaksFit | src/win_straightness.py:137-142 | after one measurement at position 1, a measurement at position 0 overwrites it through index -1, leaving only position 0, where the fit fails |
| Straightness.MinMax | src/win_straightness.py:152-154 | the min-max difference of the detrended heights is never negative |
| Straightness.Curve | src/win_straightness.py:148-149 | one point per stored entry: position × increment against that entry's detrended height |
| Straightness.CurveBalanced | src/win_straightness.py:141-149 | the plotted detrended heights sum to zero |
| Straightness.StraightRecordReadsZero | src/win_straightness.py:141-155 | heights lying on a line in the positions detrend to all zeros and a min-max difference of 0 |
| Straightness.StraightnessWindow.constructor | src/win_straightness.py:20-22 | the window starts with two empty lists and position counter 1 |
| Straightness.StraightnessWindow.TakeMeasurement | src/win_straightness.py:98-159 | the early return happens exactly when an input does not parse, and changes nothing; an IndexError occurs exactly for position < 1-length and changes nothing; when every stored position ends up 0 the lists are stored but the fit fails, leaving curves, min-max differences and counter unchanged; otherwise both lists are the stores of the converted averages, both curves and min-max differences are recomputed, the counter is position+1, and the lists stay in lockstep |
| Straightness.StraightnessWindow.Record | src/win_straightness.py:133-158 | stores both height differences, then refreshes the derived values and advances the counter; fails with nothing changed exactly when the index is out of range; fails after the store, with derived values and counter unchanged, exactly when every stored position is 0 |
| Straightness.StraightnessWindow.Refresh | src/win_straightness.py:141-155 | for a record the fit accepts, the curves and min-max differences are those of the stored lists, and the lists and counter are untouched |
| Straightness.StraightnessWindow.ClearAllValues | src/win_straightness.py:161-176 | both lists are emptied, the counter is 1 and the displays are zero; the whole new state is fixed, so a second call changes nothing |
| LeastSquares.Detrend | src/win_straightness.py:142 | one residual per value: the centred value minus the slope times the centred position (the line passes through the centroid) |
| LeastSquares.NormalEquations | src/win_straightness.py:141-145 | the detrended values sum to zero and are orthogonal to the centred positions |
| LeastSquares.DetrendIsCentred | src/win_straightness.py:141-145 | the detrended values are the centred heights minus the slope times the centred positions |
| LeastSquares.LeastSquaresOptimal | src/win_straightness.py:142 | no line a + b·x leaves a smaller sum of squared residuals than the detrend line |
| LeastSquares.DetrendOfLine | src/win_straightness.py:141-145 | values exactly on a line detrend to all zeros |
| LeastSquares.Max | src/win_straightness.py:152 | np.max is an element of the values and at least every value |
| LeastSquares.Min | src/win_straightness.py:152 | np.min is an element of the values and at most every value |
| LeastSquares.Spread | src/win_straightness.py:152-154 | max − min is non-negative and zero iff all values are equal |
| LeastSquares.SpreadOfLineIsZero | src/win_straightness.py:152-154 | the spread of the detrended values of points on a line is zero |
| LiveWindow.FpsTick | src/win_live.py:143-150 | after more than three seconds the count restarts at 0 from the current reading and the shown rate is frames / elapsed; otherwise the counter is unchanged; afterwards at most three seconds have elapsed |
| LiveWindow.FpsTickIdempotent | src/win_live.py:144-150 | a second tick at the same reading changes nothing |
| LiveWindow.FpsStallsAfterReset | src/win_live.py:144-160 | after a reset stores the nanosecond reading 10^9·t as the start time, no update whose seconds reading is below 10^9·t refreshes the counter, so the FPS display stops refreshing |
| LiveWindow.FpsRefreshesWithSecondsClock | src/win_live.py:144-150 | with a start time in seconds, an update more than three seconds later restarts the count |
| LiveWindow.AutocollimatorLiveWindow.constructor | src/win_live.py:11-32 | empty histories, zeros 0, averaging off with empty accumulators, latest peaks 0, frame count 0 from the seconds clock |
| LiveWindow.AutocollimatorLiveWindow.UpdateFps | src/win_live.py:143-150 | the FPS counter follows FpsTick and every other field is unchanged |
| LiveWindow.AutocollimatorLiveWindow.ResetXPeakPosition | src/win_live.py:152-160 | the X zero becomes the latest X peak, the X history is emptied, the start time takes the nanosecond reading, and all Y, averaging and latest-peak state is unchanged |
| LiveWindow.AutocollimatorLiveWindow.ResetYPeakPosition | src/win_live.py:162-170 | the Y counterpart: Y zero, Y history and start time change, X state is unchanged |
| LiveWindow.AutocollimatorLiveWindow.StartAveraging | src/win_live.py:173-180 | averaging is on, both accumulators are empty, the start is the given reading, zeros, histories and the FPS counter are unchanged |
| ImageProcessing.IntensityX | src/image_processing.py:53 | one entry per column |
| ImageProcessing.IntensityY | src/image_processing.py:54 | one entry per row |
| ImageProcessing.ColumnTotal | src/image_processing.py:53 | the X profile sums to the frame's total intensity |
| ImageProcessing.RowTotal | src/image_processing.py:54 | the Y profile sums to the frame's total intensity |
| ImageProcessing.ProfilesPreserveTotal | src/image_processing.py:53-54 | both profiles have the same sum, the total intensity |
| ImageProcessing.MaxOf | src/image_processing.py:59 | np.max is an entry of the profile and at least every entry |
| ImageProcessing.ArgMax | src/image_processing.py:59 | np.argmax is a valid index holding the maximum, and no earlier index holds it |
| ImageProcessing.InitialGuess | src/image_processing.py:59 | the guess is (maximum, first index of the maximum, 10) |
| ImageProcessing.AxisPeak | src/image_processing.py:57-62 | an empty profile fails, a fitted centre gives centre × factor, a RuntimeError gives NaN, any other failure propagates |
| ImageProcessing.Analyse | src/image_processing.py:53-72 | the frame's result is the pair of axis results, it fails iff one axis fails, and the X failure comes first |
| ImageProcessing.EmptyFrameFails | src/image_processing.py:53-59 | a frame without rows or without columns makes the call fail: an empty profile reaches np.max |
| ImageProcessing.XFailureKeepsY | src/image_processing.py:58-70 | a RuntimeError on the X axis gives NaN for X while a successful Y fit still gives the Y centre × factor |
| ImageProcessing.CheckProcessorType | src/image_processing.py:18-30 | only "Gaussian" is accepted; a name outside the three known ones is a ValueError; "CircleFit" and "Linefit" are not implemented |
| ImageProcessing.GaussianProcessor.constructor | src/image_processing.py:39-45 | keeps the conversion factor, no latest frame |
| ImageProcessing.GaussianProcessor.ProcessFrame | src/image_processing.py:49-72 | records the frame as it was given and returns the two axis results |
| ImageProcessing.ImageProcessor.constructor | src/image_processing.py:15-24 | keeps the conversion factor and the Gaussian processor |
| ImageProcessing.ImageProcessor.Create | src/image_processing.py:8-30 | builds a processor iff the type is "Gaussian", with the given conversion factor; otherwise returns the type error |
| ImageProcessing.ImageProcessor.ProcessFrame | src/image_processing.py:32-36 | returns exactly the inner processor's result |
| ConfigIni.ReplaceAll | src/config_ini.py:42 | str.replace keeps the length when the replacement is as long as the pattern and never lengthens the text when it is shorter |
| ConfigIni.ReplacedPatternGone | src/config_ini.py:42 | no occurrence of the pattern survives str.replace when pattern and replacement cannot be spliced into a new occurrence |
| ConfigIni.ReplaceAbsent | src/config_ini.py:42 | str.replace leaves a text without the pattern unchanged |
| ConfigIni.ReplaceLeading | src/config_ini.py:42 | str.replace replaces an occurrence at the front and resumes after it (non-overlapping) |
| ConfigIni.ReplaceCaret | src/config_ini.py:102-103 | the result contains no '^', and caret-free input is returned unchanged |
| ConfigIni.ReplaceCaretCounts | src/config_ini.py:102-103 | output length is input length plus the number of carets; each caret adds two asterisks |
| ConfigIni.ReplaceCaretAppend | src/config_ini.py:102-103 | the substitution works piece by piece, so other characters keep their order |
| ConfigIni.ReplaceCaretIsReplace | src/config_ini.py:102-103 | the character-wise substitution equals value.replace("^", "**") |
| ConfigIni.Timestamp | src/config_ini.py:41 | the timestamp is 19 characters, hyphens at 4, 7, 13, 16, an underscore at 10, digits elsewhere |
| ConfigIni.TimestampRoundTrip | src/config_ini.py:41 | the timestamp text determines the clock reading |
| ConfigIni.NoPlaceholderUnchanged | src/config_ini.py:40-42 | a value without the placeholder is returned unchanged |
| ConfigIni.LeadingPlaceholderReplaced | src/config_ini.py:40-42 | a leading placeholder becomes the timestamp and the rest is processed in turn |
| ConfigIni.ReplaceTimestampPlaceholder | src/config_ini.py:40-42 | no placeholder is left after filling in the timestamp, and the text never grows |
| ConfigIni.IsTrue | src/config_ini.py:110 | the value is true iff it is "true" in any mix of letter cases |
| ConfigIni.IsTrueExamples | src/config_ini.py:110 | "TRUE" and "True" are true; "yes", "1", "false" and " true" are not |
| ConfigIni.WordLength | src/config_ini.py:49 | the leading word is a maximal run of non-whitespace |
| ConfigIni.Words | src/config_ini.py:49 | str.split() yields non-empty words without whitespace |
| ConfigIni.WordsOfJoin | src/config_ini.py:49 | splitting words joined by spaces gives back the words |
| ConfigIni.FirstConvertible | src/config_ini.py:60-67 | the chosen base unit converts and no earlier one does; none is chosen iff none converts |
| ConfigIni.ConvertSpec | src/config_ini.py:44-71 | anything but two words is refused; a result needs a number and a known unit; a frequency unit comes back as "hertz"; any other unit comes back as its conversion to some base unit; "unsupported" only when no base unit accepts it |
| ConfigIni.NeedsTwoTokens | src/config_ini.py:49 | a string that does not split into exactly two words is refused |
| ConfigIni.EarliestBaseUnitWins | src/config_ini.py:26-35 | a non-frequency unit converts to the earliest base unit, in declared order, that accepts it |
| ConfigIni.ConfigCache.constructor | src/config_ini.py:11 | the class-level cache starts empty |
| ConfigIni.ConfigReader.constructor | src/config_ini.py:13-35 | the first reader parses its file and fills the cache; every later reader takes the cached configuration whatever its file, and keeps its own path and the base units |
| ConfigIni.ConfigReader.Lookup | src/config_ini.py:96 | config.get returns the stored value, or fails iff the section/option pair is absent |
| ConfigIni.ConfigReader.GetValue | src/config_ini.py:95-100 | the raw value with "^" replaced by "**" (no caret left), failing iff the option is absent |
| ConfigIni.ConfigReader.GetBool | src/config_ini.py:105-110 | true iff the lowercased value is "true", failing iff the option is absent |
| ConfigIni.ConfigReader.GetFileName | src/config_ini.py:119-122 | the raw value with every placeholder replaced by the timestamp, no placeholder left, failing iff the option is absent |
| ConfigIni.ConfigReader.ConvertToBaseUnits | src/config_ini.py:44-71 | the loop returns what the split, parse, frequency shortcut and first-match rule prescribe, including each error |

## Left out

- The Gaussian curve fit (`curve_fit` and the `exp` model) is an oracle: it returns a centre, a RuntimeError or another failure. Its numerics are not modelled.
- `np.polyfit`/`np.polyval` are modelled as exact least squares over `real`, without floating-point rounding. When every position is the same non-zero value, numpy warns and the model uses slope 0. Both give the same fitted values: the projection onto the constant sequences. When every position is 0, numpy's column scaling fails; the model reports `FitFailed` and does not compute a line.
- Straightness.StraightnessWindow.Record: the fit failure is an exception in the source, which propagates out of the button handler. The model returns `FitFailed` with the state the source leaves behind.
- Straightness.StraightnessWindow.TakeMeasurement: the three text boxes arrive as already parsed numbers. Text such as "nan" or "inf", which Python's float() accepts, has no counterpart among the reals.
- Floating point in general: NaN is `None`, and rounding and overflow are absent.
- Straightness.CollectSamples: the busy-wait loop runs until `timeframe` seconds have passed and reads the live window from another thread. Here the samples it observed are an input sequence, and `timeframe` only needs to parse. Timing and concurrency are not modelled.
- Straightness.StraightnessWindow.TakeMeasurement: the label text (`:.2f`), the position text box and the Qt curve objects are not modelled. The curves are kept as point sequences and the min-max values as numbers.
- LiveWindow: the periodic update's image, profile, peak-line and history redraws, the FPS label text, the frame counter's increments (not part of this source) and the Qt timer are not modelled. The two clocks are parameters.
- ImageProcessing: a frame is a grid of integers. Colour channels and numpy dtypes (integer wrap-around in `np.sum`) are not modelled. `gaussian` is part of the oracle.
- ConfigIni: configparser (file reading, extended interpolation), pint (quantity parsing and conversion), logging and `datetime.now()` are parameters or left out. `get_config`, `get_path` (`os.path.expandvars`), `get_converted_value` and `get_converted_value_with_unit` are thin wrappers over these and are not modelled. The identity of the shared config object is modelled as equality of its contents.
- ConfigIni.Lower: lowercasing is ASCII only. No non-ASCII character lowercases to one of "true", so `get_bool` is exact.
- ConfigIni.Words: whitespace is the ASCII whitespace set plus the separators 0x1C-0x1F. Python's non-ASCII whitespace is not modelled.
- ConfigIni.Timestamp: only four-digit years are modelled. How strftime pads years below 1000 depends on the platform.
- src/image_aquisition.py (camera driver), src/main.py, src/test.py and src/utils.py (screen grabs) are not part of this model.
