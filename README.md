# Advanced confidence estimator of the crash-game predictor

This project models `compute_advanced_confidence` from `app.py`. The function
takes a chronological series of observed multipliers, a threshold (default
2.0) and a trend window (default 5). It returns a triple
`(above_conf, under_conf, risk)`:

- `above_conf` is the share of observations strictly above the threshold,
  nudged by two signals and clamped to [0,1].
- The trend bias (±0.05) comes from the most recent `trend_window`
  observations.
- The streak-reversal bias (±0.08) applies when the trailing run on one side of
  the threshold is at least 3 long.
- `under_conf` is `1 - above_conf`.
- `risk` is one of four fixed label strings.

Everything lives in one module, `Confidence` (`confidence.dfy`):

- Observations and the threshold are `real`.
- The result is the datatype `Forecast(aboveConf, underConf, risk)`.
- The label is the enumeration `Risk`. Its `Text()` gives the exact strings
  the source returns: "Neutral", "Low risk for Above 2",
  "Low risk for Under 2" and "High risk / uncertain".

The source mixes two styles, and the model follows it:

- The counts, window, trend bias, streak bias, clamp and label are
  straight-line code. They are pure functions here.
- The streak is a backward `for` loop with an early `break`. It is the method
  `Streak`, whose loop invariants prove that it computes `TrailingRun`. That
  is a pure recursive definition of the trailing run, which the lemmas show
  is the unique maximal run.
- `ComputeAdvancedConfidence` runs the steps in the source's order and is
  proved equal to the function `Confidence`. All the whole-result properties
  are stated on `Confidence`.

The model follows the code as written:

- The labels keep the literal "2" even for other thresholds.
- `base_under` (app.py:22) is computed but never used, so it is not modelled.

## Model

| member | source | states |
|---|---|---|
| `Confidence.CountAbove` | app.py:18 | the number of observations strictly above the threshold is at most the length, and equals it exactly when every observation is above |
| `Confidence.CountUnder` | app.py:19 | the number of observations at or below the threshold is at most the length, and equals it exactly when every observation is at or below |
| `Confidence.CountsPartition` | app.py:18-20 | `above + under` equals the series length (`total` is the length for real-valued input) |
| `Confidence.CountsAppend` | app.py:18-19 | appending one observation adds one to the count of its own side and leaves the other count unchanged |
| `Confidence.BaseAbove` | app.py:20-21 | `base_above` lies in [0,1] and equals `above / len`; it is 1 exactly when every observation is above and 0 exactly when none is |
| `Confidence.AppendAboveRaisesBase` | app.py:18-21 | appending an observation above the threshold never lowers `base_above` |
| `Confidence.AppendUnderLowersBase` | app.py:18-21 | appending an observation at or below the threshold never raises `base_above` |
| `Confidence.Recent` | app.py:25 | the recent window is the suffix of the series of length `min(trend_window, len)`: the last `trend_window` elements, or the whole series when it is shorter |
| `Confidence.TrendBias` | app.py:26-33 | the trend bias is +0.05 iff recent-under exceeds recent-above, -0.05 iff recent-above exceeds recent-under, and 0 iff they are equal |
| `Confidence.SameSide` | app.py:39 | the pair test (both above, or both at or below) holds iff the two observations agree on "above the threshold" |
| `Confidence.TrailingRun` | app.py:36-42 | the trailing-run length of a non-empty series lies between 1 and the series length |
| `Confidence.TrailingRunIsMaximal` | app.py:37-42 | `TrailingRun` is the maximal trailing run: its last elements are all on the last element's side, and the element just before them, if any, is not |
| `Confidence.TrailingRunUnique` | app.py:37-42 | any length that has the maximal-trailing-run property equals `TrailingRun` |
| `Confidence.Streak` | app.py:36-42 | the backward scan with early break returns `streak` with `1 <= streak <= len`, equal to the maximal trailing run (so length 1 gives 1) |
| `Confidence.StreakBias` | app.py:43-47 | the streak bias is nonzero iff `streak >= 3`; it is +0.08 iff the run is at least 3 and the last element is at or below the threshold, and -0.08 iff the run is at least 3 and the last element is above |
| `Confidence.ShortRunNoStreakBias` | app.py:38-47 | when the last two observations lie on different sides, the scan stops at once (the streak is 1) and there is no streak bias |
| `Confidence.Clamp` | app.py:50 | `min(max(x, 0), 1)` lies in [0,1], is `x` inside it, and is 0 below it and 1 above it (saturation) |
| `Confidence.RiskOf` | app.py:53-59 | the label is "Low risk for Above 2" iff `above_conf > 0.65`, "Low risk for Under 2" iff `above_conf < 0.35`, "High risk / uncertain" iff `0.35 <= above_conf <= 0.65`, and never "Neutral"; each tier is stated both on the `Risk` value and on its exact text (`Risk.Text`) |
| `Confidence.AboveConfidence` | app.py:29-50 | for a non-empty series the clamped confidence lies in [0,1] and within 0.13 of `base_above` (the two biases together move it by at most 0.05 + 0.08) |
| `Confidence.Confidence` | app.py:12-61 | with `threshold` 2.0 and `trend_window` 5 as default arguments, the empty series gives exactly `(0.5, 0.5, "Neutral")`, and the text "Neutral" occurs only then; both confidences lie in [0,1] and sum to 1; the label tiers hold iff the cut-offs hold, and "Low risk for Under 2" holds iff `under_conf > 0.65` |
| `Confidence.ComputeAdvancedConfidence` | app.py:12-61 | with the same default arguments, the step-by-step computation, with the streak from the backward scan, returns exactly `Confidence(data, threshold, trend_window)` |
| `Confidence.OneSidedSignals` | app.py:18-42 | for a series entirely on one side of the threshold: base frequency 1 (or 0), trend bias -0.05 (or +0.05), and the trailing run is the whole series |
| `Confidence.AllAboveForecast` | app.py:12-61 | three or more observations, all above the threshold, give exactly `(0.87, 0.13, "Low risk for Above 2")` |
| `Confidence.AllUnderForecast` | app.py:12-61 | three or more observations, all at or below the threshold, give exactly `(0.13, 0.87, "Low risk for Under 2")` |
| `Confidence.MostlyUnderExample` | app.py:12-61 | `[1, 1, 1, 1, 3]` with threshold 2 and window 5 gives `(0.25, 0.75, "Low risk for Under 2")` |

## Left out

- `load_csv` (app.py:7-10) is left out. It reads a CSV file through pandas behind a Streamlit cache, which is file I/O through library code. The series is a parameter instead.
- `risk_bar` (app.py:63-69) is left out. It is matplotlib rendering.
- `main` (app.py:71-121) is left out. It is Streamlit widgets and display. This includes the `float(new_val)` parse with its bare `except` (app.py:87-92), which is Python's builtin parsing inside UI code.
- IEEE-754 floating point and NaN are not modelled, because observations are `real`:
  - With NaN, neither `> threshold` nor `<= threshold` holds, so the two counts no longer sum to the length.
  - An all-NaN series divides 0 by 0.
  - The sum-to-1 identity and the exact results are proved over the reals only. Doubles can differ from them: a base of 7/10 with a trend bias of -0.05 gives 0.6499999999999999 in doubles, against 0.65 over the reals.
- Python's numeric types are not modelled. The source can return integers (`max(x, 0)` may return the int 0, and `1 - 0`). These are equal in value to the reals the model returns.
- A trend window below 1 is excluded by a precondition. Python slicing gives odd results there (`data[-0:]` is the whole series).
- Idempotence (two identical calls give identical results) has no lemma of its own. It holds by construction, because the model is a function of its inputs.

## Findings

None: no discrepancy between the code and its evident intent was found.
