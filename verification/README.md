# kand indicator kernels in Dafny

This project models eight technical-analysis kernels of the `kand` library:

- the simple moving average (SMA);
- the accumulation/distribution line (A/D);
- Heikin-Ashi candles (HA);
- the weighted moving average (WMA);
- the rate of change in percent (ROCP);
- the average daily range (ADR);
- the A/D oscillator (ADOSC), with the exponential moving average (EMA) it is built on;
- the rolling Pearson correlation (CORREL).

Every kernel has three entry points in the source, and the model keeps all three:

- a **lookback** function: how many leading outputs have no value;
- a **batch** routine: it validates its inputs, then fills caller-supplied output buffers in place;
- a **streaming step** (`*_inc`): it computes the next value from the previous one and the samples entering and leaving the window.

How the model represents the source:

- **Values.** `TAFloat` is modelled as `real`. A slot of an input or output buffer is a `Val`, either `Num(v)` or `NaN`.
- **Buffers.** Input slices are `seq<Val>`. Output buffers are `array<Val>`, and the batch methods write them in place.
- **Cargo features.** The `check`, `check-nan` and `allow-nan` features become the three fields of a `Config` value that every call receives.
- **Validation.** Each kernel lists its checks in the order the source runs them (`Checks`). `FirstFailure` returns the error of the first check that fails, or `Ok` when none does.
  - Every batch method is proved to return exactly that result, and to leave all of its buffers untouched on error.
  - With `check` off, the source indexes its buffers unguarded. The model then requires the parameters and lengths under which it does not panic.
- **Window definitions.** Each kernel has a definition per index (`SmaAt`, `AdAt`, `HaAt`, `WmaAt`, `RocpAt`, `AdrAt`, `Ema.EmaAt`, `AdoscAt`, `CorrelAt`), written over the whole window.
  - Each batch method is proved equal to that definition.
  - Each streaming step is proved to turn the batch value at `i - 1` into the batch value at `i`.
- **Shared sums.** Window sums and their sliding algebra live in module `Sums`. The result type, the checks and `FirstFailure` live in module `Kand`.

## Model

| member | source | states |
|---|---|---|
| Sma.LookbackRaw | kand/src/ta/ohlcv/sma.rs:12-14 | the unchecked lookback is one less than the period |
| Sma.Lookback | kand/src/ta/ohlcv/sma.rs:22-30 | fails with InvalidParameter exactly when `check` is on and period < 2; otherwise period - 1 |
| Sma.SmaRaw | kand/src/ta/ohlcv/sma.rs:41-53 | the seed sum followed by the sliding loop leaves the mean of the `period` samples ending at i at every index from period - 1; earlier entries untouched |
| Sma.Sma | kand/src/ta/ohlcv/sma.rs:70-108 | the result is the first failing check in source order, and on error no output changes; on success, every index from period - 1 holds the window mean, and earlier entries are NaN under `allow-nan` and untouched otherwise |
| Sma.SmaIncRaw | kand/src/ta/ohlcv/sma.rs:118-125 | the documented update: the change of the mean times the period is the entering sample minus the leaving one, so equal samples leave the mean unchanged |
| Sma.SmaInc | kand/src/ta/ohlcv/sma.rs:139-160 | fails exactly when period < 2 under `check` (InvalidParameter) or an argument is NaN under `check-nan` (NaNDetected); otherwise the previous mean moved by (new - old) / period |
| Sma.SmaIncMatchesBatch | kand/src/ta/ohlcv/sma.rs:118-160 | fed sample i, sample i - period and the batch SMA at i - 1, the streaming step returns the batch SMA at i |
| Sma.SmaOfConstant | kand/src/ta/ohlcv/sma.rs:57 | the SMA of a window of equal samples is that sample |
| Ad.Lookback | kand/src/ta/ohlcv/ad.rs:19-21 | the A/D line has no lookback |
| Ad.AdRaw | kand/src/ta/ohlcv/ad.rs:42-62 | each output is the running total of the money-flow volumes from the lookback up to its index; earlier entries untouched |
| Ad.Ad | kand/src/ta/ohlcv/ad.rs:112-160 | the result is the first failing check (empty input, length mismatch, NaN), and on error the output is unchanged; on success every output is the A/D line at its index |
| Ad.AdIncRaw | kand/src/ta/ohlcv/ad.rs:191-205 | the documented update: the previous A/D plus the money-flow multiplier ((close - low) - (high - close)) / (high - low) times volume, and the previous A/D unchanged when high equals low |
| Ad.AdInc | kand/src/ta/ohlcv/ad.rs:191-264 | fails, with NaNDetected, exactly when `check-nan` is on and an argument is NaN; otherwise the previous A/D plus the bar's money-flow volume |
| Ad.ZeroRangeKeepsAd | kand/src/ta/ohlcv/ad.rs:198-204 | a bar with high == low has multiplier 0 and leaves the A/D value unchanged |
| Ad.MfmBounds | kand/src/ta/ohlcv/ad.rs:69-81 | for a close inside a non-empty range, the money-flow multiplier lies in [-1, 1] |
| Ad.MfmAtExtremes | kand/src/ta/ohlcv/ad.rs:69-81 | a close at the low gives multiplier -1 and a close at the high gives +1 |
| Ad.AdIncMatchesBatch | kand/src/ta/ohlcv/ad.rs:384-396 | fed bar i and the batch A/D at i - 1, the streaming step returns the batch A/D at i |
| Ad.AdFirstTestValue | kand/src/ta/ohlcv/ad.rs:273-298 | the first bar of the test data (close at its low) gives A/D = -volume = -1055.365 |
| Ad.AdDocExample | kand/src/ta/ohlcv/ad.rs:96-110 | the documented three-bar input gives the A/D line [0, 50, 50] |
| Ha.Lookback | kand/src/ta/ohlcv/ha.rs:14-16 | the lookback is 1 |
| Ha.HaIncRaw | kand/src/ta/ohlcv/ha.rs:25-31 | close is the mean of the bar's four prices; open is the midpoint of the previous HA open and close; high is the largest of the bar's high and the new open and close, and low the smallest of its low and them |
| Ha.HaInc | kand/src/ta/ohlcv/ha.rs:192-220 | fails, with NaNDetected, exactly when `check-nan` is on and an argument is NaN; otherwise the candle above |
| Ha.HaFirst | kand/src/ta/ohlcv/ha.rs:124-127 | the first candle keeps the bar's high and low, its open is (open + close) / 2 and its close is the four-price mean |
| Ha.HaRaw | kand/src/ta/ohlcv/ha.rs:124-144 | all four output buffers hold the HA candle of every index |
| Ha.Ha | kand/src/ta/ohlcv/ha.rs:77-147 | the result is the first failing check, and on error no buffer changes; on success every index holds its HA candle |
| Ha.HaIncMatchesBatch | kand/src/ta/ohlcv/ha.rs:263-280 | fed bar i and the previous HA open and close, the streaming step returns the batch candle at i |
| Ha.HaWellFormed | kand/src/ta/ohlcv/ha.rs:130-144 | if the first bar is well formed (low ≤ open, close ≤ high), every HA candle is, and it covers its bar's own range |
| Ha.HaFirstNotWidened | kand/src/ta/ohlcv/ha.rs:124-127 | the first candle is not widened: a bar with open above its high gives an HA candle whose open exceeds its high |
| Ha.HaOpenIgnoresBar | kand/src/ta/ohlcv/ha.rs:25-31 | an HA open depends only on the earlier bars |
| Ha.HaPrefix | kand/src/ta/ohlcv/ha.rs:130-144 | an HA candle depends only on the bars up to its index |
| Ha.HaTestValues | kand/src/ta/ohlcv/ha.rs:251-261 | the test's first two expected candles |
| Wma.Lookback | kand/src/ta/ohlcv/wma.rs:26-34 | fails with InvalidParameter exactly when `check` is on and period < 2; otherwise period - 1 |
| Wma.WmaRaw | kand/src/ta/ohlcv/wma.rs:104-122 | NaN before the lookback; from period - 1 on, the window's samples, newest first, weighted period, period - 1, …, 1 and divided by period (period + 1) / 2 |
| Wma.Wma | kand/src/ta/ohlcv/wma.rs:77-125 | the result is the first failing check in source order, with LengthMismatch before InsufficientData; on error the output is unchanged; on success, NaN before the lookback and the WMA after |
| Wma.WmaInc | kand/src/ta/ohlcv/wma.rs:162-192 | InvalidParameter, LengthMismatch (window length ≠ period) and NaNDetected exactly as guarded; otherwise the weighted mean of the window, newest first |
| Wma.WeightTotalIsSumOfWeights | kand/src/ta/ohlcv/wma.rs:104 | the denominator period (period + 1) / 2 is the sum of the weights period, …, 1 |
| Wma.WeightsClosedForm | kand/src/ta/ohlcv/wma.rs:112-122 | the first n weights sum to n (2 period - n + 1) / 2 |
| Wma.WeightedSumBounds | kand/src/ta/ohlcv/wma.rs:112-122 | a weighted sum of samples in [lo, hi] lies between lo and hi times the sum of the weights |
| Wma.WmaBounds | kand/src/ta/ohlcv/wma.rs:42-50 | the WMA lies between the smallest and largest sample of its window |
| Wma.WmaOfConstant | kand/src/ta/ohlcv/wma.rs:42-50 | the WMA of a window of equal samples is that sample |
| Wma.WindowIsReversedSlice | kand/src/ta/ohlcv/wma.rs:140-160 | the newest-first window the batch loop reads is the input slice reversed, which is the window the streaming step receives |
| Wma.WmaDocExample | kand/src/ta/ohlcv/wma.rs:69-75 | the documented input 1..5 with period 3 gives 14/6, 20/6 and 26/6 |
| Wma.WmaIncDocExample | kand/src/ta/ohlcv/wma.rs:155-159 | the streaming example, window [5, 4, 3] with period 3, gives 26/6 |
| Rocp.Lookback | kand/src/ta/ohlcv/rocp.rs:25-34 | fails with InvalidParameter exactly when `check` is on and period < 1; otherwise period |
| Rocp.RocpRaw | kand/src/ta/ohlcv/rocp.rs:116-119 | every index from period on holds (x[i] - x[i - period]) / x[i - period]; nothing else changes |
| Rocp.FillNaN | kand/src/ta/ohlcv/rocp.rs:121-124 | the first `count` entries become NaN; the rest are unchanged |
| Rocp.Rocp | kand/src/ta/ohlcv/rocp.rs:80-127 | the result is the first failing check, and on error the output is unchanged; on success the rate of change from index period on, NaN before it, and entries past the input untouched |
| Rocp.RocpInc | kand/src/ta/ohlcv/rocp.rs:160-169 | fails, with NaNDetected, exactly when `check-nan` is on and an argument is NaN; otherwise the result times the previous price is the price change |
| Rocp.RocpIncMatchesBatch | kand/src/ta/ohlcv/rocp.rs:212-216 | fed sample i and sample i - period, the streaming step returns the batch value at i |
| Rocp.RocpRecoversPrice | kand/src/ta/ohlcv/rocp.rs:43-46 | x[i - period] (1 + ROCP) recovers x[i] |
| Rocp.RocpSign | kand/src/ta/ohlcv/rocp.rs:43-46 | with a positive base, ROCP is positive exactly when the price rose, and zero exactly when it did not move |
| Rocp.RocpTestFirstValue | kand/src/ta/ohlcv/rocp.rs:178-196 | the first value of the test data lies within 1e-10 of the test's expected value -0.0011642402196722522 |
| Adr.Lookback | kand/src/ta/ohlcv/adr.rs:20-22 | the lookback of the underlying SMA: InvalidParameter exactly when `check` is on and period < 2, otherwise period - 1 |
| Adr.Adr | kand/src/ta/ohlcv/adr.rs:60-102 | the result is the first failing check, and on error the output is unchanged; on success the SMA of the ranges high - low from period - 1 on, with the SMA's policy before it |
| Adr.AdrInc | kand/src/ta/ohlcv/adr.rs:135-166 | the intended step: fails exactly when period < 2 under `check` (InvalidParameter) or an argument is NaN under `check-nan` (NaNDetected); otherwise the previous ADR plus (new range - old range) / period |
| Adr.AdrIncAsWritten | kand/src/ta/ohlcv/adr.rs:135-166 | the step as written has the same error cases (InvalidParameter for period < 2 under `check`, NaNDetected for a NaN argument under `check-nan`, nothing else), and otherwise returns old range + (previous ADR - new range) / period |
| Adr.AdrIncMatchesBatch | kand/src/ta/ohlcv/adr.rs:323-339 | the corrected step turns the batch ADR at i - 1 into the batch ADR at i |
| Adr.AdrIncAsWrittenDiverges | kand/src/ta/ohlcv/adr.rs:165 | on highs 1, 2, 3 and lows 0 with period 2, the batch gives 2.5 at index 2 and the corrected step agrees, but the step as written returns 0.25 |
| Adr.AdrIncDocExample | kand/src/ta/ohlcv/adr.rs:120-132 | on the documented example, the step as written returns the old range 2, and the intended step returns 3 + 1/14 |
| Adr.AdrNonNegative | kand/src/ta/ohlcv/adr.rs:28-35 | when no low exceeds its high in the window, the ADR is non-negative |
| Ema.K | kand-wasm/src/ta/ohlcv/ema.rs:11-14 | the default factor 2 / (period + 1) lies in (0, 1] for period ≥ 1 |
| Ema.EmaInc | kand-wasm/src/ta/ohlcv/ema.rs:11-14 | the oscillator's step form (x - prev) k + prev equals the documented x k + prev (1 - k) |
| Ema.SeedSum | kand-wasm/src/ta/ohlcv/ema.rs:11-14 | the seed loop returns the sum of the first `period` samples |
| Ema.Ema | kand-wasm/src/ta/ohlcv/ema.rs:11-14 | from period - 1 on, the output is the EMA seeded with the first window's mean |
| Ema.EmaBetween | kand-wasm/src/ta/ohlcv/ema.rs:11-14 | an EMA stays within the range of the samples seen so far |
| Ema.EmaOfConstant | kand-wasm/src/ta/ohlcv/ema.rs:11-14 | the EMA of a constant series is that constant |
| Ema.EmaPrefix | kand-wasm/src/ta/ohlcv/ema.rs:11-14 | an EMA value depends only on the samples up to its index |
| Adosc.Lookback | kand/src/ta/ohlcv/adosc.rs:20-33 | InvalidParameter exactly when `check` is on and fast < 2, slow < 2 or fast ≥ slow; otherwise slow - 1 |
| Adosc.AdoscRaw | kand/src/ta/ohlcv/adosc.rs:146-151 | the fast and slow EMAs of the A/D line from their own lookbacks, and their difference from slow - 1 on; the oscillator's earlier entries untouched |
| Adosc.Adosc | kand/src/ta/ohlcv/adosc.rs:94-154 | the result is the first failing check, and on error no buffer changes; on success the A/D line, both EMAs and the oscillator = fast EMA - slow EMA of the A/D line |
| Adosc.StateAt | kand/src/ta/ohlcv/adosc.rs:40-46 | the batch state at an index has oscillator = fast EMA - slow EMA |
| Adosc.AdoscStep | kand/src/ta/ohlcv/adosc.rs:160-168 | the new A/D adds the bar's money-flow volume; both EMAs step towards it; the oscillator is their difference |
| Adosc.AdoscInc | kand/src/ta/ohlcv/adosc.rs:196-242 | fails exactly when, under `check`, a period is zero or fast ≥ slow (InvalidParameter), or, under `check-nan`, an argument is NaN (NaNDetected); otherwise one step |
| Adosc.AdoscIncMatchesBatch | kand/src/ta/ohlcv/adosc.rs:231-241 | fed bar i and the batch state at i - 1, the streaming step returns the batch state at i |
| Adosc.ReplayMatchesBatch | kand/src/ta/ohlcv/adosc.rs:438-471 | replaying the streaming step from the first full state over n bars reproduces the batch state n bars later |
| Adosc.StepGuardWeaker | kand/src/ta/ohlcv/adosc.rs:209-216 | every period pair the streaming step's own guard rejects is rejected by the batch lookback too |
| Adosc.AdoscIncAcceptsFastOne | kand/src/ta/ohlcv/adosc.rs:209-216 | the converse fails: with `check`, periods (1, 3) fail the batch lookback but pass the streaming step's own guard |
| Correl.Lookback | kand/src/ta/stats/correl.rs:24-32 | fails with InvalidParameter exactly when `check` is on and period < 2; otherwise period - 1 |
| Correl.Pearson | kand/src/ta/stats/correl.rs:191-202 | a number exactly when the product of the two variance terms is positive, and then its product with that product's square root is the covariance term; NaN otherwise |
| Correl.SlideMatchesWindow | kand/src/ta/stats/correl.rs:211-217 | sliding the five sums of the window ending at i - 1 by the entering and leaving pairs gives the sums of the window ending at i |
| Correl.SeedSums | kand/src/ta/stats/correl.rs:165-182 | the seed loop leaves the five sums of the first window |
| Correl.CorrelRaw | kand/src/ta/stats/correl.rs:165-237 | from period - 1 on, all six buffers hold the window's correlation and its five sums; earlier entries untouched |
| Correl.Correl | kand/src/ta/stats/correl.rs:111-250 | the result is the first failing check, and on error no buffer changes; on success, rows from period - 1 on hold the correlation and sums, and every earlier row is all NaN |
| Correl.CorrelInc | kand/src/ta/stats/correl.rs:308-379 | fails exactly when period < 2 under `check` (InvalidParameter) or any of the nine arguments is NaN under `check-nan` (NaNDetected); otherwise the slid sums and their correlation |
| Correl.CorrelIncMatchesBatch | kand/src/ta/stats/correl.rs:423-439 | fed pair i, pair i - period and the batch sums at i - 1, the streaming step returns the batch correlation and sums at i |
| Correl.QuadSum | kand/src/ta/stats/correl.rs:45-47 | over any window, the sum of squares of a x + b y + c equals the quadratic form in a, b, c built from the window's five sums |
| Correl.WindowQuadNonNegative | kand/src/ta/stats/correl.rs:45-47 | for every a, b, the quadratic form a² D0 + 2ab N + b² D1 in the window's two variance terms D0, D1 and covariance term N is non-negative |
| Correl.WindowCauchySchwarz | kand/src/ta/stats/correl.rs:39-47 | on every window, both variance terms are non-negative and the squared covariance term is at most their product (Cauchy–Schwarz) |
| Correl.PearsonBounded | kand/src/ta/stats/correl.rs:39-43 | when the sums satisfy Cauchy–Schwarz, a correlation that is a number lies between -1 and +1 |
| Correl.CorrelBounded | kand/src/ta/stats/correl.rs:39-43 | every correlation the batch definition gives on a window of real samples lies between -1 and +1 |
| Correl.PearsonOfAffine | kand/src/ta/stats/correl.rs:45-47 | when y = a x + b on the window, with a ≠ 0 and x not constant, the correlation is the sign of a |
| Correl.CorrelOfAffine | kand/src/ta/stats/correl.rs:45-47 | the same for the kernel's value at an index |
| Correl.CorrelOfConstantIsNaN | kand/src/ta/stats/correl.rs:474-504 | a window with constant x has a zero variance term, and the correlation is NaN |
| Correl.CorrelOfAffineSteps | kand/src/ta/stats/correl.rs:388-471 | with period 3, x rising by 1 per index and y = a x + b, every value from index 2 is ±1 |
| Correl.CorrelTestPerfectPositive | kand/src/ta/stats/correl.rs:388-439 | the test's perfectly correlated series give 1 at every index from 2 |
| Correl.CorrelTestPerfectNegative | kand/src/ta/stats/correl.rs:443-471 | the test's inversely correlated series give -1 at every index from 2 |
| Correl.CorrelTestNoVariance | kand/src/ta/stats/correl.rs:474-504 | the test's constant x gives NaN at every index from 2 |

The comment at `wma.rs:74-75` claims that the first value of its example is 2.0. The loop computes 14/6, and `Wma.WmaDocExample` states the value the code computes. The A/D example at `ad.rs:96-110` states no output; `Ad.AdDocExample` gives the line the formula produces.

## Left out

- **Outside the kernels.** Language bindings (Python, WebAssembly), benchmarks and the TA-Lib reference tables are not part of this model.
- **Floating point.** `TAFloat` is modelled as exact `real` arithmetic. IEEE rounding, the fused multiply-add of `mul_add` (modelled as a * b + c) and the tolerances of the tests are not modelled. The test lemmas state the exact values the formulas give.
- **NaN propagation.** NaN propagation through arithmetic is not modelled. When `check-nan` is off, every kernel requires NaN-free inputs.
- **Square root.** `f64::sqrt` is a parameter `sqrt` that need only be a non-negative square root on the non-negative reals (`Correl.IsSqrt`).
- **EMA source.** `kand/src/ta/ohlcv/ema.rs` is not part of this model. The EMA is defined from its documented formula (`kand-wasm/src/ta/ohlcv/ema.rs:11-14`) with the default factor 2 / (period + 1). Its own validation and the custom smoothing factor are not modelled.
- Ema.Ema: does not state the entries before period - 1, whose policy lives in the EMA source.
- Adosc.Adosc: the errors the EMA and A/D calls could propagate through `?` (`adosc.rs:144-147`) are not modelled. After the oscillator's own checks have passed, these calls are modelled as succeeding.
- Adosc.AdoscInc: the `?` on the two EMA step calls (`adosc.rs:232-233`) is modelled as always succeeding. The EMA step's own period check (its documentation asks for a period ≥ 2, `kand-wasm/src/ta/ohlcv/ema.rs:17`) is not modelled, so with a fast period of 1 the model returns a state where the source would return the EMA step's error.
- Rocp.Rocp: requires every base price x[i - period] to be non-zero. The source divides by it and would produce an infinity or NaN.
- Rocp.RocpInc: requires a non-zero previous price, for the same reason.
- Wma.WmaInc: requires period ≥ 1 when `check` is off. With period 0 the source divides by zero.
- Sma.Sma: when `check` is off, requires 1 ≤ period ≤ the input length and an output buffer of exactly the input length. The source also runs, without panicking, with a longer output buffer; those calls are not modelled. Period 0 underflows `usize`, and a shorter output buffer is indexed out of bounds.
- Wma.Wma: the same restriction as Sma.Sma when `check` is off; a longer output buffer is likewise accepted by the source and not modelled.
- Adr.Adr: when `check` is off, requires 1 ≤ period ≤ the number of bars, lows as long as highs, and an output buffer of exactly that length. A longer output buffer is accepted by the source and not modelled.
- Ad.Ad: when `check` is off, requires all four inputs and the output buffer to have the same length. The source also accepts longer low, close, volume and output slices; those calls are not modelled.
- Adosc.Adosc: when `check` is off, requires 1 ≤ fast ≤ slow ≤ the number of bars and buffers of exactly that length. The source also runs with fast > slow and with longer buffers; those calls are not modelled.
- Correl.Correl: when `check` is off, requires 1 ≤ period ≤ the series length, equal series lengths and output buffers of exactly that length. A longer output buffer is accepted by the source and not modelled.
- Ha.Ha: when `check` is off, requires at least one bar and buffers of exactly the number of bars; with no bars the source indexes out of bounds, and longer buffers are not modelled.
- Sma.SmaInc: requires period ≥ 1 when `check` is off. With period 0 the source divides by zero in floating point and returns an infinity or NaN; real division has no such value.
- Adr.AdrInc: requires period ≥ 1 when `check` is off, for the same reason as Sma.SmaInc.
- Adr.AdrIncAsWritten: requires period ≥ 1 when `check` is off, for the same reason as Sma.SmaInc.
- Correl.Correl: when `check` is off, a period of 1 is accepted (as in the source), but a period of 0 is required away.

## Findings

| source | as written | input that shows it | evidently intended | confidence | as-written member | corrected member |
|---|---|---|---|---|---|---|
| kand/src/ta/ohlcv/adr.rs:165 | `sma_inc(prev_adr, new_range, old_range, period)` passes the previous ADR as the entering sample and the old range as the previous average, so it returns old range + (previous ADR - new range) / period | highs 1, 2, 3 and lows 0, 0, 0 with period 2: the batch ADR is 1.5 at index 1 and 2.5 at index 2, but the step fed 1.5 returns 0.25 | `sma_inc(new_range, old_range, prev_adr, period)`, i.e. previous ADR + (new range - old range) / period, which agrees with the batch kernel (and with the test at adr.rs:323-339) | high; not executed | Adr.AdrIncAsWritten, Adr.AdrIncAsWrittenDiverges | Adr.AdrInc, Adr.AdrIncMatchesBatch |
