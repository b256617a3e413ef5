# RSI alert monitor: a Dafny model of the alert decision layer

`rsi_alerts.py` polls an exchange for 15-minute, 1-hour and 4-hour klines,
computes an RSI value for each timeframe, and tries to send a Telegram alert:
LONG when all three RSI readings are below `down` (40), SHORT when all three
are above `up` (60). A `while True` loop repeats this every `sleep_duration`
seconds (300) and retries after 30 seconds when a cycle raises.

This project models the logic of that file that is not network I/O or
floating-point smoothing:

- `validate.dfy` (module `Validate`): `validate_list`, the comparator
  dispatch over the symbols `<`, `<=`, `>`, `>=`, `==` that collects one
  verdict per element and returns `all(...)`. The empty list and an
  unrecognised symbol both give true, as in the source. Among the
  unrecognised symbols is a single `=`: the comment at rsi_alerts.py:30 lists
  it, but the dispatch tests `==`, so `=` validates every list.
- `decision.dfy` (module `Decision`): the LONG / SHORT / no-alert branch of
  `main`, built on `validate_list`.
- `rsi_input.dfy` (module `RsiInput`): close-column extraction from the kline
  rows, `diff()`, and the in-place masking that splits each difference into a
  gain and a loss.
- `monitor.dfy` (module `Monitor`): one cycle of the loop and the loop itself,
  with the network calls replaced by a per-cycle environment that says which
  calls raised. The loop runs either the cycle as written, where every send
  raises, or the cycle with the notifier fixed (see "## Findings").
- `floats.dfy` (module `Floats`): a float is a real number or NaN. RSI is NaN
  when the smoothed gain and loss are both zero, and `diff()` puts NaN in the
  first row. Every comparison with NaN is false, so a NaN reading blocks both
  alerts.
- `wrappers.dfy` (module `Wrappers`): `Option` and `Result`.

The defaults are `period = 6`, `sleep_duration = 300`, `down = 40`, `up = 60`
and a 30-second back-off. The first four are local constants of `main`
(rsi_alerts.py:102-105) and the last is the `except` branch (rsi_alerts.py:154).
They appear as `Decision.DefaultDown`, `Decision.DefaultUp`,
`Monitor.DefaultSleepDuration` and `Monitor.BackoffSeconds`, and the model
takes the thresholds and the interval as a `Monitor.Config` value.

## Model

| member | source | states |
|---|---|---|
| `Validate.ParseComparator` | rsi_alerts.py:40-49 | a symbol is recognised exactly when it is one of `<`, `<=`, `>`, `>=`, `==`, and the comparator it selects is the one named by that symbol |
| `Validate.ParseSymbolRoundTrip` | rsi_alerts.py:40-49 | each of the five comparators is selected by its own symbol and by no other string |
| `Floats.Float.Less` | rsi_alerts.py:41 | definition: `x < bound` for a Python float, false for NaN; properties in `Validate.ValidateNaN` and `Decision.NaNSilences` |
| `Floats.Float.AtMost` | rsi_alerts.py:43 | definition: `x <= bound`, false for NaN; properties in `Validate.ValidateRecognised` |
| `Floats.Float.Greater` | rsi_alerts.py:45 | definition: `x > bound`, false for NaN; properties in `Validate.ValidateNaN` and `Decision.NaNSilences` |
| `Floats.Float.AtLeast` | rsi_alerts.py:47 | definition: `x >= bound`, false for NaN; properties in `Validate.ValidateRecognised` |
| `Floats.Float.Equals` | rsi_alerts.py:49 | definition: `x == bound`, false for NaN; properties in `Validate.ValidateRecognised` |
| `Floats.Float.Abs` | rsi_alerts.py:85 | definition: `abs(x)`, NaN staying NaN; properties in `RsiInput.SignSplit` |
| `Validate.Holds` | rsi_alerts.py:41-49 | definition: `element <op> value` for each of the five comparators under Python float semantics; properties in `Validate.ValidateRecognised` and `Validate.ValidateNaN` |
| `Validate.Verdicts` | rsi_alerts.py:37-49 | the collected `vals` list is empty for an unrecognised symbol; otherwise it has one entry per element, in order, and entry i is the comparison of element i with the threshold |
| `Validate.ValidateSpec` | rsi_alerts.py:51 | definition: the returned `all(vals)`; properties in `Validate.ValidateRecognised`, `Validate.ValidateEmpty`, `Validate.ValidateUnrecognised` and `Validate.ValidateNaN` |
| `Validate.ValidateRecognised` | rsi_alerts.py:39-51 | for each recognised symbol, `validate_list` is true iff every element satisfies `element <op> value` |
| `Validate.ValidateEmpty` | rsi_alerts.py:37-51 | an empty list gives true for every symbol, since `all([])` is true |
| `Validate.ValidateUnrecognised` | rsi_alerts.py:39-51 | an unrecognised symbol appends nothing and gives true whatever the list holds |
| `Validate.SingleEqualsValidatesAll` | rsi_alerts.py:30-49 | the `=` listed in the comment is not dispatched (only `==` is), so `validate_list(xs, "=", v)` is true for every list |
| `Validate.ValidateNaN` | rsi_alerts.py:39-51 | a NaN element makes every recognised comparison fail, so the list does not validate |
| `Validate.ValidateList` | rsi_alerts.py:26-51 | the loop that appends one verdict per element and reduces with `all` returns true iff every element satisfies the comparison (recognised symbol) and true for an unrecognised symbol |
| `Decision.Decide` | rsi_alerts.py:143-147 | definition: the if/elif over the two `validate_list` calls; properties in `Decision.DecideCases`, `Decision.LongShortExclusive` and `Decision.NaNSilences` |
| `Decision.DecideCases` | rsi_alerts.py:143-147 | LONG exactly when every reading is below `down`; SHORT exactly when that fails and every reading is above `up`; no alert otherwise |
| `Decision.LongShortExclusive` | rsi_alerts.py:143-147 | with `down < up` and at least one reading the two conditions never hold together, so SHORT is decided exactly when all readings are above `up` |
| `Decision.DefaultsExclusive` | rsi_alerts.py:104-105 | with the defaults 40 and 60 the three readings of `main` give SHORT exactly when all are above 60 |
| `Decision.NaNSilences` | rsi_alerts.py:143-147 | a NaN reading yields no alert |
| `Decision.EmptyReadingsAreLong` | rsi_alerts.py:143-144 | with no readings the LONG test passes vacuously |
| `Decision.ExampleLong` | rsi_alerts.py:143-144 | readings 30, 35, 38 give LONG with the defaults |
| `Decision.ExampleShort` | rsi_alerts.py:146-147 | readings 65, 72, 80 give SHORT with the defaults |
| `Decision.Evaluate` | rsi_alerts.py:143-147 | the two `validate_list` calls of `main` give LONG iff all three readings are below `down`, SHORT iff not and all three are above `up` |
| `RsiInput.ConvertCloses` | rsi_alerts.py:74-75 | the float conversion of the close column succeeds iff every close field converts; the result keeps row order and length, element i being field 4 of row i |
| `RsiInput.CloseColumn` | rsi_alerts.py:69-75 | the 12 column names fail to apply unless there is at least one row and every row has 12 fields; otherwise the closes are field 4 of each row, in input order, when all convert |
| `RsiInput.Diff` | rsi_alerts.py:77-78 | the difference series has one entry per close; entry 0 is NaN and every later entry is finite |
| `RsiInput.Accumulate` | rsi_alerts.py:78 | accumulating differences from a starting price gives a series of the same length that starts at that price |
| `RsiInput.DiffRoundTrip` | rsi_alerts.py:78 | `diff()` loses only the first price: accumulating the differences from it gives back the closes |
| `RsiInput.Gain` | rsi_alerts.py:81 | definition: `up[up < 0] = 0` on one element; properties in `RsiInput.SignSplit` |
| `RsiInput.ClampPositive` | rsi_alerts.py:82 | definition: `down[down > 0] = 0` on one element; properties in `RsiInput.SignSplit` |
| `RsiInput.Loss` | rsi_alerts.py:82-85 | definition: `down.abs()` after the mask; properties in `RsiInput.SignSplit` |
| `RsiInput.SignSplit` | rsi_alerts.py:80-85 | a finite difference splits into a gain and a loss that are non-negative, at most one nonzero, and whose difference is the original value; NaN stays NaN |
| `RsiInput.GainLossOfCloses` | rsi_alerts.py:78-85 | for every index i >= 1 of the close series, gain and loss are finite, non-negative, at most one nonzero, and gain - loss = close[i] - close[i-1] |
| `RsiInput.FirstRowIsNaN` | rsi_alerts.py:78-85 | index 0 of the gain and loss series is NaN and so excluded |
| `RsiInput.NonDecreasingHasNoLoss` | rsi_alerts.py:78-85 | a non-decreasing close series has zero loss after the first row |
| `RsiInput.NonIncreasingHasNoGain` | rsi_alerts.py:78-85 | a non-increasing close series has zero gain after the first row |
| `RsiInput.MaskNegatives` | rsi_alerts.py:81 | the masked assignment sets every negative entry to 0 in place and leaves the rest |
| `RsiInput.MaskPositives` | rsi_alerts.py:82 | the masked assignment sets every positive entry to 0 in place and leaves the rest |
| `RsiInput.SplitGainLoss` | rsi_alerts.py:80-85 | copying, masking and taking `abs` yields, per index, the gain and the loss of that difference |
| `RsiInput.GainLossFromKlines` | rsi_alerts.py:69-85 | from the klines: fails exactly when close extraction fails; otherwise both series have one entry per row, index 0 is NaN, and every later index has the sign-split properties against the close differences |
| `Monitor.Cycle` | rsi_alerts.py:127-155 | a failed fetch sleeps 30 s and delivers nothing; otherwise the decided alert is delivered when the send succeeds, a failed send backs off 30 s, and a completed cycle sleeps `sleep_duration` |
| `Monitor.CycleAsWritten` | rsi_alerts.py:54-58 | the cycle as written is the fixed cycle with a send that always raises: no cycle delivers an alert, and the sleep still follows the 30 s / `sleep_duration` rule |
| `Monitor.AlertLostAsWritten` | rsi_alerts.py:143-155 | as written, a cycle that decides to alert raises and backs off 30 s; with the notifier fixed it delivers the alert and sleeps `sleep_duration` |
| `Monitor.AlertLostExample` | rsi_alerts.py:143-155 | readings 30, 35, 38 with the defaults: as written the LONG alert is lost and the loop sleeps 30 s; fixed, LONG is delivered and the loop sleeps 300 s |
| `Monitor.AsWrittenAgreesWithoutAlert` | rsi_alerts.py:143-155 | without an alert to send, the written and the fixed cycle behave the same |
| `Monitor.CycleOf` | rsi_alerts.py:54-58 | definition: the cycle as written or with the notifier fixed; properties in `Monitor.Cycle`, `Monitor.CycleAsWritten` and `Monitor.NothingDeliveredAsWritten` |
| `Monitor.RunCycle` | rsi_alerts.py:127-155 | the `try` body and its `except` produce the effect `CycleOf` describes, follow the sleep rule, and deliver nothing when the notifier is as written |
| `Monitor.Trace` | rsi_alerts.py:125-155 | a run has one effect per cycle, and effect i depends only on cycle i's environment and on which notifier is used |
| `Monitor.TotalSleepByRule` | rsi_alerts.py:150-154 | a run sleeps 30 s per failed cycle and `sleep_duration` per completed one |
| `Monitor.Memoryless` | rsi_alerts.py:125-155 | running two batches of cycles in a row is the same as running them as one |
| `Monitor.NothingDeliveredAsWritten` | rsi_alerts.py:54-58 | as written, no cycle of any run delivers an alert, and every cycle that decided one backs off 30 s |
| `Monitor.RecoversAfterFailure` | rsi_alerts.py:125-155 | a cycle whose fetch raised backs off, and the next cycle still runs and, with the notifier fixed, delivers its own decision |
| `Monitor.MonitorLoop` | rsi_alerts.py:125-155 | the loop, as written or with the notifier fixed, runs every cycle it is given (no outcome ends it), each with the effect `CycleOf` describes, and sleeps 30 s per failure and `sleep_duration` per success |

## Findings

| source | as written | input that shows it | evidently intended | confidence | as-written member | corrected member |
|---|---|---|---|---|---|---|
| rsi_alerts.py:54-58 | `send_message` builds its URL from a module-level `url` that is never defined, so every send raises `NameError`; the loop catches it and retries after 30 s, and no alert is ever delivered | readings 30, 35, 38 with `down = 40`: LONG is decided, the send raises, the cycle backs off 30 s | the send goes to the Telegram bot endpoint, the alert is delivered and the loop sleeps `sleep_duration` | high (read from the code, not executed) | `Monitor.CycleAsWritten` (`Monitor.AlertLostExample`, `Monitor.NothingDeliveredAsWritten`) | `Monitor.Cycle` (`Monitor.AlertLostAsWritten`; run by `Monitor.MonitorLoop` with the notifier fixed) |

## Left out

- HTTP calls: the kline fetch (rsi_alerts.py:66-67), the mark-price fetch (rsi_alerts.py:132) and the Telegram request (rsi_alerts.py:58). Their outcomes enter the model as the fields of `Monitor.CycleEnv`: which calls raised, and the RSI readings.
- Environment and credential loading (rsi_alerts.py:11-23): configuration I/O.
- Exponential smoothing and the RS / RSI division (rsi_alerts.py:84-91): pandas `ewm` and floating-point division. The model stops at the gain and loss series; an RSI reading enters the decision as a `Float` (a number or NaN).
- Positive and negative infinity, rounding and signed zero of floats: RSI is never infinite (a zero loss average gives RSI 100), and the sign split is stated over exact reals.
- The string-to-float conversion of the close field: a parameter `toFloat` of `RsiInput.CloseColumn` that may fail.
- RsiInput.CloseColumn: rows of unequal length are rejected; pandas would pad the shorter rows and fail only when the widest row does not have 12 fields.
- Logging, timestamps and the alert message text (rsi_alerts.py:92-93, 134-140): presentation only. The model records which signal was delivered, not the message.
- Monitor.MonitorLoop: the loop is infinite; the model runs it over any finite sequence of cycles and proves that each one is run and followed by a sleep. Exceptions that `except Exception` does not catch (such as a keyboard interrupt) are not modelled.
- The order of the three RSI fetches within a cycle: a failure in any of them has the same effect, so they are modelled as one joint outcome.
