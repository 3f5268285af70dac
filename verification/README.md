# Scale stability filter

A model of the per-scale stability filter of the `big_brother` load-cell monitor. Each
`Scale` turns a raw voltage-ratio sample into a weight (`raw * gain - offset`). It keeps
a window of at most 20 calibrated readings, and the oldest reading is dropped once the
window is full. The window is stable when it is full and its largest reading minus its
smallest is strictly below 3.0. On a stable window the scale records a "last stable
weight": it is set on the first stable window, and later replaced only by a stable
reading that differs from it by strictly more than 3.0.

- `filter.dfy`, module `Filter`, is the pure part: the constants `BUFFER_LENGTH` and
  `MAX_NOISE`, the max/min folds, the stability rule, the window after a push, the update
  of the last stable weight, and the lemmas about them. Those lemmas cover FIFO order,
  the not-stable-until-full rule, the strict thresholds, idempotence and "never unset".
- `scale.dfy`, module `Scales`, is the stateful part. It is the `Scale` class with the
  fields `weightBuffer: seq<real>` and `lastStableWeight: Option<real>`, which its
  methods update in place. Each method's `ensures` ties the new state to the functions
  of `Filter`.

Weights are `real`. The source only adds, subtracts, multiplies and compares them, so
IEEE `f64` rounding, infinities and NaN are not modelled. The max and min folds in the
source start from negative and positive infinity. Stability is only ever computed on a
full, non-empty window, so those seeds never decide the result, and the model folds
from the first reading instead.

The hardware sample is a parameter. `GetWeight` receives `raw: Result<real>`: either
the sample, or the sensor SDK's error (`Error.Phidget`). The error is returned unchanged,
as the source's `?` does.

`check_last_stable` returns `None` on every path (src/scale.rs:102, 105, 108), so no
Served, Refilled or Ran Out action is ever produced by it. The program has no restart or
fault-recovery logic: a read error is propagated with `?`. The last stable weight moves
only on a change of strictly more than 3.0 (src/scale.rs:97), so a drift that stays
within 3.0 of it never moves it.

## Model

| member | source | states |
|---|---|---|
| `Filter.Max` | src/scale.rs:74-77 | the fold's result is one of the window's readings and no reading exceeds it |
| `Filter.Min` | src/scale.rs:78-81 | the fold's result is one of the window's readings and no reading is below it |
| `Filter.IsStable` | src/scale.rs:70-83 | never stable unless the window holds exactly 20 readings; with 20, stable iff every two readings differ by strictly less than 3.0 (i.e. max - min < 3.0) |
| `Filter.Pushed` | src/scale.rs:62-69 | the pushed reading is last; from a window of at most 20 the new length is min(old + 1, 20) and the window is the newest 20 of old ++ [w] |
| `Filter.WindowOfHistory` | src/scale.rs:62-69 | pushing any sequence of readings one by one leaves exactly the newest 20 readings seen, in arrival order (FIFO, only the oldest is evicted) |
| `Filter.NotStableUntilFull` | src/scale.rs:70-73 | from an empty window, fewer than 20 readings of any values give a window of that length that is not stable |
| `Filter.StableIffNewestSettled` | src/scale.rs:62-83 | after at least 20 readings, stability holds iff the newest 20 readings pairwise differ by less than 3.0 |
| `Filter.NextLastStable` | src/scale.rs:93-110 | a set value is never unset; unchanged on an unstable window; on a stable window the result is within 3.0 of the newest reading; it changes only to the newest reading of a stable window, and only when unset or more than 3.0 away |
| `Filter.CheckTwiceIsCheckOnce` | src/scale.rs:94-106 | a second check against the same window changes nothing |
| `Filter.SpreadAtThresholdIsUnstable` | src/scale.rs:82 | a full window whose spread is exactly 3.0 (one 103.0, nineteen 100.0) is not stable |
| `Filter.SpreadBelowThresholdIsStable` | src/scale.rs:82 | a full window whose spread is 2.9 is stable |
| `Filter.ChangeAtThresholdKeepsLastStable` | src/scale.rs:97 | a stable window exactly 3.0 away from the last stable weight does not replace it |
| `Filter.SettledWindowSetsLastStable` | src/scale.rs:94-105 | twenty readings of 100.0 plus a twenty-first: still stable, and the first check sets the last stable weight to 100.0 |
| `Filter.PushAll` | src/scale.rs:62-69 | repeated pushes into a window of at most 20 readings give a window of length min(old + pushed, 20) |
| `Filter.Run` | src/main.rs:32-36 | one tick per successful reading, Pushed then NextLastStable on the new window: the window stays within 20 readings and, after a non-empty run, ends with the newest reading |
| `Filter.SettlingAtNewWeightMovesLastStable` | src/scale.rs:94-110 | stable at 100.0, then twenty ticks reading 70.0: the nineteen mixed windows are unstable and keep 100.0, and the twentieth, all 70.0, moves the last stable weight to 70.0 |
| `Filter.StableReadingIsTracked` | src/scale.rs:84-110 | when a pushed reading leaves the window stable, the check that follows leaves a last stable weight within 3.0 of that reading |
| `Filter.RunKeepsNewestAndNeverUnsets` | src/main.rs:32-36 | over any run of push-then-check ticks, the window is the newest 20 readings and a last stable weight once set stays set |
| `Scales.Scale.constructor` | src/scale.rs:44-51 | a new scale keeps its gain and offset, starts with an empty window and no last stable weight |
| `Scales.Scale.GetReading` | src/scale.rs:59-61 | a successful raw sample gives a reading r with r + offset = raw * gain; a failed read gives the same error |
| `Scales.Scale.UpdateBuffer` | src/scale.rs:62-69 | the new window is Pushed(old window, w), i.e. the newest 20 of old ++ [w]; the window stays within 20 readings |
| `Scales.Scale.GetWeight` | src/scale.rs:84-92 | on a read error returns that error with the window unchanged; otherwise pushes the calibrated reading and returns it tagged Stable iff the window is stable after the push, Unstable otherwise, with the same value |
| `Scales.Scale.CheckLastStable` | src/scale.rs:93-110 | always returns None, never changes the window, and moves the last stable weight exactly as NextLastStable says, so a set value is never unset |

## Left out

- Opening the sensor (`Scale::new`: channel and serial setup, the 5 s open timeout, the
  sample interval, the 1 s settling sleep) and `get_raw_reading`. These are calls into
  the sensor SDK. The constructor models only the fields they initialise, and raw
  samples are a parameter of `GetWeight`.
- `get_device` and the `Device` identity it returns. They come from a configuration
  crate that is not part of this model.
- `from_libra_menu` and `from_config`: configuration parsing in a crate that is not part
  of this model.
- `Weight::to_json_value`, `to_json_string` and `Display`: JSON and text formatting,
  including the float truncation in `Display`.
- The database, the HTTP backend and `DataAction`'s `Display`, in src/data.rs.
  `DataAction` appears only as the type `CheckLastStable` could return, and it never
  returns one.
- The polling loop in src/main.rs and `demo`: async interval timing, printing and
  logging. `Filter.Run` models only the push-then-check order of each tick for a single
  scale. It does not model the short-circuit on the first read error across scales, or
  the placeholder log entry.
- IEEE `f64` semantics: rounding, infinities, NaN, and the infinite seeds of the max and
  min folds.
- The printed messages in `check_last_stable` (src/scale.rs:99-100).
