# AverageMeter — a verified model of the running-statistics tracker

`AverageMeter` (utils/utils.py) accumulates a stream of scalar observations.
It keeps:

- the last value seen (`val`);
- the running total and number of observations (`sum`, `count`) and their ratio (`avg`);
- a rolling window (`roll`) of the most recent `roll_len` observations;
- the mean of that window (`roll_avg`).

`update(val, n)` counts as `n` observations of `val`.

The model has three modules.

- `Series` (series.dfy) holds the list operations that `update` uses:
  - `[x] * n` is `Repeat`;
  - the slice `xs[-k:]` is `TailSlice`;
  - the builtin `sum` is `Sum`, the left-to-right total of a list; it is
    defined through the prefix sums `SumTo`. A `Mean` sits beside it.

  Their lemmas say how cutting a window back after an append relates to
  cutting the whole history once, and how sums split over concatenation.
- `Utils` (average_meter.dfy) holds the meter itself.
  - `AverageMeter` is a class with the source's fields. `Reset` and `Update`
    reassign those fields.
  - A ghost `History` records every `update(val, n)` since the last reset,
    oldest first. It is either `Empty`, or an earlier history `Then` one
    more call. The class keeps it in the ghost field `Updates`.
  - The field updates of one call are a pure transition `Step` on a
    `Snapshot` of the fields. `Update` computes `Step` of the current
    fields, and `Assign` writes the result back.
  - `Replay` runs `Step` over a history from the reset state. `Valid()`
    says the fields are the replay of `Updates`.
  - `Summarises` states what such a state means:
    - `count` is the sum of all `n`;
    - `sum` is the sum of all `val * n`;
    - `avg` is the mean of every observation;
    - `roll` is the slice `[-roll_len:]` of every observation;
    - `roll_avg` is the mean of `roll`.

    `StepPreserves` shows that `Step` keeps that invariant.
    `SummarisesIffReplay` shows that the replay is the only state that
    summarises its history, so the meter's state is a function of the
    history alone.
- `Scenarios` (scenarios.dfy) holds a few typical uses of the class, for
  arbitrary observed values. Their results follow from the contracts of
  `AverageMeter` alone.

Modelling choices:

- **Numbers.** Values are exact reals, and Python's `/` on them is true
  division. `count`, `n` and `roll_len` are `nat`.
- **When `update` fails.** Python divides by the new `count` and by the new
  window length without a guard. `update(v, n)` therefore fails exactly
  when `count + n == 0`, and that is the precondition of `Update`. A
  zero-observation update after earlier observations is legal and
  modelled: it changes `val` only, and recomputes the averages.
- **`roll_len == 0`.** The slice `xs[-0:]` is `xs[0:]`, so a window length of
  0 keeps the whole list. This is modelled rather than excluded.
  `UnboundedWindow` proves that the window is then the whole history, and
  that the rolling average equals the overall average.
- **`reset` and `roll_len`.** Whether `reset` should also restore
  `roll_len` is an open design question. The code leaves `roll_len` alone,
  and so does the model.

## Model

| member | source | states |
|---|---|---|
| Series.Repeat | utils/utils.py:17 | `[x] * n` has exactly `n` elements |
| Series.RepeatAt | utils/utils.py:17 | every element of `[x] * n` is `x` |
| Series.RepeatSuffix | utils/utils.py:17 | the last `j` elements of `[x] * n` are `[x] * j` |
| Series.TailSlice | utils/utils.py:17 | `xs[-k:]` keeps all of `xs` when `k == 0`, else `min(k, len(xs))` elements |
| Series.TailSliceIsSuffix | utils/utils.py:17 | what `xs[-k:]` keeps is the end of `xs`, in order |
| Series.TailSliceOfSuffix | utils/utils.py:17 | slicing a long enough suffix of `u` gives the same window as slicing `u` |
| Series.TailSliceAppend | utils/utils.py:17 | cutting the window after each append equals cutting the whole concatenation once |
| Series.TailSliceOfAppend | utils/utils.py:17 | after appending `t`, the window ends with the last `min(len(t), len(window))` elements of `t`, preceded by a suffix of the old list |
| Series.Sum | utils/utils.py:18 | Python's builtin `sum`: the left-to-right total of a list starting at 0, defined as the prefix sum of all its elements |
| Series.Mean | utils/utils.py:18 | `sum(roll) / len(roll)` for a non-empty window; `Mean([]) == 0`, the `roll_avg` that `reset` leaves |
| Series.SumToAppend | utils/utils.py:18 | appending to a list leaves the sum of its first `i` elements unchanged |
| Series.SumToConcat | utils/utils.py:18 | the first `len(a) + j` elements of `a + b` sum to `sum(a)` plus the first `j` elements of `b` |
| Series.SumConcat | utils/utils.py:18 | `sum(a + b) == sum(a) + sum(b)` |
| Series.SumRepeat | utils/utils.py:15-18 | `sum([x] * n) == x * n`, so the window and the running sum agree on a batch |
| Series.MeanRepeat | utils/utils.py:18 | a window of `n >= 1` copies of `x` has mean `x` |
| Utils.ExpandLength | utils/utils.py:15-17 | the number of observations in a history is the sum of its counts |
| Utils.ExpandSum | utils/utils.py:15-18 | the observations of a history add up to the sum of its `val * n` |
| Utils.ExpandSumThen | utils/utils.py:15-18 | one more `update(val, n)` adds `val * n` to the sum of the observations, as it does to `sum` |
| Utils.Zero | utils/utils.py:12 | the state `reset` leaves: `val`, `avg`, `sum`, `count` and `roll_avg` are 0 and `roll` is empty |
| Utils.CanUpdate | utils/utils.py:15-18 | `update(v, n)` runs to completion exactly when the new `count` and the new window length are both positive, the divisors at lines 16 and 18 |
| Utils.Step | utils/utils.py:14-18 | after an update the window is non-empty and no longer than a positive `roll_len` |
| Utils.ZeroSummarisesNothing | utils/utils.py:11-12 | the reset state summarises the empty history |
| Utils.StepTotals | utils/utils.py:15-16 | `update` sets `val` to its argument, adds `n` to `count` and `val * n` to `sum`, and makes `avg == sum / count` |
| Utils.StepRoll | utils/utils.py:17-18 | `update` leaves the window equal to the last `roll_len` observations of the whole history, and `roll_avg` equal to its mean |
| Utils.StepPreserves | utils/utils.py:14-18 | when `n >= 1` or `count >= 1`, `update` runs to completion and keeps the invariant for the history extended by the update |
| Utils.StepWindow | utils/utils.py:17 | the new window has `min(roll_len, len(roll) + n)` entries (all of `roll + [v] * n` when `roll_len == 0`); it ends with `min(n, len)` copies of `v`, preceded by a suffix of the old window in order |
| Utils.SummaryAverages | utils/utils.py:15-18 | for a summarised state, `count` is the number of observations and `avg` their mean; the window holds `min(roll_len, count)` of them (all when `roll_len == 0`), and `roll_avg` is the window's sum over its length |
| Utils.UnboundedWindow | utils/utils.py:17-18 | with `roll_len == 0` the window is every observation and `roll_avg == avg` |
| Utils.RunnableCounts | utils/utils.py:15-16 | once a history Python can run has an update, `count` is at least 1 |
| Utils.Replay | utils/utils.py:11-18 | reset followed by the updates of a runnable history gives a state whose `count` is the sum of all `n`, with a non-empty window once an update happened |
| Utils.RunnableThen | utils/utils.py:15-18 | one more update keeps a history runnable exactly when its two divisions succeed on the replayed state |
| Utils.ReplaySummarises | utils/utils.py:11-18 | the state that reset followed by a runnable history gives summarises that history |
| Utils.SummaryUnique | utils/utils.py:11-18 | two states that summarise the same history are equal |
| Utils.SummarisesIffReplay | utils/utils.py:11-18 | a state summarises a runnable history exactly when it is that history's replay |
| Utils.AverageMeter.constructor | utils/utils.py:6-9 | a new meter is in the zero state with the given `roll_len` (100 by default) and an empty history |
| Utils.AverageMeter.Reset | utils/utils.py:11-12 | `reset` zeroes `val`, `avg`, `sum`, `count`, `roll_avg`, empties `roll`, keeps `roll_len` and the invariant |
| Utils.AverageMeter.Update | utils/utils.py:14-18 | `update(v, n)` is callable exactly when `count + n >= 1`; the new fields are `Step` of the old, the history grows by `(v, n)`, `roll_len` is kept, and the invariant holds |
| Utils.AverageMeter.Assign | utils/utils.py:14-18 | the fields other than `roll_len` take the given values, and `roll_len` and the history are kept |
| Utils.AverageMeter.ValidSummarises | utils/utils.py:11-18 | the fields of a valid meter summarise every update since the last reset |
| Scenarios.TwoSingleUpdates | utils/utils.py:14-16 | `update(a)` then `update(b)` gives `val == b`, count 2, sum `a + b` and average `(a + b) / 2` |
| Scenarios.WindowOfThreeFull | utils/utils.py:6-18 | with `roll_len = 3`, single updates `a`, `b`, `c` fill the window with `[a, b, c]` |
| Scenarios.RollingWindow | utils/utils.py:17-18 | a fourth update `d` drops the oldest entry: window `[b, c, d]`, its mean as rolling average, and the mean of all four as overall average |
| Scenarios.BatchedUpdate | utils/utils.py:14-18 | `update(x, n=3)` is three observations of `x`: count 3, sum `3 * x`, average `x`, window `[x, x, x]` |
| Scenarios.ResetAfterUpdates | utils/utils.py:11-12 | `reset` after updates gives `val`, `avg`, `sum`, `count` and `roll_avg` equal to 0 and an empty window, and keeps `roll_len` (2 here) |

## Left out

- `project/distributions/ive_function.py` is not part of this model. It is a
  torch autograd function around scipy's Bessel functions, so it consists of
  foreign calls and floating-point numerics.
- `check` (utils/utils.py:20-22) prints and enters the interactive debugger.
  Both are I/O.
- `to_numpy` (utils/utils.py:24-26) is a thin torch tensor conversion.
- Floating-point rounding is not modelled. `sum`, `avg` and `roll_avg` are
  exact reals.
- Python's dynamic typing of `val` is not modelled. `val` can be an int, a
  float or a tensor; here it is a real.
- Utils.AverageMeter.Update: negative `n` is not modelled, because `n` is a
  `nat`. In Python, `[val] * n` is then empty while `count` decreases.
- Utils.AverageMeter.constructor: a negative `roll_len` is not modelled,
  because `roll_len` is a `nat`. In Python, `xs[-k:]` with `k < 0` drops the
  first `-k` elements.
- Utils.AverageMeter.Update: the state Python leaves behind when `update`
  raises `ZeroDivisionError` is not modelled. That state has `val`, `sum`
  and `count` already reassigned. The precondition excludes that call
  instead.
- Utils.AverageMeter.Update: reassigning `roll_len` between updates is not
  modelled. In Python `roll_len` is a plain attribute (utils/utils.py:8).
  `Valid()` ties `roll` to the whole history under the current `rollLen`,
  so it no longer holds after such a change. Python would cut the old
  window with the new length at the next update (utils/utils.py:17).
