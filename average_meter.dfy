/** The running-statistics tracker `AverageMeter` of utils/utils.py: a
    running total and average over every observation since the last reset,
    the last value seen, and a rolling window of the most recent `rollLen`
    observations with its mean. Values are exact reals; Python's `/` on
    them is true division. */
module Utils {
  import opened Series

  /** One call `update(val, n)`: `n` observations of `val`. */
  datatype Batch = Batch(val: real, n: nat)

  /** The calls `update(val, n)` since the last reset, oldest first: either
      none, or some earlier calls followed by one more. */
  datatype History = Empty | Then(before: History, last: Batch)

  /** Every observation of a history of updates, oldest first. */
  function Expand(h: History): seq<real>
  {
    match h
    case Empty => []
    case Then(before, b) => Expand(before) + Repeat(b.val, b.n)
  }

  /** The number of observations in a history: the sum of all `n`. */
  function TotalCount(h: History): nat
  {
    match h
    case Empty => 0
    case Then(before, b) => TotalCount(before) + b.n
  }

  /** The total of a history: the sum of all `val * n`. */
  function TotalSum(h: History): real
  {
    match h
    case Empty => 0.0
    case Then(before, b) => TotalSum(before) + b.val * b.n as real
  }

  /** A history holds as many observations as its counts add up to. */
  lemma {:induction false} ExpandLength(h: History)
    ensures |Expand(h)| == TotalCount(h)
  {
    if h.Then? {
      ExpandLength(h.before);
    }
  }

  /** The observations of a history add up to its batch totals. */
  lemma {:induction false} ExpandSum(h: History)
    ensures Sum(Expand(h)) == TotalSum(h)
  {
    match h
    case Empty =>
    case Then(before, last) =>
      ExpandSum(before);
      ExpandSumThen(before, last);
  }

  /** One more update adds `val * n` to the sum of the observations. */
  lemma ExpandSumThen(before: History, last: Batch)
    ensures Sum(Expand(Then(before, last))) == Sum(Expand(before)) + last.val * last.n as real
  {
    SumConcat(Expand(before), Repeat(last.val, last.n));
    SumRepeat(last.val, last.n);
  }

  /** The values of the meter's fields other than `roll_len`. */
  datatype Snapshot = Snapshot(
    val: real, avg: real, sum: real, count: nat, roll: seq<real>, rollAvg: real)

  /** The state `reset` leaves behind. */
  const Zero := Snapshot(0.0, 0.0, 0.0, 0, [], 0.0)

  /** `update(v, n)` runs to completion: Python divides by the new `count`
      and by the length of the new window without a guard. */
  predicate CanUpdate(s: Snapshot, n: nat)
  {
    s.count + n >= 1 && |s.roll| + n >= 1
  }

  /** The fields after `update(v, n)`, assigned in the order Python assigns
      them. The new window is never empty and never longer than a positive
      `rollLen`. */
  function Step(s: Snapshot, rollLen: nat, v: real, n: nat): (r: Snapshot)
    requires CanUpdate(s, n)
    ensures 1 <= |r.roll|
    ensures rollLen > 0 ==> |r.roll| <= rollLen
  {
    var sum := s.sum + v * n as real;
    var count := s.count + n;
    var roll := TailSlice(s.roll + Repeat(v, n), rollLen);
    Snapshot(v, sum / count as real, sum, count, roll, Sum(roll) / |roll| as real)
  }

  /** The meter's invariant: its fields summarise `h`, every
      `update(val, n)` since the last reset. */
  ghost predicate Summarises(s: Snapshot, rollLen: nat, h: History)
  {
    && s.val == (if h.Empty? then 0.0 else h.last.val)
    && s.count == TotalCount(h)
    && s.sum == TotalSum(h)
    && s.avg == (if s.count == 0 then 0.0 else s.sum / s.count as real)
    && s.roll == TailSlice(Expand(h), rollLen)
    && s.rollAvg == Mean(s.roll)
  }

  /** The meter holds nothing after a reset. */
  lemma ZeroSummarisesNothing(rollLen: nat)
    ensures Summarises(Zero, rollLen, Empty)
  {
  }

  /** One update adds `n` to the count and `v * n` to the sum, and makes
      `v` the last value seen; `avg` is their new ratio. */
  lemma StepTotals(s: Snapshot, rollLen: nat, h: History, v: real, n: nat)
    requires s.count == TotalCount(h) && s.sum == TotalSum(h)
    requires CanUpdate(s, n)
    ensures var r := Step(s, rollLen, v, n);
            var h' := Then(h, Batch(v, n));
            && r.val == h'.last.val
            && r.count == TotalCount(h')
            && r.sum == TotalSum(h')
            && r.avg == r.sum / r.count as real
  {
  }

  /** One update moves the window as cutting the whole history would. */
  lemma StepRoll(s: Snapshot, rollLen: nat, h: History, v: real, n: nat)
    requires s.roll == TailSlice(Expand(h), rollLen)
    requires CanUpdate(s, n)
    ensures var r := Step(s, rollLen, v, n);
            && r.roll == TailSlice(Expand(Then(h, Batch(v, n))), rollLen)
            && r.rollAvg == Mean(r.roll)
  {
    TailSliceAppend(Expand(h), Repeat(v, n), rollLen);
  }

  /** One update keeps the invariant, provided the meter has an observation
      once the update is done; that is also when Python does not fail. */
  lemma StepPreserves(s: Snapshot, rollLen: nat, h: History, v: real, n: nat)
    requires Summarises(s, rollLen, h)
    requires n >= 1 || s.count >= 1
    ensures CanUpdate(s, n)
    ensures Summarises(Step(s, rollLen, v, n), rollLen, Then(h, Batch(v, n)))
  {
    ExpandLength(h);
    StepTotals(s, rollLen, h, v, n);
    StepRoll(s, rollLen, h, v, n);
  }

  /** Where the observations of one update land: with a positive `rollLen`
      the window keeps the last `min(rollLen, |roll| + n)` observations, with
      `rollLen == 0` it keeps them all; it ends with `min(n, |window|)` copies
      of `v`, and what precedes them is a suffix of the old window. */
  lemma StepWindow(s: Snapshot, rollLen: nat, v: real, n: nat)
    requires CanUpdate(s, n)
    ensures var r := Step(s, rollLen, v, n).roll;
            var j := Min(n, |r|);
            && (rollLen > 0 ==> |r| == Min(rollLen, |s.roll| + n))
            && (rollLen == 0 ==> r == s.roll + Repeat(v, n))
            && r[|r| - j..] == Repeat(v, j)
            && r[..|r| - j] == s.roll[|s.roll| - (|r| - j)..]
  {
    TailSliceOfAppend(s.roll, Repeat(v, n), rollLen);
    RepeatSuffix(v, n, Min(n, |Step(s, rollLen, v, n).roll|));
  }

  /** The averages the invariant fixes: `avg` is the mean of every
      observation since the last reset, `count` is their number, the window
      holds the last `min(rollLen, count)` of them (all of them when
      `rollLen == 0`), and `rollAvg` is the mean of the window. */
  lemma SummaryAverages(s: Snapshot, rollLen: nat, h: History)
    requires Summarises(s, rollLen, h)
    ensures s.count == |Expand(h)|
    ensures s.avg == Mean(Expand(h))
    ensures |s.roll| == (if rollLen == 0 then s.count else Min(rollLen, s.count))
    ensures s.count >= 1 ==> 1 <= |s.roll| && s.rollAvg == Sum(s.roll) / |s.roll| as real
  {
    ExpandLength(h);
    ExpandSum(h);
  }

  /** With `rollLen == 0` the slice `[-0:]` never cuts, so the window is the
      whole history and the rolling average is the overall average. */
  lemma UnboundedWindow(s: Snapshot, h: History)
    requires Summarises(s, 0, h)
    ensures s.roll == Expand(h)
    ensures s.rollAvg == s.avg
  {
    SummaryAverages(s, 0, h);
  }

  /** A history Python can run from a reset. `update` divides by the new
      count, so only the first update needs `n >= 1`: every later one finds
      a positive count. */
  predicate Runnable(h: History)
  {
    match h
    case Empty => true
    case Then(Empty, b) => b.n >= 1
    case Then(before, _) => Runnable(before)
  }

  /** A runnable history that is not empty has recorded an observation. */
  lemma {:induction false} RunnableCounts(h: History)
    requires Runnable(h)
    ensures h.Then? ==> TotalCount(h) >= 1
  {
    if h.Then? && h.before.Then? {
      RunnableCounts(h.before);
    }
  }

  /** The state after a reset followed by the updates of `h`, each applied
      by `Step`: the count is the sum of all `n`, and once anything was
      recorded the window is not empty. */
  function Replay(rollLen: nat, h: History): (s: Snapshot)
    requires Runnable(h)
    ensures s.count == TotalCount(h)
    ensures h.Then? ==> 1 <= |s.roll|
  {
    match h
    case Empty => Zero
    case Then(before, b) =>
      RunnableCounts(before);
      Step(Replay(rollLen, before), rollLen, b.val, b.n)
  }

  /** One more update keeps a history runnable exactly when Python's
      divisions in it succeed. */
  lemma RunnableThen(rollLen: nat, h: History, b: Batch)
    requires Runnable(h)
    ensures Runnable(Then(h, b)) <==> CanUpdate(Replay(rollLen, h), b.n)
  {
    RunnableCounts(h);
  }

  /** The replayed state keeps the invariant: its fields summarise the
      history that produced it. */
  lemma {:induction false} ReplaySummarises(rollLen: nat, h: History)
    requires Runnable(h)
    ensures Summarises(Replay(rollLen, h), rollLen, h)
  {
    if h.Then? {
      RunnableThen(rollLen, h.before, h.last);
      ReplaySummarises(rollLen, h.before);
      StepPreserves(Replay(rollLen, h.before), rollLen, h.before, h.last.val, h.last.n);
    }
  }

  /** Two states that summarise the same history are the same state: the
      meter's fields are a function of what it was fed since the last reset. */
  lemma SummaryUnique(s: Snapshot, t: Snapshot, rollLen: nat, h: History)
    requires Summarises(s, rollLen, h) && Summarises(t, rollLen, h)
    ensures s == t
  {
  }

  /** The invariant characterises the replayed state: a state summarises a
      runnable history exactly when it is that history's replay. */
  lemma SummarisesIffReplay(s: Snapshot, rollLen: nat, h: History)
    requires Runnable(h)
    ensures Summarises(s, rollLen, h) <==> s == Replay(rollLen, h)
  {
    ReplaySummarises(rollLen, h);
    if Summarises(s, rollLen, h) {
      SummaryUnique(s, Replay(rollLen, h), rollLen, h);
    }
  }

  class AverageMeter {
    var val: real
    var avg: real
    var sum: real
    var count: nat
    var roll: seq<real>
    var rollAvg: real
    var rollLen: nat

    /** Every update since the last reset (or construction). */
    ghost var Updates: History

    ghost function State(): Snapshot
      reads this
    {
      Snapshot(val, avg, sum, count, roll, rollAvg)
    }

    /** The fields are what replaying the updates since the last reset
        gives; the first of them recorded at least one observation (Python
        fails otherwise). */
    ghost predicate Valid()
      reads this
    {
      Runnable(Updates) && State() == Replay(rollLen, Updates)
    }

    /** `__init__`: reset, then record the window length (100 unless given)
        and empty the window. */
    constructor (rollLen: nat := 100)
      ensures Valid()
      ensures State() == Zero && this.rollLen == rollLen
      ensures Updates == Empty
    {
      new;
      Reset();
      this.rollLen := rollLen;
      roll := [];
    }

    /** Back to the zero state; the window length is kept. */
    method Reset()
      modifies this
      ensures Valid()
      ensures State() == Zero && rollLen == old(rollLen)
      ensures Updates == Empty
    {
      val, avg, sum, count, roll, rollAvg := 0.0, 0.0, 0.0, 0, [], 0.0;
      Updates := Empty;
    }

    /** `update(v, n)`: record `n` observations of `v` (one unless given).
        The precondition is exactly the condition under which Python's two
        divisions succeed. */
    method Update(v: real, n: nat := 1)
      requires Valid()
      requires n >= 1 || count >= 1
      modifies this
      ensures Valid()
      ensures CanUpdate(old(State()), n)
      ensures State() == Step(old(State()), rollLen, v, n)
      ensures Updates == Then(old(Updates), Batch(v, n))
      ensures rollLen == old(rollLen)
    {
      RunnableThen(rollLen, Updates, Batch(v, n));
      Assign(Step(Snapshot(val, avg, sum, count, roll, rollAvg), rollLen, v, n));
      Updates := Then(Updates, Batch(v, n));
    }

    /** Assign the fields other than `roll_len` from `s`. This is an
        internal step of `Update`, not an operation of the meter: on its
        own it does not keep `Valid()`, since it leaves `Updates` alone. */
    method Assign(s: Snapshot)
      modifies this
      ensures State() == s
      ensures rollLen == old(rollLen) && Updates == old(Updates)
    {
      match s
      case Snapshot(val', avg', sum', count', roll', rollAvg') =>
        val, avg, sum, count, roll, rollAvg := val', avg', sum', count', roll', rollAvg';
    }

    /** What a valid meter holds: its fields summarise every update since
        the last reset. */
    lemma ValidSummarises()
      requires Valid()
      ensures Summarises(State(), rollLen, Updates)
    {
      ReplaySummarises(rollLen, Updates);
    }
  }
}
