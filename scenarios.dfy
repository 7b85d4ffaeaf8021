/** Typical uses of the meter, for arbitrary observed values; the results
    follow from the contracts of `AverageMeter`. */
module Scenarios {
  import opened Series
  import opened Utils

  /** `update(a)` then `update(b)`: two observations, averaging `a` and `b`. */
  method TwoSingleUpdates(a: real, b: real) returns (val: real, avg: real, count: nat, sum: real)
    ensures val == b && avg == (a + b) / 2.0 && count == 2 && sum == a + b
  {
    var m := new AverageMeter();
    m.Update(a);
    assert m.count == 1 && m.sum == a;
    m.Update(b);
    assert m.count == 2 && m.sum == a + b;
    val, avg, count, sum := m.val, m.avg, m.count, m.sum;
  }

  /** A fresh meter with a window of 3 after single updates `a`, `b`, `c`:
      the window holds all three, oldest first. */
  method WindowOfThreeFull(a: real, b: real, c: real) returns (m: AverageMeter)
    ensures fresh(m) && m.Valid()
    ensures m.rollLen == 3 && m.roll == [a, b, c] && m.count == 3 && m.sum == a + b + c
  {
    m := new AverageMeter(3);
    m.Update(a, 1);
    assert m.roll == [a];
    m.Update(b, 1);
    assert m.roll == [a, b];
    m.Update(c, 1);
    assert m.roll == [a, b] + [c];
  }

  /** With a window of 3, a fourth single update `d` drops the oldest value:
      the window is `[b, c, d]`, while the overall average still counts `a`. */
  method RollingWindow(a: real, b: real, c: real, d: real) returns (roll: seq<real>, rollAvg: real, avg: real)
    ensures roll == [b, c, d]
    ensures rollAvg == (b + c + d) / 3.0
    ensures avg == (a + b + c + d) / 4.0
  {
    var m := WindowOfThreeFull(a, b, c);
    m.Update(d, 1);
    assert [a, b, c] + Repeat(d, 1) == [a, b, c, d];
    assert m.roll == [b, c, d];
    assert Sum([b, c, d]) == b + c + d by {
      assert SumTo([b, c, d], 1) == b;
      assert SumTo([b, c, d], 2) == b + c;
    }
    roll, rollAvg, avg := m.roll, m.rollAvg, m.avg;
  }

  /** `update(x, n=3)` on a fresh meter is three observations of `x`. */
  method BatchedUpdate(x: real) returns (count: nat, sum: real, avg: real, roll: seq<real>)
    ensures count == 3 && sum == 3.0 * x && avg == x && roll == [x, x, x]
  {
    var m := new AverageMeter();
    m.Update(x, n := 3);
    assert Repeat(x, 3) == [x, x, x];
    count, sum, avg, roll := m.count, m.sum, m.avg, m.roll;
  }

  /** `reset` after some updates restores the zero state and keeps the
      window length. */
  method ResetAfterUpdates(a: real, b: real)
    returns (val: real, avg: real, sum: real, count: nat, roll: seq<real>, rollAvg: real, rollLen: nat)
    ensures val == 0.0 && avg == 0.0 && sum == 0.0 && count == 0 && roll == [] && rollAvg == 0.0
    ensures rollLen == 2
  {
    var m := new AverageMeter(2);
    m.Update(a, 2);
    m.Update(b, 1);
    m.Reset();
    val, avg, sum, count, roll, rollAvg, rollLen := m.val, m.avg, m.sum, m.count, m.roll, m.rollAvg, m.rollLen;
  }
}
