/** The arithmetic of an interpolated pain ramp: Python's `round(x, 1)` on
    the values written, and the per-row step between two reports. */
module PainMath {

  /** `x` is a whole number of tenths. */
  predicate IsTenth(x: real) {
    (x * 10.0).Floor as real == x * 10.0
  }

  /** `round(x, 1)`: the nearest multiple of 0.1, an exact tie going to the
      even multiple, as Python rounds. Floating-point representation error
      is not modelled: `x` is the exact value. */
  function RoundTenth(x: real): (r: real)
    ensures IsTenth(r)
    ensures -0.05 <= r - x <= 0.05
    ensures -0.05 < r - x < 0.05 || (r * 10.0).Floor % 2 == 0
  {
    var k := (x * 10.0).Floor;
    var frac := x * 10.0 - k as real;
    var n := if frac < 0.5 then k
             else if frac > 0.5 then k + 1
             else if k % 2 == 0 then k else k + 1;
    assert -0.5 <= n as real - x * 10.0 <= 0.5;
    assert (n as real / 10.0) * 10.0 == n as real;
    assert n as real / 10.0 - x == (n as real - x * 10.0) / 10.0;
    n as real / 10.0
  }

  /** Rounding never reverses the order of two values. */
  lemma RoundTenthMonotone(x: real, y: real)
    requires x <= y
    ensures RoundTenth(x) <= RoundTenth(y)
  {
    var kx, ky := (x * 10.0).Floor, (y * 10.0).Floor;
    assert kx <= ky;
    if kx == ky {
      assert x * 10.0 - kx as real <= y * 10.0 - ky as real;
    }
  }

  /** A value that already has one decimal is left as it is. */
  lemma RoundTenthKeepsTenths(x: real)
    requires IsTenth(x)
    ensures RoundTenth(x) == x
  {
  }

  /** `_normalize_pain`: the amount the pain falls per table row when the
      previous report at row `startPos` and the new one at row `endPos` are
      joined by a straight line. Zero when the two rows coincide; a negative
      step is a rising ramp. */
  function Step(prev: real, curr: real, startPos: int, endPos: int): (step: real)
    ensures endPos == startPos ==> step == 0.0
    ensures endPos != startPos ==> step * (endPos - startPos) as real == prev - curr
  {
    var hours := endPos - startPos;
    if hours == 0 then 0.0 else (prev - curr) / hours as real
  }

  /** `round(prev - step * offset, 1)`, the level the ramp writes `offset`
      rows after the previous report. */
  function RampLevel(prev: real, step: real, offset: int): real {
    RoundTenth(prev - step * offset as real)
  }

  /** The unrounded value the ramp assigns to row `pos`. */
  function RampValue(prev: real, curr: real, startPos: int, endPos: int, pos: int): real {
    prev - Step(prev, curr, startPos, endPos) * (pos - startPos) as real
  }

  /** The ramp starts at the previous level and, when the rows differ, ends
      at the new one. */
  lemma RampEnds(prev: real, curr: real, startPos: int, endPos: int)
    ensures RampValue(prev, curr, startPos, endPos, startPos) == prev
    ensures startPos != endPos ==> RampValue(prev, curr, startPos, endPos, endPos) == curr
  {
  }

  lemma ScaleMonotone(a: real, x: real, y: real)
    requires 0.0 <= a && x <= y
    ensures a * x <= a * y
  {
    assert a * y - a * x == a * (y - x);
  }

  /** The step has the sign of `prev - curr` on a forward range. */
  lemma StepSign(prev: real, curr: real, startPos: int, endPos: int)
    requires startPos < endPos
    ensures prev >= curr ==> Step(prev, curr, startPos, endPos) >= 0.0
    ensures prev <= curr ==> Step(prev, curr, startPos, endPos) <= 0.0
  {
    var n := (endPos - startPos) as real;
    assert Step(prev, curr, startPos, endPos) == (prev - curr) / n;
  }

  /** Along the range the unrounded ramp moves in one direction only: down
      when the pain fell, up when it rose. */
  lemma RampMonotone(prev: real, curr: real, startPos: int, endPos: int, i: int, j: int)
    requires startPos <= i <= j <= endPos
    ensures prev >= curr ==> RampValue(prev, curr, startPos, endPos, i) >= RampValue(prev, curr, startPos, endPos, j)
    ensures prev <= curr ==> RampValue(prev, curr, startPos, endPos, i) <= RampValue(prev, curr, startPos, endPos, j)
  {
    var s := Step(prev, curr, startPos, endPos);
    var di, dj := (i - startPos) as real, (j - startPos) as real;
    if startPos < endPos {
      StepSign(prev, curr, startPos, endPos);
      if prev >= curr {
        ScaleMonotone(s, di, dj);
      }
      if prev <= curr {
        ScaleMonotone(-s, di, dj);
        assert (-s) * di == -(s * di) && (-s) * dj == -(s * dj);
      }
    }
  }

  /** Every unrounded value of the ramp lies between the two reported levels. */
  lemma RampBetween(prev: real, curr: real, startPos: int, endPos: int, pos: int)
    requires startPos <= pos <= endPos
    ensures prev >= curr ==> curr <= RampValue(prev, curr, startPos, endPos, pos) <= prev
    ensures prev <= curr ==> prev <= RampValue(prev, curr, startPos, endPos, pos) <= curr
  {
    RampEnds(prev, curr, startPos, endPos);
    if startPos < endPos {
      RampMonotone(prev, curr, startPos, endPos, startPos, pos);
      RampMonotone(prev, curr, startPos, endPos, pos, endPos);
    } else {
      assert pos == startPos;
    }
  }

  /** The written (rounded) ramp moves in one direction only. */
  lemma RoundedRampMonotone(prev: real, curr: real, startPos: int, endPos: int, i: int, j: int)
    requires startPos <= i <= j <= endPos
    ensures var step := Step(prev, curr, startPos, endPos);
      (prev >= curr ==> RampLevel(prev, step, i - startPos) >= RampLevel(prev, step, j - startPos)) &&
      (prev <= curr ==> RampLevel(prev, step, i - startPos) <= RampLevel(prev, step, j - startPos))
  {
    var step := Step(prev, curr, startPos, endPos);
    RampMonotone(prev, curr, startPos, endPos, i, j);
    var vi, vj := RampValue(prev, curr, startPos, endPos, i), RampValue(prev, curr, startPos, endPos, j);
    assert RampLevel(prev, step, i - startPos) == RoundTenth(vi);
    assert RampLevel(prev, step, j - startPos) == RoundTenth(vj);
    if prev >= curr { RoundTenthMonotone(vj, vi); }
    if prev <= curr { RoundTenthMonotone(vi, vj); }
  }

  /** The written ramp starts at the rounded previous level and, when the rows
      differ, ends at the rounded new level. */
  lemma RoundedRampEnds(prev: real, curr: real, startPos: int, endPos: int)
    ensures RampLevel(prev, Step(prev, curr, startPos, endPos), 0) == RoundTenth(prev)
    ensures startPos != endPos ==>
      RampLevel(prev, Step(prev, curr, startPos, endPos), endPos - startPos) == RoundTenth(curr)
  {
    var step := Step(prev, curr, startPos, endPos);
    RampEnds(prev, curr, startPos, endPos);
    assert prev - step * 0 as real == prev;
    if startPos != endPos {
      assert prev - step * (endPos - startPos) as real == curr;
    }
  }

  /** When both reported levels lie in a range bounded by whole tenths, so
      does every level the ramp writes. */
  lemma RoundedRampWithin(prev: real, curr: real, startPos: int, endPos: int, pos: int, lo: real, hi: real)
    requires startPos <= pos <= endPos
    requires IsTenth(lo) && IsTenth(hi)
    requires lo <= prev <= hi && lo <= curr <= hi
    ensures lo <= RampLevel(prev, Step(prev, curr, startPos, endPos), pos - startPos) <= hi
  {
    var v := RampValue(prev, curr, startPos, endPos, pos);
    assert RampLevel(prev, Step(prev, curr, startPos, endPos), pos - startPos) == RoundTenth(v);
    RampBetween(prev, curr, startPos, endPos, pos);
    assert lo <= v <= hi;
    RoundTenthMonotone(lo, v);
    RoundTenthMonotone(v, hi);
    RoundTenthKeepsTenths(lo);
    RoundTenthKeepsTenths(hi);
  }
}
