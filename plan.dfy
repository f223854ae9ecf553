/**
 * The day ranges of the four-phase study plan (main.py:96, main.py:102-107):
 * the quarter length is the number of days left floor-divided by four, the
 * first three phases take one quarter each and the last takes the rest.
 */
module StudyPlan {

  /** The days from `first` to `last` inclusive, printed as "Days first-last"; empty when last < first. */
  datatype DayRange = DayRange(first: int, last: int)

  /** Number of days in a range. */
  function Len(r: DayRange): nat
  {
    if r.last >= r.first then r.last - r.first + 1 else 0
  }

  predicate Contains(r: DayRange, d: int)
  {
    r.first <= d <= r.last
  }

  /** The four phase ranges for a plan of `daysLeft` days (the widget's minimum is one day). */
  function Phases(daysLeft: int): (r: seq<DayRange>)
    requires daysLeft >= 1
    ensures |r| == 4
    ensures r[0].first == 1 && r[3].last == daysLeft
    ensures forall k :: 0 <= k < 3 ==> r[k + 1].first == r[k].last + 1
    ensures forall k :: 0 <= k < 3 ==> Len(r[k]) == daysLeft / 4
  {
    var p := daysLeft / 4;
    [DayRange(1, p), DayRange(p + 1, 2 * p), DayRange(2 * p + 1, 3 * p), DayRange(3 * p + 1, daysLeft)]
  }

  /**
   * An independent account of which phase day `d` falls in: the number of
   * whole quarters before it, with the remainder days going to the last phase.
   */
  function PhaseOf(daysLeft: int, d: int): (k: nat)
    requires daysLeft >= 1 && 1 <= d <= daysLeft
    ensures k < 4
  {
    var p := daysLeft / 4;
    if p == 0 then 3 else if (d - 1) / p < 3 then (d - 1) / p else 3
  }

  /** Quotient bounds for a positive divisor, in the multiplicative form the phase proofs use. */
  lemma DivBounds(x: int, p: int)
    requires x >= 0 && p > 0
    ensures p * (x / p) <= x < p * (x / p + 1)
  {
  }

  /** If x lies in the k-th block of length p, its quotient by p is k. */
  lemma {:induction false} DivInBlock(x: int, p: int, k: int)
    requires p > 0 && k >= 0 && k * p <= x < (k + 1) * p
    ensures x / p == k
  {
    var q := x / p;
    DivBounds(x, p);
    if q < k {
      assert q + 1 <= k;
      MulMonotone(p, q + 1, k);
    } else if q > k {
      assert k + 1 <= q;
      MulMonotone(p, k + 1, q);
    }
  }

  lemma MulMonotone(p: int, a: int, b: int)
    requires p > 0 && a <= b
    ensures p * a <= p * b
  {
  }

  /** Every day of the plan lies in exactly one phase, the one PhaseOf names. */
  lemma {:induction false} PhasesPartition(daysLeft: int, d: int)
    requires daysLeft >= 1 && 1 <= d <= daysLeft
    ensures Contains(Phases(daysLeft)[PhaseOf(daysLeft, d)], d)
    ensures forall k :: 0 <= k < 4 && Contains(Phases(daysLeft)[k], d) ==> k == PhaseOf(daysLeft, d)
  {
    var p := daysLeft / 4;
    var r := Phases(daysLeft);
    DivBounds(daysLeft, 4);
    if p > 0 {
      var q := (d - 1) / p;
      DivBounds(d - 1, p);
      forall k | 0 <= k < 3 && Contains(r[k], d) ensures k == q {
        assert r[k] == DayRange(k * p + 1, (k + 1) * p);
        DivInBlock(d - 1, p, k);
      }
      if q >= 3 {
        MulMonotone(p, 3, q);
        assert Contains(r[3], d);
      } else {
        assert r[q] == DayRange(q * p + 1, (q + 1) * p);
        assert Contains(r[q], d);
        assert !Contains(r[3], d);
      }
    }
  }

  /** No day outside 1..daysLeft lies in any phase: together the phases are exactly the plan's days. */
  lemma PhasesWithinPlan(daysLeft: int, d: int, k: int)
    requires daysLeft >= 1 && 0 <= k < 4
    requires Contains(Phases(daysLeft)[k], d)
    ensures 1 <= d <= daysLeft
  {
  }

  /** The phase lengths add up to the plan, and the last phase has between one and four quarters' worth. */
  lemma PhaseLengths(daysLeft: int)
    requires daysLeft >= 1
    ensures var r := Phases(daysLeft);
            Len(r[0]) + Len(r[1]) + Len(r[2]) + Len(r[3]) == daysLeft
    ensures var p := daysLeft / 4;
            && Len(Phases(daysLeft)[3]) == daysLeft - 3 * p
            && p <= daysLeft - 3 * p <= p + 3
  {
  }

  /** Twenty days split into four phases of five. */
  lemma TwentyDays()
    ensures Phases(20) == [DayRange(1, 5), DayRange(6, 10), DayRange(11, 15), DayRange(16, 20)]
  {
  }

  /** Under four days the first three phases are empty ("Days 1-0") and the last holds every day. */
  lemma ShortPlan(daysLeft: int)
    requires 1 <= daysLeft < 4
    ensures var r := Phases(daysLeft);
            && r[0] == r[1] == r[2] == DayRange(1, 0)
            && Len(r[0]) == Len(r[1]) == Len(r[2]) == 0
            && r[3] == DayRange(1, daysLeft)
  {
  }
}
