/**
 * The amount of a campaign's budget counted as spent at a given moment, derived
 * from how many (started) days of the campaign have passed. The clock reading the
 * source takes inside the function is the parameter `now`.
 */
module SpentCalculator {
  import opened Wrappers

  const MsPerDay: int := 1000 * 60 * 60 * 24

  /** `Math.ceil(ms / MsPerDay)`: the number of started days in a span of `ms` milliseconds. */
  function Days(ms: int): (r: int)
    ensures (r - 1) * MsPerDay < ms <= r * MsPerDay
  {
    -((-ms) / MsPerDay)
  }

  lemma DaysMonotone(a: int, b: int)
    requires a <= b
    ensures Days(a) <= Days(b)
  {
  }

  /**
   * `Number(x.toFixed(2))`: the nearest multiple of 0.01, rounding half up. This is what
   * `toFixed(2)` gives for x >= 0 (section 21.1.3.3 of ECMA-262), the only amounts the schema
   * admits; for a negative tie `toFixed` rounds away from zero instead. Floating point is not modelled.
   */
  function Round2(x: real): (r: real)
    ensures x - 0.005 < r <= x + 0.005
    ensures WholeCents(r)
  {
    var cents := (x * 100.0 + 0.5).Floor;
    assert (cents as real / 100.0) * 100.0 == cents as real;
    cents as real / 100.0
  }

  /** `x` is a whole number of cents. */
  predicate WholeCents(x: real)
  {
    (x * 100.0).Floor as real == x * 100.0
  }

  lemma Round2Monotone(x: real, y: real)
    requires x <= y
    ensures Round2(x) <= Round2(y)
  {
    assert (x * 100.0 + 0.5).Floor <= (y * 100.0 + 0.5).Floor;
  }

  lemma Round2OfWholeCents(x: real)
    requires WholeCents(x)
    ensures Round2(x) == x
  {
    var k := (x * 100.0).Floor;
    assert (x * 100.0 + 0.5).Floor == k;
  }

  function Min(a: real, b: real): real
  {
    if a <= b then a else b
  }

  /** `(budget / totalDays) * passedDays`. */
  function Share(budget: real, totalDays: int, passedDays: int): real
    requires totalDays != 0
  {
    budget / totalDays as real * passedDays as real
  }

  /**
   * `calculateSpent(campaign)` at time `now`. None stands for the NaN the source
   * computes when the active branch divides by a zero day count.
   */
  function CalculateSpent(budget: real, startDate: int, endDate: int, now: int): (r: Option<real>)
    ensures r.None? <==> now == startDate == endDate
  {
    if now < startDate then Some(0.0)
    else if now > endDate then Some(budget)
    else
      var totalDays := Days(endDate - startDate);
      var passedDays := Days(now - startDate);
      if totalDays == 0 then None
      else Some(Round2(Min(budget, Share(budget, totalDays, passedDays))))
  }

  /** The three cases of the source: not started, over, and running. */
  lemma SpentCases(budget: real, startDate: int, endDate: int, now: int)
    requires startDate < endDate
    ensures now < startDate ==> CalculateSpent(budget, startDate, endDate, now) == Some(0.0)
    ensures now > endDate ==> CalculateSpent(budget, startDate, endDate, now) == Some(budget)
    ensures startDate <= now <= endDate ==>
      Days(endDate - startDate) >= 1 && 0 <= Days(now - startDate) <= Days(endDate - startDate)
      && CalculateSpent(budget, startDate, endDate, now)
         == Some(Round2(Min(budget, Share(budget, Days(endDate - startDate), Days(now - startDate)))))
  {
    if startDate <= now <= endDate {
      DaysMonotone(now - startDate, endDate - startDate);
    }
  }

  /** The fraction `passed / total` of a non-negative budget is between 0 and the budget. */
  lemma ShareBounds(budget: real, passed: int, total: int)
    requires budget >= 0.0 && 0 <= passed <= total && total >= 1
    ensures 0.0 <= Share(budget, total, passed) <= budget
  {
    var unit := budget / total as real;
    assert unit >= 0.0;
    assert unit * passed as real <= unit * total as real;
    assert unit * total as real == budget;
  }

  lemma ShareMonotone(budget: real, p: int, q: int, total: int)
    requires budget >= 0.0 && p <= q && total >= 1
    ensures Share(budget, total, p) <= Share(budget, total, q)
  {
    var unit := budget / total as real;
    assert unit >= 0.0;
    assert unit * (q - p) as real >= 0.0;
  }

  /** For any non-negative budget, the spent amount is a number and never negative. */
  lemma SpentNonNegative(budget: real, startDate: int, endDate: int, now: int)
    requires startDate < endDate && budget >= 0.0
    ensures CalculateSpent(budget, startDate, endDate, now).Some?
    ensures 0.0 <= CalculateSpent(budget, startDate, endDate, now).value
  {
    SpentCases(budget, startDate, endDate, now);
    if startDate <= now <= endDate {
      var total, passed := Days(endDate - startDate), Days(now - startDate);
      ShareBounds(budget, passed, total);
      Round2Monotone(0.0, Min(budget, Share(budget, total, passed)));
      Round2OfWholeCents(0.0);
    }
  }

  /** For a budget in whole cents, the spent amount is also at most the budget, at every moment. */
  lemma SpentWithinBudget(budget: real, startDate: int, endDate: int, now: int)
    requires startDate < endDate && budget >= 0.0 && WholeCents(budget)
    ensures CalculateSpent(budget, startDate, endDate, now).Some?
    ensures 0.0 <= CalculateSpent(budget, startDate, endDate, now).value <= budget
  {
    SpentNonNegative(budget, startDate, endDate, now);
    SpentCases(budget, startDate, endDate, now);
    if startDate <= now <= endDate {
      var total, passed := Days(endDate - startDate), Days(now - startDate);
      ShareBounds(budget, passed, total);
      Round2Monotone(Min(budget, Share(budget, total, passed)), budget);
      Round2OfWholeCents(budget);
    }
  }

  /** At the start moment nothing is spent. */
  lemma SpentAtStart(budget: real, startDate: int, endDate: int)
    requires startDate < endDate && budget >= 0.0
    ensures CalculateSpent(budget, startDate, endDate, startDate) == Some(0.0)
  {
    SpentCases(budget, startDate, endDate, startDate);
    assert Days(0) == 0;
    Round2OfWholeCents(0.0);
  }

  /** At the end moment the passed days equal the total days: the whole (rounded) budget is spent. */
  lemma SpentAtEnd(budget: real, startDate: int, endDate: int)
    requires startDate < endDate && budget >= 0.0
    ensures CalculateSpent(budget, startDate, endDate, endDate) == Some(Round2(budget))
    ensures WholeCents(budget) ==> CalculateSpent(budget, startDate, endDate, endDate) == Some(budget)
  {
    SpentCases(budget, startDate, endDate, endDate);
    var total := Days(endDate - startDate);
    assert Share(budget, total, total) == budget;
    if WholeCents(budget) {
      Round2OfWholeCents(budget);
    }
  }

  /** For a fixed campaign with a budget in whole cents, the spent amount never decreases as time passes. */
  lemma SpentMonotone(budget: real, startDate: int, endDate: int, now1: int, now2: int)
    requires startDate < endDate && budget >= 0.0 && WholeCents(budget) && now1 <= now2
    ensures CalculateSpent(budget, startDate, endDate, now1).Some?
    ensures CalculateSpent(budget, startDate, endDate, now2).Some?
    ensures CalculateSpent(budget, startDate, endDate, now1).value <= CalculateSpent(budget, startDate, endDate, now2).value
  {
    SpentWithinBudget(budget, startDate, endDate, now1);
    SpentWithinBudget(budget, startDate, endDate, now2);
    SpentCases(budget, startDate, endDate, now1);
    SpentCases(budget, startDate, endDate, now2);
    if startDate <= now1 && now2 <= endDate {
      var total := Days(endDate - startDate);
      var p1, p2 := Days(now1 - startDate), Days(now2 - startDate);
      DaysMonotone(now1 - startDate, now2 - startDate);
      ShareMonotone(budget, p1, p2, total);
      Round2Monotone(Min(budget, Share(budget, total, p1)), Min(budget, Share(budget, total, p2)));
    }
  }

  /** Ten-day campaign, five days in: half of a 1000 budget. */
  lemma SpentHalfway()
    ensures CalculateSpent(1000.0, 0, 10 * MsPerDay, 5 * MsPerDay) == Some(500.0)
  {
    assert Days(10 * MsPerDay) == 10;
    assert Days(5 * MsPerDay) == 5;
    assert Share(1000.0, 10, 5) == 500.0;
    Round2OfWholeCents(500.0);
  }

  /**
   * The bound `spent <= budget` needs a budget in whole cents: at the end moment a
   * budget of half a cent is rounded up past itself.
   */
  lemma SubCentBudgetRoundsUp()
    ensures CalculateSpent(0.005, 0, MsPerDay, MsPerDay) == Some(0.01)
  {
    assert Days(MsPerDay) == 1;
    assert Share(0.005, 1, 1) == 0.005;
    assert (0.005 * 100.0 + 0.5).Floor == 1;
  }
}
