/** The fixed cost figures of the cost predictor screen. */
module CostPredictor {

  /** A total with its breakdown by category. */
  datatype CostBreakdown = CostBreakdown(total: int, breakdown: seq<(string, int)>)

  function SumAmounts(items: seq<(string, int)>): int
  {
    if |items| == 0 then 0 else items[0].1 + SumAmounts(items[1..])
  }

  /** `calculateMonthlyCosts`: the hard-coded monthly figures. */
  function MonthlyCosts(): (r: CostBreakdown)
    ensures r.total == SumAmounts(r.breakdown)
  {
    CostBreakdown(250, [("food", 100), ("supplies", 50), ("healthcare", 75), ("grooming", 25)])
  }

  /** `calculateAnnualCosts`: the hard-coded annual figures. */
  function AnnualCosts(): (r: CostBreakdown)
    ensures r.total == SumAmounts(r.breakdown)
  {
    CostBreakdown(3000, [("routine_care", 800), ("vaccinations", 400), ("preventive_meds", 600),
                         ("grooming", 300), ("supplies", 900)])
  }
}
