/**
 * The page's key indicators over the filtered rows: total farmers trained
 * (an integer sum) and average women participation (a mean that is missing
 * for an empty selection).
 */
module Kpi {
  import opened Wrappers
  import opened Frame

  ghost predicate NonNegativeFarmers(rows: seq<Row>)
  {
    forall i :: 0 <= i < |rows| ==> rows[i].record.farmersTrained >= 0
  }

  ghost predicate PercentagesInRange(rows: seq<Row>)
  {
    forall i :: 0 <= i < |rows| ==> 0 <= rows[i].record.womenPct <= 100
  }

  /** Sum of the Farmers Trained column; 0 for no rows, never negative for non-negative counts. */
  function TotalFarmersTrained(rows: seq<Row>): (total: int)
    ensures rows == [] ==> total == 0
    ensures NonNegativeFarmers(rows) ==> total >= 0
  {
    if rows == [] then 0
    else rows[0].record.farmersTrained + TotalFarmersTrained(rows[1..])
  }

  /** Deleting rows with non-negative counts never raises the total. */
  lemma {:induction false} TotalOfSubsequence(a: seq<Row>, b: seq<Row>)
    requires SubsequenceOf(a, b)
    requires NonNegativeFarmers(b)
    ensures 0 <= TotalFarmersTrained(a) <= TotalFarmersTrained(b)
    decreases |b|
  {
    if b != [] {
      if a != [] && a[0] == b[0] && SubsequenceOf(a[1..], b[1..]) {
        TotalOfSubsequence(a[1..], b[1..]);
      } else {
        TotalOfSubsequence(a, b[1..]);
      }
    }
  }

  /** Sum of the Women (%) column; between 0 and 100 per row for percentages in range. */
  function WomenPctSum(rows: seq<Row>): (sum: int)
    ensures PercentagesInRange(rows) ==> 0 <= sum <= 100 * |rows|
  {
    if rows == [] then 0
    else rows[0].record.womenPct + WomenPctSum(rows[1..])
  }

  /**
   * Mean of the Women (%) column: missing (not a number) for no rows, and
   * otherwise a percentage whenever every row's value is one.
   */
  function MeanWomenPct(rows: seq<Row>): (mean: Option<real>)
    ensures mean.None? <==> rows == []
    ensures mean.Some? ==> mean.value * |rows| as real == WomenPctSum(rows) as real
    ensures mean.Some? && PercentagesInRange(rows) ==> 0.0 <= mean.value <= 100.0
  {
    if rows == [] then None
    else Some(WomenPctSum(rows) as real / |rows| as real)
  }
}
