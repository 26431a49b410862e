/**
 * The dashboard's hard-coded intervention table and the derived
 * "Yield Increase (%)" value of a record.
 */
module Records {

  /** One intervention: a row of the sample table. Yields are in t/ha. */
  datatype Record = Record(
    region: string,
    valueChain: string,
    csaPractice: string,
    farmersTrained: int,
    womenPct: int,
    youthPct: int,
    yieldBefore: real,
    yieldAfter: real)

  /**
   * A percentage obtained by floating-point division: a finite value, or the
   * infinity / not-a-number that the division gives when the divisor is zero.
   */
  datatype Percent = Finite(value: real) | NotFinite

  /** The six records, in the order the table lists them. */
  const Table: seq<Record> := [
    Record("Bo", "Rice", "Bunds & Compost", 1500, 42, 30, 1.2, 2.1),
    Record("Kenema", "Cocoa", "Improved Seedlings", 1200, 38, 25, 0.8, 1.6),
    Record("Kono", "Oil Palm", "Mulching & Drainage", 1100, 36, 28, 1.0, 1.8),
    Record("Kailahun", "Vegetables", "Drip Irrigation", 1800, 55, 50, 2.5, 4.2),
    Record("Tonkolili", "Rice", "Raised Beds", 1300, 48, 40, 1.1, 2.3),
    Record("Port Loko", "Vegetables", "Shading & Mulching", 1600, 53, 45, 2.2, 3.8)
  ]

  /**
   * (after - before) / before * 100. The result is finite exactly when the
   * yield before is non-zero; it then recovers the yield after from the yield
   * before, and it is positive exactly when the yield grew.
   */
  function YieldIncrease(r: Record): (p: Percent)
    ensures p.Finite? <==> r.yieldBefore != 0.0
    ensures p.Finite? ==> r.yieldAfter == r.yieldBefore + r.yieldBefore * p.value / 100.0
    ensures p.Finite? && r.yieldBefore > 0.0 ==> (p.value > 0.0 <==> r.yieldAfter > r.yieldBefore)
  {
    if r.yieldBefore == 0.0 then NotFinite
    else Finite((r.yieldAfter - r.yieldBefore) / r.yieldBefore * 100.0)
  }

  /** The table's six rows and its numeric columns, in table order. */
  lemma TableColumns()
    ensures |Table| == 6
    ensures forall i :: 0 <= i < |Table| ==>
      Table[i].farmersTrained == [1500, 1200, 1100, 1800, 1300, 1600][i] &&
      Table[i].womenPct == [42, 38, 36, 55, 48, 53][i] &&
      Table[i].youthPct == [30, 25, 28, 50, 40, 45][i]
  {
  }

  /** Every record of the table had a positive yield before, and it grew. */
  lemma TableYieldsGrow()
    ensures forall i :: 0 <= i < |Table| ==> 0.0 < Table[i].yieldBefore < Table[i].yieldAfter
  {
  }

  /** Hence the table's yield increases are all finite and positive. */
  lemma TableYieldIncreasesPositive()
    ensures forall i :: 0 <= i < |Table| ==>
      YieldIncrease(Table[i]).Finite? && YieldIncrease(Table[i]).value > 0.0
  {
  }
}
