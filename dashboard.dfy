/**
 * The page's data pipeline put together: build the frame from the table,
 * add the yield column, offer the option lists, filter on the chosen
 * options and compute the indicators.
 */
module Dashboard {
  import opened Wrappers
  import opened Records
  import opened Frame
  import opened Options
  import opened Filters
  import opened Kpi

  /** The rows of the page's frame once the yield column has been added. */
  const PageRows: seq<Row> := WithYieldIncrease(FromRecords(Table))

  /** The page frame's rows hold the table's records, in table order. */
  lemma PageRecords()
    ensures |PageRows| == |Table|
    ensures forall i :: 0 <= i < |Table| ==> PageRows[i].record == Table[i]
  {
  }

  const Regions: seq<string> := ["Bo", "Kenema", "Kono", "Kailahun", "Tonkolili", "Port Loko"]
  const ValueChains: seq<string> := ["Rice", "Cocoa", "Oil Palm", "Vegetables"]

  /** The Region column of the page's frame, in table order. */
  lemma RegionColumnOfTable()
    ensures ColumnValues(PageRows, RegionColumn) == Regions
  {
  }

  /** The Value Chain column of the page's frame: the four chains, then Rice and Vegetables again. */
  lemma ValueChainColumnOfTable()
    ensures ColumnValues(PageRows, ValueChainColumn) == ValueChains + ["Rice", "Vegetables"]
  {
  }

  /** The region drop-down offers "All" and the six regions in table order. */
  lemma RegionOptionsOfTable()
    ensures OptionList(ColumnValues(PageRows, RegionColumn)) == [All] + Regions
  {
    RegionColumnOfTable();
    assert Distinct(Regions);
    UniqueOfDistinct(Regions);
  }

  /** The value-chain drop-down offers "All" and the four value chains, first appearance first. */
  lemma ValueChainOptionsOfTable()
    ensures OptionList(ColumnValues(PageRows, ValueChainColumn)) == [All] + ValueChains
  {
    ValueChainColumnOfTable();
    assert Distinct(ValueChains);
    UniqueOfDistinct(ValueChains);
    UniqueIgnoresRepeats(ValueChains, ["Rice", "Vegetables"]);
  }

  /** The unfiltered total of farmers trained. */
  lemma TableTotal()
    ensures TotalFarmersTrained(PageRows) == 8500
  {
    assert TotalFarmersTrained(PageRows[6..]) == 0;
    assert TotalFarmersTrained(PageRows[5..]) == 1600;
    assert TotalFarmersTrained(PageRows[4..]) == 2900;
    assert TotalFarmersTrained(PageRows[3..]) == 4700;
    assert TotalFarmersTrained(PageRows[2..]) == 5800;
    assert TotalFarmersTrained(PageRows[1..]) == 7000;
    assert PageRows[0..] == PageRows;
  }

  /**
   * Whatever the two filters, at most the six rows are kept and the farmers
   * total lies between 0 and the full-table total, which it reaches when both
   * filters are "All".
   */
  lemma FilteredBounds(regionFilter: string, valueChainFilter: string)
    ensures |Selected(PageRows, regionFilter, valueChainFilter)| <= 6
    ensures 0 <= TotalFarmersTrained(Selected(PageRows, regionFilter, valueChainFilter)) <= 8500
    ensures regionFilter == All && valueChainFilter == All ==>
      TotalFarmersTrained(Selected(PageRows, regionFilter, valueChainFilter)) == 8500
  {
    SelectedIsSubsequence(PageRows, regionFilter, valueChainFilter);
    TotalOfSubsequence(Selected(PageRows, regionFilter, valueChainFilter), PageRows);
    TableTotal();
    SelectAllIsIdentity(PageRows);
  }

  /** When no row passes the filters, nothing is kept and the farmers total is 0. */
  lemma {:induction false} NoMatchTotalZero(rows: seq<Row>, regionFilter: string, valueChainFilter: string)
    requires forall i :: 0 <= i < |rows| ==> !Matches(rows[i], regionFilter, valueChainFilter)
    ensures Selected(rows, regionFilter, valueChainFilter) == []
    ensures TotalFarmersTrained(Selected(rows, regionFilter, valueChainFilter)) == 0
  {
    var kept := Selected(rows, regionFilter, valueChainFilter);
    if kept != [] {
      SelectedMembership(rows, regionFilter, valueChainFilter, kept[0]);
      assert false;
    }
  }

  /** Every row of the page's frame carries a finite, positive yield increase. */
  lemma PageYieldIncreasesPositive()
    ensures forall i :: 0 <= i < |PageRows| ==>
      PageRows[i].yieldIncrease.Some? && PageRows[i].yieldIncrease.value.Finite? &&
      PageRows[i].yieldIncrease.value.value > 0.0
  {
  }

  /**
   * One evaluation of the page for the chosen drop-down values: the option
   * lists, the filtered frame and the two indicators.
   */
  method Page(regionFilter: string, valueChainFilter: string)
    returns (regionOptions: seq<string>, valueChainOptions: seq<string>,
             filtered: DataFrame, totalFarmers: int, womenMean: Option<real>)
    ensures regionOptions == [All] + Regions
    ensures valueChainOptions == [All] + ValueChains
    ensures fresh(filtered)
    ensures filtered.rows == Selected(PageRows, regionFilter, valueChainFilter)
    ensures totalFarmers == TotalFarmersTrained(filtered.rows) && 0 <= totalFarmers <= 8500
    ensures womenMean == MeanWomenPct(filtered.rows)
  {
    var df := new DataFrame(FromRecords(Table));
    df.AddYieldIncreaseColumn();
    regionOptions := OptionList(ColumnValues(df.rows, RegionColumn));
    valueChainOptions := OptionList(ColumnValues(df.rows, ValueChainColumn));
    RegionOptionsOfTable();
    ValueChainOptionsOfTable();
    filtered := ApplyFilters(df, regionFilter, valueChainFilter);
    FilteredBounds(regionFilter, valueChainFilter);
    totalFarmers := TotalFarmersTrained(filtered.rows);
    womenMean := MeanWomenPct(filtered.rows);
  }
}
