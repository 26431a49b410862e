/**
 * The page's wildcard filter: an equality filter on Region and on Value
 * Chain, where the option "All" places no constraint on its column.
 */
module Filters {
  import opened Frame
  import opened Options

  /** Whether a row passes both filters. */
  predicate Matches(row: Row, regionFilter: string, valueChainFilter: string)
  {
    && (regionFilter == All || row.record.region == regionFilter)
    && (valueChainFilter == All || row.record.valueChain == valueChainFilter)
  }

  /** Reference definition: the rows passing both filters, in one pass, in table order. */
  function Selected(rows: seq<Row>, regionFilter: string, valueChainFilter: string): (kept: seq<Row>)
    ensures |kept| <= |rows|
    ensures forall i :: 0 <= i < |kept| ==> Matches(kept[i], regionFilter, valueChainFilter)
  {
    if rows == [] then []
    else if Matches(rows[0], regionFilter, valueChainFilter) then
      [rows[0]] + Selected(rows[1..], regionFilter, valueChainFilter)
    else Selected(rows[1..], regionFilter, valueChainFilter)
  }

  /** With both filters on "All", every row is kept, in the same order. */
  lemma {:induction false} SelectAllIsIdentity(rows: seq<Row>)
    ensures Selected(rows, All, All) == rows
  {
    if rows != [] {
      SelectAllIsIdentity(rows[1..]);
    }
  }

  /**
   * Each row occurs in the result exactly as often as in the input if it
   * passes both filters, and not at all otherwise.
   */
  lemma {:induction false} SelectedCount(rows: seq<Row>, regionFilter: string, valueChainFilter: string, x: Row)
    ensures multiset(Selected(rows, regionFilter, valueChainFilter))[x] ==
      if Matches(x, regionFilter, valueChainFilter) then multiset(rows)[x] else 0
  {
    if rows != [] {
      assert rows == [rows[0]] + rows[1..];
      SelectedCount(rows[1..], regionFilter, valueChainFilter, x);
    }
  }

  /**
   * A row is kept exactly when it is in the input and passes both filters:
   * with a region chosen, every kept row has that region and no row of that
   * region passing the value-chain filter is dropped; likewise for the value chain.
   */
  lemma {:induction false} SelectedMembership(rows: seq<Row>, regionFilter: string, valueChainFilter: string, x: Row)
    ensures x in Selected(rows, regionFilter, valueChainFilter) <==>
      && x in rows
      && (regionFilter != All ==> x.record.region == regionFilter)
      && (valueChainFilter != All ==> x.record.valueChain == valueChainFilter)
  {
    SelectedCount(rows, regionFilter, valueChainFilter, x);
  }

  /** The filter only deletes rows: it never adds, alters or reorders any. */
  lemma {:induction false} SelectedIsSubsequence(rows: seq<Row>, regionFilter: string, valueChainFilter: string)
    ensures SubsequenceOf(Selected(rows, regionFilter, valueChainFilter), rows)
    ensures |Selected(rows, regionFilter, valueChainFilter)| <= |rows|
  {
    if rows != [] {
      SelectedIsSubsequence(rows[1..], regionFilter, valueChainFilter);
    }
  }

  /** Filtering by region alone is the boolean mask on the Region column. */
  lemma {:induction false} RegionStep(rows: seq<Row>, regionFilter: string)
    requires regionFilter != All
    ensures KeepWhere(rows, RegionColumn, regionFilter) == Selected(rows, regionFilter, All)
  {
    if rows != [] {
      RegionStep(rows[1..], regionFilter);
    }
  }

  /**
   * Masking the region-filtered rows on the Value Chain column gives the rows
   * that pass both filters.
   */
  lemma {:induction false} ValueChainStep(rows: seq<Row>, regionFilter: string, valueChainFilter: string)
    requires valueChainFilter != All
    ensures KeepWhere(Selected(rows, regionFilter, All), ValueChainColumn, valueChainFilter) ==
      Selected(rows, regionFilter, valueChainFilter)
  {
    if rows != [] {
      ValueChainStep(rows[1..], regionFilter, valueChainFilter);
    }
  }

  /**
   * The page's filtering: copy the frame, then mask on Region unless the
   * region filter is "All", then mask on Value Chain unless that filter is
   * "All". The result is a new frame; the input frame is left unchanged.
   */
  method ApplyFilters(df: DataFrame, regionFilter: string, valueChainFilter: string) returns (filtered: DataFrame)
    ensures fresh(filtered)
    ensures filtered.rows == Selected(df.rows, regionFilter, valueChainFilter)
    ensures unchanged(df)
  {
    filtered := df.Copy();
    if regionFilter != All {
      RegionStep(df.rows, regionFilter);
      filtered := filtered.Where(RegionColumn, regionFilter);
    } else {
      SelectAllIsIdentity(df.rows);
    }
    if valueChainFilter != All {
      ValueChainStep(df.rows, regionFilter, valueChainFilter);
      filtered := filtered.Where(ValueChainColumn, valueChainFilter);
    }
  }
}
