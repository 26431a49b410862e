/**
 * The option lists of the two filter drop-downs: the wildcard "All" followed
 * by the distinct values of a column in order of first appearance.
 */
module Options {

  /** The wildcard option: selecting it places no constraint on the column. */
  const All: string := "All"

  ghost predicate Distinct<T>(s: seq<T>)
  {
    forall i, j :: 0 <= i < j < |s| ==> s[i] != s[j]
  }

  /** The position where `x` first occurs in `s`. */
  function FirstIndex<T(==)>(s: seq<T>, x: T): (i: nat)
    requires x in s
    ensures i < |s| && s[i] == x && x !in s[..i]
  {
    if s[0] == x then 0
    else
      var k := FirstIndex(s[1..], x);
      assert s[..k + 1] == [s[0]] + s[1..][..k];
      k + 1
  }

  /**
   * The distinct values of `s`, each once, in the order they first appear
   * (what a column's unique() gives).
   */
  function Unique(s: seq<string>): (u: seq<string>)
    ensures Distinct(u)
    ensures forall x :: x in u <==> x in s
    ensures |u| <= |s|
    decreases |s|
  {
    if s == [] then []
    else
      var init, last := s[..|s| - 1], s[|s| - 1];
      assert s == init + [last];
      var u := Unique(init);
      if last in u then u else u + [last]
  }

  /** Appending a value already seen leaves the distinct values alone; a new one goes last. */
  lemma UniqueSnoc(init: seq<string>, last: string)
    ensures Unique(init + [last]) == if last in init then Unique(init) else Unique(init) + [last]
  {
  }

  /** A sequence without repeats is its own list of distinct values. */
  lemma {:induction false} UniqueOfDistinct(s: seq<string>)
    requires Distinct(s)
    ensures Unique(s) == s
    decreases |s|
  {
    if s != [] {
      var init, last := s[..|s| - 1], s[|s| - 1];
      assert s == init + [last];
      UniqueOfDistinct(init);
      UniqueSnoc(init, last);
    }
  }

  /** Appending values that were all seen before adds nothing to the distinct values. */
  lemma {:induction false} UniqueIgnoresRepeats(p: seq<string>, t: seq<string>)
    requires forall x :: x in t ==> x in p
    ensures Unique(p + t) == Unique(p)
    decreases |t|
  {
    if t != [] {
      var init, last := t[..|t| - 1], t[|t| - 1];
      assert p + t == (p + init) + [last];
      assert last in t;
      UniqueIgnoresRepeats(p, init);
      UniqueSnoc(p + init, last);
    } else {
      assert p + t == p;
    }
  }

  /** A value occurring in a prefix first occurs at the same place in any extension. */
  lemma {:induction false} FirstIndexInPrefix<T>(p: seq<T>, t: seq<T>, x: T)
    requires x in p
    ensures FirstIndex(p + t, x) == FirstIndex(p, x)
  {
    if p[0] != x {
      assert (p + t)[1..] == p[1..] + t;
      FirstIndexInPrefix(p[1..], t, x);
    }
  }

  /** Unique lists the values in order of their first appearance in `s`. */
  lemma {:induction false} UniqueInFirstAppearanceOrder(s: seq<string>)
    ensures forall i, j :: 0 <= i < j < |Unique(s)| ==>
      FirstIndex(s, Unique(s)[i]) < FirstIndex(s, Unique(s)[j])
    decreases |s|
  {
    if s != [] {
      var init, last := s[..|s| - 1], s[|s| - 1];
      assert s == init + [last];
      var u0 := Unique(init);
      UniqueInFirstAppearanceOrder(init);
      forall x | x in u0
        ensures FirstIndex(s, x) == FirstIndex(init, x) < |init|
      {
        FirstIndexInPrefix(init, [last], x);
      }
      var u := Unique(s);
      assert u == if last in u0 then u0 else u0 + [last];
      forall i, j | 0 <= i < j < |u|
        ensures FirstIndex(s, u[i]) < FirstIndex(s, u[j])
      {
        assert u[i] == u0[i] && u0[i] in u0;
        if j < |u0| {
          assert u[j] == u0[j] && u0[j] in u0;
          assert FirstIndex(init, u0[i]) < FirstIndex(init, u0[j]);
        } else {
          assert u[j] == last;
        }
      }
    }
  }

  /** The drop-down options for a column: "All", then its distinct values. */
  function OptionList(values: seq<string>): (opts: seq<string>)
    ensures |opts| >= 1 && opts[0] == All
    ensures forall x :: x in opts[1..] <==> x in values
    ensures Distinct(opts[1..])
    ensures |opts| <= |values| + 1
  {
    [All] + Unique(values)
  }
}
