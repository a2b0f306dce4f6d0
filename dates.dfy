/**
 * Dates of the bar race are the strings found in the chart payload.
 * JavaScript compares two strings code unit by code unit, and a proper
 * prefix is smaller than the longer string; this order is used both by the
 * argument-less `Array.prototype.sort` that builds the timeline and by the
 * `<=` of the as-of lookup.
 */
module Dates {
  type Date = string

  /** JavaScript `a < b` on two strings. */
  predicate Less(a: Date, b: Date)
  {
    if |a| == 0 then |b| > 0
    else if |b| == 0 then false
    else if a[0] != b[0] then a[0] < b[0]
    else Less(a[1..], b[1..])
  }

  /** JavaScript `a <= b` on two strings, which is defined as `!(b < a)`. */
  predicate LessEq(a: Date, b: Date)
  {
    !Less(b, a)
  }

  lemma {:induction false} LessIrreflexive(a: Date)
    ensures !Less(a, a)
  {
    if |a| > 0 {
      LessIrreflexive(a[1..]);
    }
  }

  lemma {:induction false} LessAsymmetric(a: Date, b: Date)
    ensures Less(a, b) ==> !Less(b, a)
  {
    if |a| > 0 && |b| > 0 && a[0] == b[0] {
      LessAsymmetric(a[1..], b[1..]);
    }
  }

  lemma {:induction false} LessTransitive(a: Date, b: Date, c: Date)
    requires Less(a, b) && Less(b, c)
    ensures Less(a, c)
  {
    if |a| > 0 && a[0] == b[0] && b[0] == c[0] {
      LessTransitive(a[1..], b[1..], c[1..]);
    }
  }

  lemma {:induction false} LessTotal(a: Date, b: Date)
    ensures a == b || Less(a, b) || Less(b, a)
  {
    if |a| > 0 && |b| > 0 && a[0] == b[0] {
      LessTotal(a[1..], b[1..]);
      if a[1..] == b[1..] {
        assert a == [a[0]] + a[1..] && b == [b[0]] + b[1..];
      }
    }
  }

  /** `<=` on strings is the reflexive closure of `<`. */
  lemma LessEqIsLessOrEqual(a: Date, b: Date)
    ensures LessEq(a, b) <==> Less(a, b) || a == b
  {
    LessTotal(a, b);
    LessAsymmetric(a, b);
    LessIrreflexive(a);
  }

  predicate Distinct(s: seq<Date>)
  {
    forall i, j :: 0 <= i < j < |s| ==> s[i] != s[j]
  }

  /** Ascending under the default sort order, with no date twice. */
  predicate StrictlyIncreasing(s: seq<Date>)
  {
    forall i, j :: 0 <= i < j < |s| ==> Less(s[i], s[j])
  }

  lemma StrictlyIncreasingIsDistinct(s: seq<Date>)
    requires StrictlyIncreasing(s)
    ensures Distinct(s)
  {
    forall i, j | 0 <= i < j < |s|
      ensures s[i] != s[j]
    {
      LessIrreflexive(s[i]);
    }
  }

  /** Puts a date that is not yet present into its place in an ascending sequence. */
  function Insert(s: seq<Date>, d: Date): (r: seq<Date>)
    requires StrictlyIncreasing(s) && d !in s
    ensures StrictlyIncreasing(r)
    ensures |r| == |s| + 1
    ensures forall x :: x in r <==> x in s || x == d
  {
    if |s| == 0 then [d]
    else if Less(d, s[0]) then
      assert forall k :: 0 < k < |s| ==> Less(d, s[k]) by {
        forall k | 0 < k < |s| ensures Less(d, s[k]) { LessTransitive(d, s[0], s[k]); }
      }
      [d] + s
    else
      LessTotal(d, s[0]);
      var rest := Insert(s[1..], d);
      assert forall x :: x in rest ==> Less(s[0], x);
      [s[0]] + rest
  }

  /**
   * `Array.prototype.sort` called without a comparator on an array of
   * distinct strings (the array made from the set of all dates): the
   * result holds the same strings, ascending.
   */
  function SortDates(ds: seq<Date>): (r: seq<Date>)
    requires Distinct(ds)
    ensures StrictlyIncreasing(r)
    ensures |r| == |ds|
    ensures forall x :: x in r <==> x in ds
  {
    if |ds| == 0 then []
    else
      var init := ds[..|ds| - 1];
      assert forall x :: x in init ==> x != ds[|ds| - 1];
      Insert(SortDates(init), ds[|ds| - 1])
  }

  /**
   * Two ascending sequences with the same dates are equal: the timeline
   * does not depend on the order in which dates entered the set.
   */
  lemma {:induction false} StrictlyIncreasingUnique(a: seq<Date>, b: seq<Date>)
    requires StrictlyIncreasing(a) && StrictlyIncreasing(b)
    requires forall x :: x in a <==> x in b
    ensures a == b
  {
    if |a| > 0 { assert a[0] in b; }
    if |b| > 0 { assert b[0] in a; }
    if |a| > 0 && |b| > 0 {
      if a[0] != b[0] {
        var j :| 0 <= j < |b| && b[j] == a[0];
        var i :| 0 <= i < |a| && a[i] == b[0];
        LessAsymmetric(a[0], b[0]);
        assert false;
      }
      forall x
        ensures x in a[1..] <==> x in b[1..]
      {
        if x in a[1..] {
          var i :| 1 <= i < |a| && a[i] == x;
          LessIrreflexive(a[0]);
          assert x in b && x != b[0];
        }
        if x in b[1..] {
          var j :| 1 <= j < |b| && b[j] == x;
          LessIrreflexive(b[0]);
          assert x in a && x != a[0];
        }
      }
      StrictlyIncreasingUnique(a[1..], b[1..]);
      assert a == [a[0]] + a[1..] && b == [b[0]] + b[1..];
    }
  }
}
