/**
 * `getDataForDate`: one `{name, y, color}` bar per entity, valued as of the
 * query date, then sorted by value, largest first, by a stable sort.
 */
module Snapshot {
  import opened Dates
  import opened Transform

  datatype Bar = Bar(name: string, y: int, color: string)

  /** `sequence.filter(p => p.date <= date)`. */
  function AtOrBefore(s: seq<Point>, q: Date): seq<Point>
  {
    if |s| == 0 then []
    else AtOrBefore(s[..|s| - 1], q) + (if LessEq(s[|s| - 1].date, q) then [s[|s| - 1]] else [])
  }

  /** `.pop()` of that filter, then `dataPoint ? dataPoint.y : 0`. */
  function ValueAsOf(s: seq<Point>, q: Date): int
  {
    var qualifying := AtOrBefore(s, q);
    if |qualifying| == 0 then 0 else qualifying[|qualifying| - 1].y
  }

  /** An entity none of whose points is at or before the query is valued exactly 0. */
  lemma {:induction false} ValueBeforeFirstPoint(s: seq<Point>, q: Date)
    requires forall k :: 0 <= k < |s| ==> !LessEq(s[k].date, q)
    ensures ValueAsOf(s, q) == 0
  {
    NothingQualifies(s, q);
  }

  lemma {:induction false} NothingQualifies(s: seq<Point>, q: Date)
    requires forall k :: 0 <= k < |s| ==> !LessEq(s[k].date, q)
    ensures AtOrBefore(s, q) == []
  {
    if |s| > 0 {
      NothingQualifies(s[..|s| - 1], q);
    }
  }

  /**
   * Forward fill: the value is the `y` of the last point, in array order,
   * whose date is at or before the query.
   */
  lemma {:induction false} ValueIsLastQualifying(s: seq<Point>, q: Date, k: nat)
    requires k < |s| && LessEq(s[k].date, q)
    requires forall m :: k < m < |s| ==> !LessEq(s[m].date, q)
    ensures ValueAsOf(s, q) == s[k].y
  {
    if k < |s| - 1 {
      var init := s[..|s| - 1];
      assert AtOrBefore(s, q) == AtOrBefore(init, q);
      ValueIsLastQualifying(init, q, k);
    }
  }

  /** Every value is either 0 or the `y` of a point at or before the query. */
  lemma {:induction false} ValueComesFromPoint(s: seq<Point>, q: Date)
    ensures ValueAsOf(s, q) == 0
         || exists k :: 0 <= k < |s| && LessEq(s[k].date, q) && s[k].y == ValueAsOf(s, q)
  {
    if |s| > 0 {
      var init := s[..|s| - 1];
      ValueComesFromPoint(init, q);
      if !LessEq(s[|s| - 1].date, q) {
        assert AtOrBefore(s, q) == AtOrBefore(init, q);
        if ValueAsOf(s, q) != 0 {
          var k :| 0 <= k < |init| && LessEq(init[k].date, q) && init[k].y == ValueAsOf(init, q);
          assert s[k] == init[k];
        }
      } else {
        assert s[|s| - 1].y == ValueAsOf(s, q);
      }
    }
  }

  // ---- Ranking: `data.sort((a, b) => b.y - a.y)` on a stable sort ----

  predicate NonIncreasing(s: seq<Bar>)
  {
    forall i, j :: 0 <= i < j < |s| ==> s[i].y >= s[j].y
  }

  /** The bars of `s` whose value is `v`, in their order in `s`. */
  function WithValue(s: seq<Bar>, v: int): seq<Bar>
  {
    if |s| == 0 then []
    else (if s[0].y == v then [s[0]] else []) + WithValue(s[1..], v)
  }

  lemma {:induction false} WithValueAppend(a: seq<Bar>, b: seq<Bar>, v: int)
    ensures WithValue(a + b, v) == WithValue(a, v) + WithValue(b, v)
  {
    if |a| == 0 {
      assert a + b == b;
    } else {
      var head := if a[0].y == v then [a[0]] else [];
      assert a + b == [a[0]] + (a[1..] + b);
      calc {
        WithValue([a[0]] + (a[1..] + b), v);
        { WithValueCons(a[0], a[1..] + b, v); }
        head + WithValue(a[1..] + b, v);
        { WithValueAppend(a[1..], b, v); }
        head + (WithValue(a[1..], v) + WithValue(b, v));
        (head + WithValue(a[1..], v)) + WithValue(b, v);
      }
    }
  }

  lemma {:induction false} WithValueAbsent(s: seq<Bar>, v: int)
    requires forall k :: 0 <= k < |s| ==> s[k].y != v
    ensures WithValue(s, v) == []
  {
    if |s| > 0 {
      WithValueAbsent(s[1..], v);
    }
  }

  /** Places `b` after every bar whose value is at least `b.y`. */
  function InsertByValue(s: seq<Bar>, b: Bar): (r: seq<Bar>)
    requires NonIncreasing(s)
    ensures NonIncreasing(r)
    ensures |r| == |s| + 1 && (r[0] == b || (|s| > 0 && r[0] == s[0]))
    ensures multiset(r) == multiset(s) + multiset{b}
  {
    if |s| == 0 then [b]
    else if b.y > s[0].y then [b] + s
    else
      var rest := InsertByValue(s[1..], b);
      assert s == [s[0]] + s[1..];
      assert forall k :: 0 <= k < |rest| ==> rest[k].y <= rest[0].y <= s[0].y;
      [s[0]] + rest
  }

  /** Stable descending sort by value: insertion of each bar in list order. */
  function RankByValue(s: seq<Bar>): (r: seq<Bar>)
    ensures NonIncreasing(r)
    ensures multiset(r) == multiset(s)
  {
    if |s| == 0 then []
    else
      assert s == s[..|s| - 1] + [s[|s| - 1]];
      InsertByValue(RankByValue(s[..|s| - 1]), s[|s| - 1])
  }

  lemma {:induction false} InsertKeepsEqualsInOrder(s: seq<Bar>, b: Bar, v: int)
    requires NonIncreasing(s)
    ensures WithValue(InsertByValue(s, b), v) == WithValue(s, v) + (if b.y == v then [b] else [])
  {
    if |s| == 0 {
      WithValueSingleton(b, v);
    } else if b.y > s[0].y {
      assert InsertByValue(s, b) == [b] + s;
      InsertedFirst(s, b, v);
    } else {
      var rest := InsertByValue(s[1..], b);
      assert InsertByValue(s, b) == [s[0]] + rest;
      InsertKeepsEqualsInOrder(s[1..], b, v);
      InsertedAfterHead(s, b, rest, v);
    }
  }

  lemma InsertedFirst(s: seq<Bar>, b: Bar, v: int)
    requires NonIncreasing(s) && |s| > 0 && b.y > s[0].y
    ensures WithValue([b] + s, v) == WithValue(s, v) + (if b.y == v then [b] else [])
  {
    WithValueCons(b, s, v);
    if b.y == v {
      WithValueAbsent(s, v);
    }
  }

  lemma InsertedAfterHead(s: seq<Bar>, b: Bar, rest: seq<Bar>, v: int)
    requires |s| > 0
    requires WithValue(rest, v) == WithValue(s[1..], v) + (if b.y == v then [b] else [])
    ensures WithValue([s[0]] + rest, v) == WithValue(s, v) + (if b.y == v then [b] else [])
  {
    WithValueCons(s[0], rest, v);
  }

  lemma WithValueCons(b: Bar, s: seq<Bar>, v: int)
    ensures WithValue([b] + s, v) == (if b.y == v then [b] else []) + WithValue(s, v)
  {
    assert ([b] + s)[1..] == s;
  }

  /** Stability: bars of equal value keep their original relative order. */
  lemma {:induction false} RankKeepsEqualsInOrder(s: seq<Bar>, v: int)
    ensures WithValue(RankByValue(s), v) == WithValue(s, v)
  {
    if |s| > 0 {
      var init, last := s[..|s| - 1], s[|s| - 1];
      var tail := if last.y == v then [last] else [];
      calc {
        WithValue(RankByValue(s), v);
        WithValue(InsertByValue(RankByValue(init), last), v);
        { InsertKeepsEqualsInOrder(RankByValue(init), last, v); }
        WithValue(RankByValue(init), v) + tail;
        { RankKeepsEqualsInOrder(init, v); }
        WithValue(init, v) + tail;
        { WithValueSingleton(last, v); }
        WithValue(init, v) + WithValue([last], v);
        { WithValueAppend(init, [last], v); }
        WithValue(init + [last], v);
        { assert s == init + [last]; }
        WithValue(s, v);
      }
    }
  }

  /**
   * A non-increasing list is determined by its equal-value groups: any
   * stable descending sort of a list gives the same result as RankByValue.
   */
  lemma {:induction false} StableSortUnique(r1: seq<Bar>, r2: seq<Bar>)
    requires NonIncreasing(r1) && NonIncreasing(r2)
    requires forall v :: WithValue(r1, v) == WithValue(r2, v)
    ensures r1 == r2
  {
    if |r1| > 0 {
      WithValueHead(r1);
      assert |WithValue(r2, r1[0].y)| > 0;
    }
    if |r2| > 0 {
      WithValueHead(r2);
      assert |WithValue(r1, r2[0].y)| > 0;
    }
    if |r1| > 0 && |r2| > 0 {
      var v1, v2 := r1[0].y, r2[0].y;
      WithValueBounded(r2, v1);
      WithValueBounded(r1, v2);
      assert v1 == v2;
      assert r1[0] == WithValue(r1, v1)[0] == WithValue(r2, v1)[0] == r2[0];
      forall v
        ensures WithValue(r1[1..], v) == WithValue(r2[1..], v)
      {
        var n := if v == v1 then 1 else 0;
        assert WithValue(r1[1..], v) == WithValue(r1, v)[n..];
        assert WithValue(r2[1..], v) == WithValue(r2, v)[n..];
      }
      StableSortUnique(r1[1..], r2[1..]);
      assert r1 == [r1[0]] + r1[1..] && r2 == [r2[0]] + r2[1..];
    }
  }

  lemma WithValueSingleton(b: Bar, v: int)
    ensures WithValue([b], v) == if b.y == v then [b] else []
  {
    assert WithValue([b], v) == (if b.y == v then [b] else []) + WithValue([], v);
  }

  lemma WithValueHead(s: seq<Bar>)
    requires |s| > 0
    ensures |WithValue(s, s[0].y)| > 0 && WithValue(s, s[0].y)[0] == s[0]
  {
  }

  /** A value that occurs in a non-increasing list is at most its first value. */
  lemma {:induction false} WithValueBounded(s: seq<Bar>, v: int)
    requires NonIncreasing(s) && |s| > 0 && |WithValue(s, v)| > 0
    ensures v <= s[0].y
  {
    if s[0].y != v && |s| > 1 {
      WithValueBounded(s[1..], v);
    }
  }

  // ---- The snapshot ----

  /** `barRaceData.names.map(...)`: each entity's bar, in entity order, before sorting. */
  function Entries(d: BarRaceData, q: Date): seq<Bar>
    requires Aligned(d)
  {
    seq(|d.names|, i requires 0 <= i < |d.names| =>
      Bar(d.names[i], ValueAsOf(d.sequences[i], q), d.colors[i]))
  }

  /** `getDataForDate`: the per-entity bars, ranked. */
  function GetDataForDate(d: BarRaceData, q: Date): seq<Bar>
    requires Aligned(d)
  {
    RankByValue(Entries(d, q))
  }

  /**
   * The snapshot is a permutation of the per-entity bars, by value largest
   * first, with equal values in entity order.
   */
  lemma SnapshotIsStableRanking(d: BarRaceData, q: Date)
    requires Aligned(d)
    ensures |GetDataForDate(d, q)| == |d.names|
    ensures multiset(GetDataForDate(d, q)) == multiset(Entries(d, q))
    ensures NonIncreasing(GetDataForDate(d, q))
    ensures forall v :: WithValue(GetDataForDate(d, q), v) == WithValue(Entries(d, q), v)
  {
    var data := Entries(d, q);
    assert |multiset(data)| == |data|;
    assert |multiset(RankByValue(data))| == |RankByValue(data)|;
    RankKeepsEqualsAll(data);
  }

  lemma RankKeepsEqualsAll(s: seq<Bar>)
    ensures forall v :: WithValue(RankByValue(s), v) == WithValue(s, v)
  {
    forall v
      ensures WithValue(RankByValue(s), v) == WithValue(s, v)
    {
      RankKeepsEqualsInOrder(s, v);
    }
  }

  /** Each entity appears in the snapshot with its own name, colour and as-of value. */
  lemma EntityInSnapshot(d: BarRaceData, q: Date, i: nat)
    requires Aligned(d) && i < |d.names|
    ensures Bar(d.names[i], ValueAsOf(d.sequences[i], q), d.colors[i]) in GetDataForDate(d, q)
  {
    var e := Entries(d, q);
    SnapshotIsStableRanking(d, q);
    assert e[i] in multiset(e);
  }

  /** The bars with value 0, one per entity, in entity order. */
  function ZeroBars(d: BarRaceData): seq<Bar>
    requires Aligned(d)
  {
    seq(|d.names|, i requires 0 <= i < |d.names| => Bar(d.names[i], 0, d.colors[i]))
  }

  /**
   * The snapshot rendered when the race is enabled: `getDataForDate` at
   * `dates[0]`. With no dates that query is `undefined`, against which
   * `p.date <= undefined` is false for every point, so no point qualifies.
   */
  function InitialSnapshot(d: BarRaceData): seq<Bar>
    requires Aligned(d)
  {
    if |d.dates| > 0 then GetDataForDate(d, d.dates[0])
    else RankByValue(ZeroBars(d))
  }

  /** With no dates the first frame lists every entity at 0, in entity order. */
  lemma InitialSnapshotWithNoDates(d: BarRaceData)
    requires Aligned(d) && |d.dates| == 0
    ensures InitialSnapshot(d) == ZeroBars(d)
  {
    var zeros := ZeroBars(d);
    RankKeepsEqualsAll(zeros);
    StableSortUnique(RankByValue(zeros), zeros);
  }

  /**
   * Two entities, X with points at "1" (10) and "2" (30), Y with one point
   * at "1" (20).
   */
  function TwoEntityRace(): (d: BarRaceData)
    ensures Aligned(d)
  {
    BarRaceData(["X", "Y"], ["red", "blue"],
                [[Point(10, "1"), Point(30, "2")], [Point(20, "1")]], ["1", "2"])
  }

  /** At "1" Y (20) leads X (10): the larger value comes first. */
  lemma TwoEntityRaceAtFirstDate()
    ensures GetDataForDate(TwoEntityRace(), "1") == [Bar("Y", 20, "blue"), Bar("X", 10, "red")]
  {
    var d := TwoEntityRace();
    var x, y := Bar("X", 10, "red"), Bar("Y", 20, "blue");
    assert Less("1", "2");
    ValueIsLastQualifying(d.sequences[0], "1", 0);
    ValueIsLastQualifying(d.sequences[1], "1", 0);
    assert Entries(d, "1") == [x, y];
    SwappedPairSameGroups(x, y);
    SnapshotIsStableRanking(d, "1");
    StableSortUnique(GetDataForDate(d, "1"), [y, x]);
  }

  lemma SwappedPairSameGroups(x: Bar, y: Bar)
    requires x.y != y.y
    ensures forall v :: WithValue([y, x], v) == WithValue([x, y], v)
  {
    forall v
      ensures WithValue([y, x], v) == WithValue([x, y], v)
    {
      assert [y, x] == [y] + [x] && [x, y] == [x] + [y];
      WithValueCons(y, [x], v);
      WithValueCons(x, [y], v);
      WithValueSingleton(x, v);
      WithValueSingleton(y, v);
    }
  }

  /** At "2" X (30) leads, and Y, with no point at "2", keeps its 20. */
  lemma TwoEntityRaceAtSecondDate()
    ensures GetDataForDate(TwoEntityRace(), "2") == [Bar("X", 30, "red"), Bar("Y", 20, "blue")]
  {
    var d := TwoEntityRace();
    assert Less("1", "2");
    ValueIsLastQualifying(d.sequences[0], "2", 1);
    ValueIsLastQualifying(d.sequences[1], "2", 0);
    assert Entries(d, "2") == [Bar("X", 30, "red"), Bar("Y", 20, "blue")];
    SnapshotIsStableRanking(d, "2");
    StableSortUnique(GetDataForDate(d, "2"), Entries(d, "2"));
  }
}
