/**
 * The chart identifier of a page: the first match of the regular expression
 * `/\/charts\/(\d+)/` in the location's path, or null.
 */
module ChartPath {
  import opened Wrappers

  const CHARTS_SEGMENT: string := "/charts/"

  /** `\d` of a JavaScript regular expression without the `u` flag. */
  predicate IsDigit(c: char)
  {
    '0' <= c <= '9'
  }

  predicate AllDigits(s: string)
  {
    forall k :: 0 <= k < |s| ==> IsDigit(s[k])
  }

  /** The pattern can match at position `i`: the segment, then at least one digit. */
  predicate MatchesAt(path: string, i: nat)
  {
    i + |CHARTS_SEGMENT| < |path|
    && path[i..i + |CHARTS_SEGMENT|] == CHARTS_SEGMENT
    && IsDigit(path[i + |CHARTS_SEGMENT|])
  }

  /** No position before `i` matches. */
  predicate NoMatchBefore(path: string, i: nat)
  {
    forall j: nat :: j < i ==> !MatchesAt(path, j)
  }

  /** `id` is the maximal digit run that starts right after the segment matched at `i`. */
  predicate CapturedAt(path: string, i: nat, id: string)
    requires MatchesAt(path, i)
  {
    var start := i + |CHARTS_SEGMENT|;
    && id <= path[start..]
    && AllDigits(id)
    && (start + |id| == |path| || !IsDigit(path[start + |id|]))
  }

  /** The greedy `(\d+)`: the longest prefix of `s` made of digits. */
  function DigitRun(s: string): (r: string)
    ensures r <= s && AllDigits(r)
    ensures |r| < |s| ==> !IsDigit(s[|r|])
  {
    if |s| == 0 || !IsDigit(s[0]) then []
    else [s[0]] + DigitRun(s[1..])
  }

  /** The leftmost position at or after `from` where the pattern matches. */
  function FirstMatch(path: string, from: nat): (r: Option<nat>)
    requires from <= |path|
    ensures r.None? <==> forall i: nat :: from <= i ==> !MatchesAt(path, i)
    ensures r.Some? ==> from <= r.value && MatchesAt(path, r.value)
    ensures r.Some? ==> forall i: nat :: from <= i < r.value ==> !MatchesAt(path, i)
    decreases |path| - from
  {
    if from == |path| then None
    else if MatchesAt(path, from) then Some(from)
    else FirstMatch(path, from + 1)
  }

  /**
   * `extractChartId`: the digits captured at the leftmost match, or None when
   * no position of the path matches.
   */
  function ExtractChartId(path: string): (r: Option<string>)
    ensures r.None? <==> forall i: nat :: !MatchesAt(path, i)
    ensures r.Some? ==> |r.value| > 0
    ensures r.Some? ==>
      exists i: nat :: MatchesAt(path, i) && NoMatchBefore(path, i) && CapturedAt(path, i, r.value)
  {
    match FirstMatch(path, 0)
    case None => None
    case Some(i) =>
      var tail := path[i + |CHARTS_SEGMENT|..];
      var id := DigitRun(tail);
      assert tail[0] == path[i + |CHARTS_SEGMENT|];
      assert id[0] == tail[0];
      assert CapturedAt(path, i, id);
      Some(id)
  }

  /**
   * A path that has no match before a `/charts/<digits>` segment yields
   * exactly those digits, whatever follows them (as long as it does not
   * begin with another digit).
   */
  lemma ExtractChartIdOfSegment(prefix: string, id: string, rest: string)
    requires ExtractChartId(prefix) == None
    requires |id| > 0 && AllDigits(id)
    requires |rest| == 0 || !IsDigit(rest[0])
    ensures ExtractChartId(prefix + CHARTS_SEGMENT + id + rest) == Some(id)
  {
    var path := prefix + CHARTS_SEGMENT + id + rest;
    NoMatchInPrefix(prefix, id + rest);
    assert path == prefix + CHARTS_SEGMENT + (id + rest);
    SegmentMatches(prefix, id + rest);
    var m := FirstMatch(path, 0);
    assert m == Some(|prefix|);
    assert path[|prefix| + |CHARTS_SEGMENT|..] == id + rest;
    DigitRunOfDigits(id, rest);
  }

  lemma NoMatchInPrefix(prefix: string, tail: string)
    requires forall i: nat :: !MatchesAt(prefix, i)
    ensures forall i: nat :: i < |prefix| ==> !MatchesAt(prefix + CHARTS_SEGMENT + tail, i)
  {
    var path := prefix + CHARTS_SEGMENT + tail;
    var n := |CHARTS_SEGMENT|;
    forall i: nat | i < |prefix|
      ensures !MatchesAt(path, i)
    {
      if i + n < |prefix| {
        assert path[i..i + n] == prefix[i..i + n];
        assert path[i + n] == prefix[i + n];
        assert !MatchesAt(prefix, i);
      } else {
        assert path[i + n] == CHARTS_SEGMENT[i + n - |prefix|];
      }
    }
  }

  lemma SegmentMatches(prefix: string, tail: string)
    requires |tail| > 0 && IsDigit(tail[0])
    ensures MatchesAt(prefix + CHARTS_SEGMENT + tail, |prefix|)
  {
    var path := prefix + CHARTS_SEGMENT + tail;
    assert path[|prefix|..|prefix| + |CHARTS_SEGMENT|] == CHARTS_SEGMENT;
    assert path[|prefix| + |CHARTS_SEGMENT|] == tail[0];
  }

  lemma {:induction false} DigitRunOfDigits(id: string, rest: string)
    requires AllDigits(id)
    requires |rest| == 0 || !IsDigit(rest[0])
    ensures DigitRun(id + rest) == id
  {
    if |id| > 0 {
      assert (id + rest)[1..] == id[1..] + rest;
      DigitRunOfDigits(id[1..], rest);
    } else {
      assert id + rest == rest;
    }
  }
}
