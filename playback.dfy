/**
 * `enableBarRace`, `animateBarRace` and `restoreOriginalChart`: the state the
 * page script keeps between timer callbacks. Rendering is modelled as
 * appending a frame (date label and bars) to a log.
 */
module Playback {
  import opened Wrappers
  import opened Dates
  import opened Transform
  import opened Snapshot

  /** One chart update: the date label's text and the series data. */
  datatype Frame = Frame(dateLabel: Date, bars: seq<Bar>)

  /** What the tick at index `k` renders. */
  function RaceFrame(d: BarRaceData, k: nat): Frame
    requires Aligned(d) && k < |d.dates|
  {
    Frame(d.dates[k], GetDataForDate(d, d.dates[k]))
  }

  /** The frames of the first `n` ticks of a race over `d`. */
  function RaceFrames(d: BarRaceData, n: nat): (r: seq<Frame>)
    requires Aligned(d) && n <= |d.dates|
    ensures |r| == n
  {
    if n == 0 then [] else RaceFrames(d, n - 1) + [RaceFrame(d, n - 1)]
  }

  /**
   * The frame drawn when the bar chart is created: label `dates[0]` and
   * `getDataForDate(barRaceData, dates[0])`; with no dates the label text
   * is undefined, written here as the empty string.
   */
  function InitialFrame(d: BarRaceData): Frame
    requires Aligned(d)
  {
    Frame(if |d.dates| > 0 then d.dates[0] else "", InitialSnapshot(d))
  }

  /**
   * Over the well-formed dataset `d`, the part of `log` from `start` on
   * holds exactly the frames of the first `n` ticks.
   */
  ghost predicate RaceLog(d: BarRaceData, log: seq<Frame>, start: nat, n: nat)
  {
    && WellFormed(d)
    && n <= |d.dates|
    && start <= |log|
    && log[start..] == RaceFrames(d, n)
  }

  datatype EnableError =
    | ChartDataMissing                        // `Could not load chart data`
    | TransformFailed(error: TransformError)  // an exception thrown by `transformToBarRace`

  class BarRace {
    /** `isBarRaceMode` */
    var isBarRaceMode: bool
    /** `animationInterval !== null` */
    var active: bool
    /** Intervals registered with the host timer and not yet cleared. */
    ghost var liveIntervals: nat
    /** The interval closure's `currentIndex`. */
    var currentIndex: nat
    /** The interval closure's `barRaceData`. */
    var data: BarRaceData
    /** Every frame handed to the chart, oldest first. */
    var frames: seq<Frame>
    /** Length of `frames` when the running animation started. */
    ghost var raceStart: nat

    /**
     * The animation has rendered, since it started, exactly the frames of
     * dates `0..currentIndex-1`, each once and in order.
     */
    ghost predicate Valid()
      reads this
    {
      IntervalsValid() && RaceLog(data, frames, raceStart, currentIndex)
    }

    /**
     * At most one interval is live, and it is the one `animationInterval`
     * holds: an interval started without clearing the previous one would
     * break this.
     */
    ghost predicate IntervalsValid()
      reads this
    {
      liveIntervals <= 1 && (active <==> liveIntervals == 1)
    }

    /** The page script's state when it is injected. */
    constructor ()
      ensures Valid() && !isBarRaceMode && !active && liveIntervals == 0 && frames == []
    {
      isBarRaceMode := false;
      active := false;
      liveIntervals := 0;
      currentIndex := 0;
      data := BarRaceData([], [], [], []);
      frames := [];
      raceStart := 0;
    }

    /**
     * `animateBarRace`: resets the index, clears any running interval and
     * starts a new one over `d`, so that at most one interval is live.
     */
    method AnimateBarRace(d: BarRaceData)
      requires IntervalsValid() && WellFormed(d)
      modifies this
      ensures Valid() && active && liveIntervals == 1 && currentIndex == 0 && data == d
      ensures frames == old(frames) && raceStart == |frames|
      ensures isBarRaceMode == old(isBarRaceMode)
    {
      currentIndex := 0;
      if active {
        // clearInterval(animationInterval)
        liveIntervals := liveIntervals - 1;
        active := false;
      }
      data := d;
      // animationInterval = setInterval(...)
      liveIntervals := liveIntervals + 1;
      active := true;
      raceStart := |frames|;
    }

    /**
     * `enableBarRace` once the payload is in hand: transforms it, draws
     * the first frame, starts the animation and turns bar-race mode on.
     * A missing payload or a failing transform changes nothing.
     */
    method EnableBarRace(chartData: Option<ChartData>) returns (err: Option<EnableError>)
      requires Valid()
      modifies this
      ensures Valid()
      ensures chartData.None? ==> err == Some(ChartDataMissing)
      ensures chartData.Some? && |chartData.value.series| < |chartData.value.seriesConfigs| ==>
        err == Some(TransformFailed(MissingSeries(|chartData.value.series|)))
      ensures err.None? <==>
        chartData.Some? && |chartData.value.series| >= |chartData.value.seriesConfigs|
      ensures err.Some? ==>
        isBarRaceMode == old(isBarRaceMode) && active == old(active) && liveIntervals == old(liveIntervals)
        && currentIndex == old(currentIndex) && data == old(data)
        && frames == old(frames) && raceStart == old(raceStart)
      ensures err.None? ==>
        chartData.Some? && Normalizes(chartData.value, data)
        && isBarRaceMode && active && liveIntervals == 1 && currentIndex == 0
        && frames == old(frames) + [InitialFrame(data)] && raceStart == |frames|
    {
      if chartData.None? {
        return Some(ChartDataMissing);
      }
      var barRaceData := TransformToBarRace(chartData.value);
      if barRaceData.Err? {
        return Some(TransformFailed(barRaceData.error));
      }
      var d := barRaceData.value;
      frames := frames + [InitialFrame(d)];
      AnimateBarRace(d);
      isBarRaceMode := true;
      err := None;
    }

    /**
     * One call of the interval callback. Past the last date, or with
     * bar-race mode off, it clears the interval and renders nothing;
     * otherwise it renders the frame of `dates[currentIndex]` and advances
     * the index by one.
     */
    method Tick()
      requires Valid() && active
      modifies this
      ensures Valid()
      ensures data == old(data) && isBarRaceMode == old(isBarRaceMode) && raceStart == old(raceStart)
      ensures old(currentIndex) < |data.dates| && isBarRaceMode ==>
        active && liveIntervals == 1 && currentIndex == old(currentIndex) + 1
        && frames == old(frames) + [RaceFrame(data, old(currentIndex))]
      ensures !(old(currentIndex) < |data.dates| && isBarRaceMode) ==>
        !active && liveIntervals == 0 && currentIndex == old(currentIndex) && frames == old(frames)
    {
      if currentIndex >= |data.dates| || !isBarRaceMode {
        liveIntervals := liveIntervals - 1;
        active := false;
        return;
      }
      RenderCurrentDate();
    }

    /**
     * The rendering part of the interval callback: sets the label to
     * `dates[currentIndex]`, the series to that date's snapshot, and
     * increments `currentIndex`.
     */
    method RenderCurrentDate()
      requires Valid() && currentIndex < |data.dates|
      modifies this`frames, this`currentIndex
      ensures Valid()
      ensures data == old(data) && isBarRaceMode == old(isBarRaceMode) && active == old(active)
      ensures liveIntervals == old(liveIntervals) && raceStart == old(raceStart)
      ensures currentIndex == old(currentIndex) + 1
      ensures frames == old(frames) + [RaceFrame(data, old(currentIndex))]
    {
      var currentDate := data.dates[currentIndex];
      var newData := GetDataForDate(data, currentDate);
      RenderStep(data, frames, raceStart, currentIndex);
      frames := frames + [Frame(currentDate, newData)];
      currentIndex := currentIndex + 1;
    }

    /** `restoreOriginalChart`: stops the animation and leaves bar-race mode. */
    method RestoreOriginalChart()
      requires Valid()
      modifies this
      ensures Valid() && !active && liveIntervals == 0 && !isBarRaceMode
      ensures currentIndex == old(currentIndex) && data == old(data)
      ensures frames == old(frames) && raceStart == old(raceStart)
    {
      if active {
        liveIntervals := liveIntervals - 1;
        active := false;
      }
      isBarRaceMode := false;
    }

    /**
     * The timer calling the interval callback until the interval clears
     * itself: in bar-race mode every remaining date is rendered once, in
     * order, and the race ends at the last date.
     */
    method RunToEnd()
      requires Valid() && active
      modifies this
      ensures Valid() && !active && liveIntervals == 0
      ensures data == old(data) && isBarRaceMode == old(isBarRaceMode) && raceStart == old(raceStart)
      ensures old(frames) <= frames
      ensures isBarRaceMode ==>
        currentIndex == |data.dates| && frames[raceStart..] == RaceFrames(data, |data.dates|)
      ensures !isBarRaceMode ==> frames == old(frames) && currentIndex == old(currentIndex)
    {
      while active
        invariant Valid()
        invariant data == old(data) && isBarRaceMode == old(isBarRaceMode) && raceStart == old(raceStart)
        invariant old(frames) <= frames
        invariant !active && isBarRaceMode ==> currentIndex == |data.dates|
        invariant !isBarRaceMode ==> frames == old(frames) && currentIndex == old(currentIndex)
        decreases |data.dates| - currentIndex, active
      {
        Tick();
      }
    }
  }

  lemma AppendRaceFrame(log: seq<Frame>, start: nat, d: BarRaceData, n: nat)
    requires Aligned(d) && n < |d.dates|
    requires start <= |log| && log[start..] == RaceFrames(d, n)
    ensures (log + [RaceFrame(d, n)])[start..] == RaceFrames(d, n + 1)
  {
    assert (log + [RaceFrame(d, n)])[start..] == log[start..] + [RaceFrame(d, n)];
  }

  /** Rendering the next date extends a race log by one tick. */
  lemma RenderStep(d: BarRaceData, log: seq<Frame>, start: nat, n: nat)
    requires RaceLog(d, log, start, n) && n < |d.dates|
    ensures RaceLog(d, log + [Frame(d.dates[n], GetDataForDate(d, d.dates[n]))], start, n + 1)
  {
    AppendRaceFrame(log, start, d, n);
  }

  /** The first tick renders again the frame drawn when the race was enabled. */
  lemma FirstTickRepeatsInitialFrame(d: BarRaceData)
    requires Aligned(d) && |d.dates| > 0
    ensures InitialFrame(d) == RaceFrame(d, 0)
  {
  }

  /** The `k`-th tick of a race renders the `k`-th date. */
  lemma {:induction false} RaceFrameAt(d: BarRaceData, n: nat, k: nat)
    requires Aligned(d) && k < n <= |d.dates|
    ensures RaceFrames(d, n)[k] == RaceFrame(d, k)
  {
    var prev, last := RaceFrames(d, n - 1), RaceFrame(d, n - 1);
    assert RaceFrames(d, n) == prev + [last];
    IndexBeforeAppended(prev, last, k);
    if k < n - 1 {
      RaceFrameAt(d, n - 1, k);
      assert RaceFrames(d, n)[k] == prev[k];
    } else {
      assert k == n - 1;
      assert RaceFrames(d, n)[k] == last;
    }
  }

  lemma IndexBeforeAppended(s: seq<Frame>, f: Frame, k: nat)
    requires k <= |s|
    ensures (s + [f])[k] == if k < |s| then s[k] else f
  {
  }

  /** A whole race shows every date once, in ascending order. */
  lemma RaceShowsEveryDateOnce(d: BarRaceData)
    requires WellFormed(d)
    ensures |RaceFrames(d, |d.dates|)| == |d.dates|
    ensures forall k :: 0 <= k < |d.dates| ==> RaceFrames(d, |d.dates|)[k].dateLabel == d.dates[k]
    ensures forall i, j :: 0 <= i < j < |d.dates| ==>
      Less(RaceFrames(d, |d.dates|)[i].dateLabel, RaceFrames(d, |d.dates|)[j].dateLabel)
  {
    var n := |d.dates|;
    forall k | 0 <= k < n
      ensures RaceFrames(d, n)[k].dateLabel == d.dates[k]
    {
      RaceFrameAt(d, n, k);
    }
  }
}
