/** The analysis entry point (the default export of src/js/analyseChart.js): one course
    of a parsed chart is laid on the time axis, then summed up in its statistics and
    its density graph. */
module Analyse {
  import opened Text
  import opened TjaCourse
  import opened TjaChart
  import opened Timing
  import opened Timeline
  import opened Statistics
  import opened Graph

  datatype Analysis = Analysis(statistics: Stats, graph: Graph)

  /** What the entry point returns; None where the source throws or does not return:
      an unknown course id (the course is undefined), a course without notes (the last
      note is undefined), or a course with a hit whose last note is at time 0 or before
      (with a time frame of zero or less the frame loop never ends). A course without a
      hit gets 100 empty frames whatever its time frame. */
  function AnalysisOf(chart: Chart, courseId: nat): Option<Analysis>
    requires courseId in chart.courses ==> Timeable(chart.courses[courseId].measures)
  {
    if courseId !in chart.courses then None
    else
      var timed := TimedOf(chart.courses[courseId]);
      if Graphable(timed.notes) then Some(Analysis(StatisticsOf(timed), GraphOf(timed.notes)))
      else if |timed.notes| > 0 && HitCount(timed.notes) == 0 then
        Some(Analysis(StatisticsOf(timed), QuietGraph(timed.notes)))
      else None
  }

  method AnalyseCourse(chart: Chart, courseId: nat) returns (r: Option<Analysis>)
    requires courseId in chart.courses ==> Timeable(chart.courses[courseId].measures)
    ensures r == AnalysisOf(chart, courseId)
  {
    if courseId !in chart.courses {
      return None;
    }
    var converted := ConvertToTimed(chart.courses[courseId]);
    var statistics := GetStatistics(converted);
    var graph;
    if Graphable(converted.notes) {
      graph := GetGraph(converted.notes);
    } else if |converted.notes| > 0 && HitCount(converted.notes) == 0 {
      graph := QuietGraph(converted.notes);
    } else {
      return None;
    }
    r := Some(Analysis(statistics, graph));
  }

  /** No note of a laid-out course is timed before 0: the clock starts at time 0 on
      beat 0 and never runs backwards. */
  lemma TimeNotNegative(events: seq<TimedEvent>, b: real)
    requires PositiveTempos(events) && SortedEvents(events) && NonNegativeBeats(events) && b >= 0.0
    ensures TimeAt(events, b) >= 0.0
  {
    var n := Reached(events, b);
    ClockMonotone(events, 0, n, 0.0, b);
  }

  /** For a course whose measures are well formed (as every parsed course's are), the
      analysis tallies each note in the go-go state of its beat, and each frame of the
      graph holds the hits of its time frame, but for the frame of the latest hit. */
  lemma AnalysisMeaning(chart: Chart, courseId: nat)
    requires courseId in chart.courses
    requires Timeable(chart.courses[courseId].measures)
    requires forall k :: 0 <= k < |chart.courses[courseId].measures| ==> MeasureWellPositioned(chart.courses[courseId].measures[k])
    requires Graphable(TimedOf(chart.courses[courseId]).notes)
    ensures AnalysisOf(chart, courseId).Some?
    ensures AnalysisOf(chart, courseId).value.statistics
            == Summary(Tallies(chart.courses[courseId].headers, TimedOf(chart.courses[courseId]).notes,
                               GogoByBeat(TimedOf(chart.courses[courseId]).events, TimedOf(chart.courses[courseId]).notes)))
    ensures forall i :: 0 <= i < |AnalysisOf(chart, courseId).value.graph.data| ==>
              AnalysisOf(chart, courseId).value.graph.data[i]
              == if i == Reach(TimedOf(chart.courses[courseId]).notes, Timeframe(TimedOf(chart.courses[courseId]).notes)) then Empty
                 else BinOf(TimedOf(chart.courses[courseId]).notes, i, Timeframe(TimedOf(chart.courses[courseId]).notes))
  {
    var c := chart.courses[courseId];
    var t := TimedOf(c);
    var l := Lay(c.measures, c.headers.balloon);
    NotesTimed(c);
    LayInOrder(c.measures, c.headers.balloon);
    assert Sorted(Beats(t.notes)) by {
      forall x, y | 0 <= x < y < |t.notes| ensures Beats(t.notes)[x] <= Beats(t.notes)[y] {
        assert t.notes[x].beat == l.scan.notes[x].beat && t.notes[y].beat == l.scan.notes[y].beat;
      }
    }
    StatisticsByBeat(t);
    assert NonNegativeBeats(t.events);
    forall i | 0 <= i < |t.notes| ensures t.notes[i].time >= 0.0 {
      assert t.notes[i].beat == l.scan.notes[i].beat;
      TimeNotNegative(t.events, t.notes[i].beat);
    }
    GraphBins(t.notes);
  }
}
