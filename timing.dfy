/** Beat-to-time conversion (pulseToTime in src/js/analyseChart.js): the tempo is a
    step function of the beat, 120 BPM until the first BPM event, and the time of a
    beat is the integral of 60/tempo seconds per beat up to it. */
module Timing {

  datatype TimedKind = Bpm(tempo: real) | GogoStart | GogoEnd

  /** An event placed on the course's global beat axis. */
  datatype TimedEvent = TimedEvent(kind: TimedKind, beat: real)

  predicate PositiveTempos(events: seq<TimedEvent>) {
    forall i :: 0 <= i < |events| && events[i].kind.Bpm? ==> events[i].kind.tempo > 0.0
  }

  predicate SortedEvents(events: seq<TimedEvent>) {
    forall i, j :: 0 <= i < j < |events| ==> events[i].beat <= events[j].beat
  }

  predicate NonNegativeBeats(events: seq<TimedEvent>) {
    forall i :: 0 <= i < |events| ==> events[i].beat >= 0.0
  }

  predicate Sorted(xs: seq<real>) {
    forall i, j :: 0 <= i < j < |xs| ==> xs[i] <= xs[j]
  }

  // ---------------------------------------------------------------------------
  // The reference clock

  /** A reading of the clock: at the given beat, the given time, at this tempo. */
  datatype Clock = Clock(tempo: real, beat: real, time: real)

  const StartClock := Clock(120.0, 0.0, 0.0)

  /** The time the clock shows at beat b, going on at its tempo. */
  function Reading(c: Clock, b: real): real
    requires c.tempo > 0.0
  {
    c.time + 60.0 / c.tempo * (b - c.beat)
  }

  /** The time the clock would show at beat 0: two clocks with the same tempo and
      offset show the same time at every beat. */
  function Offset(c: Clock): real
    requires c.tempo > 0.0
  {
    c.time - 60.0 / c.tempo * c.beat
  }

  lemma ReadingByOffset(c: Clock, b: real)
    requires c.tempo > 0.0
    ensures Reading(c, b) == Offset(c) + 60.0 / c.tempo * b
  {
    var k := 60.0 / c.tempo;
    assert k * (b - c.beat) == k * b - k * c.beat;
  }

  /** A BPM event moves the clock to its beat and then changes the tempo; other events
      leave it alone. */
  function Apply(c: Clock, e: TimedEvent): (r: Clock)
    requires c.tempo > 0.0
    requires e.kind.Bpm? ==> e.kind.tempo > 0.0
    ensures r.tempo > 0.0
  {
    if e.kind.Bpm? then Clock(e.kind.tempo, e.beat, Reading(c, e.beat)) else c
  }

  /** The clock after the first n events. */
  function After(events: seq<TimedEvent>, n: nat): (c: Clock)
    requires n <= |events| && PositiveTempos(events)
    ensures c.tempo > 0.0
  {
    if n == 0 then StartClock else Apply(After(events, n - 1), events[n - 1])
  }

  /** From event i on, the index of the first event after beat b (or the end). */
  function Skip(events: seq<TimedEvent>, i: nat, b: real): (j: nat)
    requires i <= |events|
    ensures i <= j <= |events|
    ensures forall m :: i <= m < j ==> events[m].beat <= b
    ensures j == |events| || events[j].beat > b
    decreases |events| - i
  {
    if i < |events| && events[i].beat <= b then Skip(events, i + 1, b) else i
  }

  /** The number of leading events with beat at most b. */
  function Reached(events: seq<TimedEvent>, b: real): nat
    ensures Reached(events, b) <= |events|
  {
    Skip(events, 0, b)
  }

  /** The time of beat b: the clock after the events reached, read at b. */
  function TimeAt(events: seq<TimedEvent>, b: real): real
    requires PositiveTempos(events)
  {
    Reading(After(events, Reached(events, b)), b)
  }

  /** Where the event cursor of pulseToTime stands after the given targets: it only
      moves forward, past the events with beat at most each target. */
  function Cursor(events: seq<TimedEvent>, targets: seq<real>): (n: nat)
    ensures n <= |events|
    decreases |targets|
  {
    if |targets| == 0 then 0
    else Skip(events, Cursor(events, targets[..|targets| - 1]), targets[|targets| - 1])
  }

  // ---------------------------------------------------------------------------
  // pulseToTime

  method PulseToTime(events: seq<TimedEvent>, beats: seq<real>) returns (times: seq<real>)
    requires PositiveTempos(events)
    ensures times == CursorTimes(events, beats)
    ensures Sorted(beats) ==> forall k :: 0 <= k < |beats| ==> times[k] == TimeAt(events, beats[k])
    ensures Sorted(beats) && SortedEvents(events) ==> Sorted(times)
  {
    var bpm := 120.0;
    var passedBeat, passedTime := 0.0, 0.0;
    var eidx, oidx := 0, 0;
    times := [];

    while oidx < |beats|
      invariant 0 <= oidx <= |beats|
      invariant eidx == Cursor(events, beats[..oidx])
      invariant bpm == After(events, eidx).tempo
      invariant Offset(Clock(bpm, passedBeat, passedTime)) == Offset(After(events, eidx))
      invariant times == CursorTimes(events, beats[..oidx])
      invariant SortedEvents(events) && (oidx > 0 || NonNegativeBeats(events)) ==> Behind(passedBeat, events, eidx)
    {
      var objBeat := beats[oidx];
      ghost var from := eidx;
      eidx, bpm, passedBeat, passedTime := CatchUp(events, eidx, objBeat, bpm, passedBeat, passedTime);
      TargetStepOf(events, beats, oidx);
      if SortedEvents(events) {
        BehindTarget(events, from, objBeat);
      }
      var time;
      time, passedBeat, passedTime := Advance(bpm, passedBeat, passedTime, After(events, eidx), objBeat);
      times := times + [time];
      oidx := oidx + 1;
    }
    assert beats[..|beats|] == beats;
    if Sorted(beats) {
      SortedTargets(events, beats);
    }
  }

  /** The inner loop of pulseToTime: consumes the events up to the target beat, moving
      the clock to each BPM event and switching its tempo there. */
  method CatchUp(events: seq<TimedEvent>, eidx: nat, objBeat: real, bpm: real, passedBeat: real, passedTime: real)
    returns (eidx': nat, bpm': real, passedBeat': real, passedTime': real)
    requires PositiveTempos(events) && eidx <= |events|
    requires bpm == After(events, eidx).tempo
    requires Offset(Clock(bpm, passedBeat, passedTime)) == Offset(After(events, eidx))
    ensures eidx' == Skip(events, eidx, objBeat)
    ensures bpm' == After(events, eidx').tempo
    ensures Offset(Clock(bpm', passedBeat', passedTime')) == Offset(After(events, eidx'))
    ensures SortedEvents(events) && Behind(passedBeat, events, eidx) ==> Behind(passedBeat', events, eidx')
  {
    eidx', bpm', passedBeat', passedTime' := eidx, bpm, passedBeat, passedTime;
    while eidx' < |events| && events[eidx'].beat <= objBeat
      invariant eidx <= eidx' <= |events|
      invariant Skip(events, eidx', objBeat) == Skip(events, eidx, objBeat)
      invariant bpm' == After(events, eidx').tempo
      invariant Offset(Clock(bpm', passedBeat', passedTime')) == Offset(After(events, eidx'))
      invariant SortedEvents(events) && Behind(passedBeat, events, eidx) ==> Behind(passedBeat', events, eidx')
      decreases |events| - eidx'
    {
      bpm', passedBeat', passedTime' := Consume(events, eidx', bpm', passedBeat', passedTime');
      eidx' := eidx' + 1;
    }
  }

  /** One turn of the inner loop: a BPM event moves the clock to its beat and switches
      the tempo; any other event is passed over. */
  method Consume(events: seq<TimedEvent>, i: nat, bpm: real, passedBeat: real, passedTime: real)
    returns (bpm': real, passedBeat': real, passedTime': real)
    requires PositiveTempos(events) && i < |events|
    requires bpm == After(events, i).tempo
    requires Offset(Clock(bpm, passedBeat, passedTime)) == Offset(After(events, i))
    ensures bpm' == After(events, i + 1).tempo
    ensures Offset(Clock(bpm', passedBeat', passedTime')) == Offset(After(events, i + 1))
    ensures passedBeat' == if events[i].kind.Bpm? then events[i].beat else passedBeat
  {
    bpm', passedBeat', passedTime' := bpm, passedBeat, passedTime;
    var event := events[i];
    if event.kind.Bpm? {
      var beat := event.beat - passedBeat;
      var time := 60.0 / bpm * beat;
      BpmStep(bpm, passedBeat, passedTime, After(events, i), event, beat, time);
      passedBeat' := passedBeat + beat;
      passedTime' := passedTime + time;
      bpm' := event.kind.tempo;
    } else {
      assert After(events, i + 1) == After(events, i);
    }
  }

  /** The step of the outer loop that reaches target b: the time pushed is the reading
      of the reference clock at b, and the clock, now at b, stays equivalent to it. */
  method Advance(bpm: real, passedBeat: real, passedTime: real, ghost ref: Clock, b: real)
    returns (time: real, passedBeat': real, passedTime': real)
    requires bpm > 0.0 && bpm == ref.tempo && Offset(Clock(bpm, passedBeat, passedTime)) == Offset(ref)
    ensures time == Reading(ref, b) && passedBeat' == b && passedTime' == time
    ensures Offset(Clock(bpm, passedBeat', passedTime')) == Offset(ref)
  {
    var beat := b - passedBeat;
    var t := 60.0 / bpm * beat;
    TargetStep(bpm, passedBeat, passedTime, ref, b, beat, t);
    time, passedBeat', passedTime' := passedTime + t, passedBeat + beat, passedTime + t;
  }

  /** After skipping to b, no event left is at or before b. */
  lemma BehindTarget(events: seq<TimedEvent>, i: nat, b: real)
    requires i <= |events| && SortedEvents(events)
    ensures Behind(b, events, Skip(events, i, b))
  {
  }

  /** passedBeat has not passed any event not yet consumed. */
  predicate Behind(passedBeat: real, events: seq<TimedEvent>, cursor: nat) {
    forall j :: cursor <= j < |events| ==> passedBeat <= events[j].beat
  }

  /** Consuming a BPM event from a clock equivalent to the reference one moves both to
      the same clock. */
  lemma BpmStep(bpm: real, passedBeat: real, passedTime: real, ref: Clock, e: TimedEvent, beat: real, time: real)
    requires bpm > 0.0 && bpm == ref.tempo && Offset(Clock(bpm, passedBeat, passedTime)) == Offset(ref)
    requires e.kind.Bpm? && e.kind.tempo > 0.0
    requires beat == e.beat - passedBeat && time == 60.0 / bpm * beat
    ensures Clock(e.kind.tempo, passedBeat + beat, passedTime + time) == Apply(ref, e)
  {
    var now := Clock(bpm, passedBeat, passedTime);
    StepTime(now, e.beat, beat, time);
    SameReading(now, ref, e.beat);
  }

  /** For targets in order, each time is the reference time of its beat, and with events
      in order too the times are in order. */
  lemma SortedTargets(events: seq<TimedEvent>, beats: seq<real>)
    requires PositiveTempos(events) && Sorted(beats)
    ensures forall k :: 0 <= k < |beats| ==> CursorTimes(events, beats)[k] == TimeAt(events, beats[k])
    ensures SortedEvents(events) ==> Sorted(CursorTimes(events, beats))
  {
    CursorTimesAt(events, beats);
    var times := CursorTimes(events, beats);
    forall k | 0 <= k < |beats| ensures times[k] == TimeAt(events, beats[k]) {
      assert Sorted(beats[..k + 1]);
      CursorOfSorted(events, beats[..k + 1]);
    }
    if SortedEvents(events) {
      forall i, j | 0 <= i < j < |beats| ensures times[i] <= times[j] {
        TimeMonotone(events, beats[i], beats[j]);
      }
    }
  }

  /** The time of each target, read on the clock the cursor has reached. */
  function CursorTimes(events: seq<TimedEvent>, targets: seq<real>): (times: seq<real>)
    requires PositiveTempos(events)
    ensures |times| == |targets|
    decreases |targets|
  {
    if |targets| == 0 then []
    else CursorTimes(events, targets[..|targets| - 1]) + [TargetTime(events, targets)]
  }

  /** Taking one more target moves the cursor past the events up to it and adds its
      reading on the clock there. */
  lemma TargetStepOf(events: seq<TimedEvent>, targets: seq<real>, n: nat)
    requires PositiveTempos(events) && n < |targets|
    ensures Cursor(events, targets[..n + 1]) == Skip(events, Cursor(events, targets[..n]), targets[n])
    ensures CursorTimes(events, targets[..n + 1]) == CursorTimes(events, targets[..n]) + [TargetTime(events, targets[..n + 1])]
    ensures TargetTime(events, targets[..n + 1]) == Reading(After(events, Cursor(events, targets[..n + 1])), targets[n])
  {
    assert targets[..n + 1][..n] == targets[..n];
  }

  /** The time of the last target, read on the clock the cursor stands on after it. */
  function TargetTime(events: seq<TimedEvent>, targets: seq<real>): real
    requires PositiveTempos(events) && |targets| > 0
  {
    Reading(After(events, Cursor(events, targets)), targets[|targets| - 1])
  }

  lemma {:induction false} CursorTimesAt(events: seq<TimedEvent>, targets: seq<real>)
    requires PositiveTempos(events)
    ensures forall k :: 0 <= k < |targets| ==>
              CursorTimes(events, targets)[k] == TargetTime(events, targets[..k + 1])
    decreases |targets|
  {
    if |targets| > 0 {
      var prefix := targets[..|targets| - 1];
      CursorTimesAt(events, prefix);
      forall k | 0 <= k < |targets|
        ensures CursorTimes(events, targets)[k] == TargetTime(events, targets[..k + 1])
      {
        if k < |prefix| {
          assert prefix[..k + 1] == targets[..k + 1];
        } else {
          assert targets[..k + 1] == targets;
        }
      }
    }
  }

  /** The time pulseToTime adds to reach beat b is what the clock reads there. */
  lemma StepTime(c: Clock, b: real, beat: real, time: real)
    requires c.tempo > 0.0 && beat == b - c.beat && time == 60.0 / c.tempo * beat
    ensures c.beat + beat == b && c.time + time == Reading(c, b)
  {
  }

  /** Reaching target b from a clock equivalent to the reference one: the time pushed is
      the reference reading at b and the clock stays equivalent. */
  lemma TargetStep(bpm: real, passedBeat: real, passedTime: real, ref: Clock, b: real, beat: real, time: real)
    requires bpm > 0.0 && bpm == ref.tempo && Offset(Clock(bpm, passedBeat, passedTime)) == Offset(ref)
    requires beat == b - passedBeat && time == 60.0 / bpm * beat
    ensures Offset(Clock(bpm, passedBeat + beat, passedTime + time)) == Offset(ref)
    ensures passedTime + time == Reading(ref, b)
  {
    var now := Clock(bpm, passedBeat, passedTime);
    StepTime(now, b, beat, time);
    SameReading(now, ref, b);
    AdvanceKeepsOffset(now, b);
  }

  /** Moving a clock along at its own tempo does not change its offset. */
  lemma AdvanceKeepsOffset(c: Clock, b: real)
    requires c.tempo > 0.0
    ensures Offset(Clock(c.tempo, b, Reading(c, b))) == Offset(c)
  {
    ReadingByOffset(c, b);
  }

  /** Two clocks with the same tempo and offset agree at every beat. */
  lemma SameReading(c: Clock, d: Clock, b: real)
    requires c.tempo > 0.0 && c.tempo == d.tempo && Offset(c) == Offset(d)
    ensures Reading(c, b) == Reading(d, b)
  {
    ReadingByOffset(c, b);
    ReadingByOffset(d, b);
  }

  // ---------------------------------------------------------------------------
  // Properties of the reference

  /** Skipping to b0 and then to a later b1 is skipping straight to b1. */
  lemma {:induction false} SkipTwice(events: seq<TimedEvent>, i: nat, b0: real, b1: real)
    requires i <= |events| && b0 <= b1
    ensures Skip(events, Skip(events, i, b0), b1) == Skip(events, i, b1)
    decreases |events| - i
  {
    if i < |events| && events[i].beat <= b0 {
      SkipTwice(events, i + 1, b0, b1);
    }
  }

  /** For targets in order, the cursor stands exactly past the events reached by the
      last target. */
  lemma {:induction false} CursorOfSorted(events: seq<TimedEvent>, targets: seq<real>)
    requires |targets| > 0 && Sorted(targets)
    ensures Cursor(events, targets) == Reached(events, targets[|targets| - 1])
    decreases |targets|
  {
    var prefix := targets[..|targets| - 1];
    if |prefix| > 0 {
      CursorOfSorted(events, prefix);
      SkipTwice(events, 0, prefix[|prefix| - 1], targets[|targets| - 1]);
    }
  }

  /** With positive tempos and events in order, the clock never runs backwards: read at
      x after n events, it shows at most what it shows at y >= x after m >= n events,
      when the events between lie between x and y. */
  lemma {:induction false} ClockMonotone(events: seq<TimedEvent>, n: nat, m: nat, x: real, y: real)
    requires PositiveTempos(events) && SortedEvents(events)
    requires n <= m <= |events| && x <= y
    requires forall i :: n <= i < m ==> x <= events[i].beat <= y
    ensures Reading(After(events, n), x) <= Reading(After(events, m), y)
    decreases m - n
  {
    var c := After(events, n);
    if n == m {
      assert 60.0 / c.tempo > 0.0;
      assert 60.0 / c.tempo * (y - c.beat) - 60.0 / c.tempo * (x - c.beat) == 60.0 / c.tempo * (y - x);
    } else {
      var e := events[n];
      assert 60.0 / c.tempo * (e.beat - c.beat) - 60.0 / c.tempo * (x - c.beat) == 60.0 / c.tempo * (e.beat - x);
      assert Reading(c, x) <= Reading(c, e.beat);
      assert Reading(Apply(c, e), e.beat) == Reading(c, e.beat);
      assert After(events, n + 1) == Apply(c, e);
      ClockMonotone(events, n + 1, m, e.beat, y);
    }
  }

  /** Later beats have later (or equal) times, when the events are in order. */
  lemma TimeMonotone(events: seq<TimedEvent>, b1: real, b2: real)
    requires PositiveTempos(events) && SortedEvents(events) && b1 <= b2
    ensures TimeAt(events, b1) <= TimeAt(events, b2)
  {
    var n1, n2 := Reached(events, b1), Reached(events, b2);
    SkipTwice(events, 0, b1, b2);
    assert n1 <= n2;
    ClockMonotone(events, n1, n2, b1, b2);
  }

  /** The tempo is 120 until the first event: one BPM event {240 at beat 4} puts beat 8
      at 2 s (four beats at 120) plus 1 s (four beats at 240). */
  lemma OneTempoChange()
    ensures TimeAt([TimedEvent(Bpm(240.0), 4.0)], 8.0) == 3.0
    ensures TimeAt([TimedEvent(Bpm(240.0), 4.0)], 2.0) == 1.0
  {
    var events := [TimedEvent(Bpm(240.0), 4.0)];
    assert Reached(events, 8.0) == 1;
    assert Reached(events, 2.0) == 0;
  }

  /** Events out of order break monotonicity: with {60 at beat 4} before {240 at beat
      0}, beat 3 is at 1.5 s but beat 4 at -1 s. */
  lemma UnsortedEventsRunBackwards()
    ensures var events := [TimedEvent(Bpm(60.0), 4.0), TimedEvent(Bpm(240.0), 0.0)];
            TimeAt(events, 3.0) == 1.5 && TimeAt(events, 4.0) == -1.0
  {
    var events := [TimedEvent(Bpm(60.0), 4.0), TimedEvent(Bpm(240.0), 0.0)];
    assert Reached(events, 3.0) == 0;
    assert Reached(events, 4.0) == 2;
  }
}
