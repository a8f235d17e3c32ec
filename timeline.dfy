/** The timeline builder (convertToTimed in src/js/analyseChart.js): lays the measures
    of a course end to end on one beat axis, turns the BPM and go-go events into
    timed events (scroll events are dropped) and the note characters into notes,
    handing out the BALLOON counts in order, and finally gives every note the time
    of its beat. */
module Timeline {
  import opened Text
  import opened TjaCourse
  import opened Timing

  /** The note types; a balloon carries its count, None when the BALLOON list is
      exhausted (the read past its end yields undefined). */
  datatype NoteKind = Don | Kat | DonBig | KatBig | Renda | RendaBig | Balloon(count: Option<nat>) | End

  datatype Note = Note(kind: NoteKind, beat: real, time: real)

  datatype TimedCourse = TimedCourse(headers: CourseHeaders, events: seq<TimedEvent>, notes: seq<Note>)

  /** What the arithmetic of convertToTimed needs of a measure: a non-zero divisor,
      and a positive tempo on every BPM event (pulseToTime divides by it). */
  predicate Measurable(m: Measure) {
    && m.divisor > 0
    && forall e :: 0 <= e < |m.events| && m.events[e].kind.BpmChange? ==>
         m.events[e].kind.tempo.Some? && m.events[e].kind.tempo.value > 0.0
  }

  predicate Timeable(ms: seq<Measure>) {
    forall k :: 0 <= k < |ms| ==> Measurable(ms[k])
  }

  // ---------------------------------------------------------------------------
  // Beat positions

  /** A measure lasts dividend/divisor whole notes of four beats. */
  function Length(m: Measure): (l: real)
    requires m.divisor > 0
    ensures l >= 0.0
  {
    m.dividend as real / m.divisor as real * 4.0
  }

  /** Beats from the start of the measure to an event; a measure without note data
      divides its length by one. */
  function EventOffset(m: Measure, position: nat): real
    requires m.divisor > 0
  {
    var n := if |m.data| == 0 then 1 else |m.data|;
    Length(m) / n as real * position as real
  }

  /** Beats from the start of the measure to its d-th note character. */
  function NoteOffset(m: Measure, d: nat): real
    requires m.divisor > 0 && |m.data| > 0
  {
    Length(m) / |m.data| as real * d as real
  }

  /** The timed form of a measure event at the given beat; scroll events have none. */
  function Timed(kind: EventKind, beat: real): (r: seq<TimedEvent>)
    requires kind.BpmChange? ==> kind.tempo.Some?
    ensures |r| <= 1 && forall i :: 0 <= i < |r| ==> r[i].beat == beat
  {
    match kind
    case BpmChange(tempo) => [TimedEvent(Bpm(tempo.value), beat)]
    case GogoStart => [TimedEvent(TimedKind.GogoStart, beat)]
    case GogoEnd => [TimedEvent(TimedKind.GogoEnd, beat)]
    case Scroll(_) => []
  }

  /** The timed events of the first n events of a measure starting at the given beat. */
  function MeasureEvents(m: Measure, start: real, n: nat): seq<TimedEvent>
    requires Measurable(m) && n <= |m.events|
  {
    if n == 0 then []
    else
      var e := m.events[n - 1];
      MeasureEvents(m, start, n - 1) + Timed(e.kind, start + EventOffset(m, e.position))
  }

  // ---------------------------------------------------------------------------
  // Notes

  /** The note scanner's state: the notes so far, the next BALLOON index, and whether
      a run of '9's is open. */
  datatype Scan = Scan(notes: seq<Note>, balloon: nat, imo: bool)

  /** The k-th BALLOON value, or None past the end of the list. */
  function Dealt(balloons: seq<nat>, k: nat): Option<nat> {
    if k < |balloons| then Some(balloons[k]) else None
  }

  /** A new note with its time not yet assigned. */
  function Place(s: Scan, kind: NoteKind, beat: real): Scan {
    s.(notes := s.notes + [Note(kind, beat, 0.0)])
  }

  function CharStep(s: Scan, ch: char, beat: real, balloons: seq<nat>): Scan {
    match ch
    case '1' => Place(s, Don, beat)
    case '2' => Place(s, Kat, beat)
    case '3' => Place(s, DonBig, beat)
    case '4' => Place(s, KatBig, beat)
    case '5' => Place(s, Renda, beat)
    case '6' => Place(s, RendaBig, beat)
    case '7' => Place(s, Balloon(Dealt(balloons, s.balloon)), beat).(balloon := s.balloon + 1)
    case '9' =>
      if s.imo then s
      else Place(s, Balloon(Dealt(balloons, s.balloon)), beat).(balloon := s.balloon + 1, imo := true)
    case '8' => Place(s, End, beat).(imo := false)
    case _ => s
  }

  /** The scanner after the first d characters of a measure starting at the given beat. */
  function MeasureNotes(s: Scan, m: Measure, start: real, d: nat, balloons: seq<nat>): Scan
    requires m.divisor > 0 && d <= |m.data|
  {
    if d == 0 then s
    else CharStep(MeasureNotes(s, m, start, d - 1, balloons), m.data[d - 1], start + NoteOffset(m, d - 1), balloons)
  }

  /** The flattened timeline of the measures so far: events, note scanner, and the
      beat where the next measure starts. */
  datatype Layout = Layout(events: seq<TimedEvent>, scan: Scan, beat: real)

  function Lay(ms: seq<Measure>, balloons: seq<nat>): Layout
    requires Timeable(ms)
  {
    if |ms| == 0 then Layout([], Scan([], 0, false), 0.0)
    else Extend(Lay(ms[..|ms| - 1], balloons), ms[|ms| - 1], balloons)
  }

  /** The layout with one more measure, starting where the layout ends. */
  function Extend(l: Layout, m: Measure, balloons: seq<nat>): Layout
    requires Measurable(m)
  {
    Layout(l.events + MeasureEvents(m, l.beat, |m.events|),
           MeasureNotes(l.scan, m, l.beat, |m.data|, balloons),
           l.beat + Length(m))
  }

  function Beats(notes: seq<Note>): (r: seq<real>)
    ensures |r| == |notes| && forall k :: 0 <= k < |r| ==> r[k] == notes[k].beat
  {
    seq(|notes|, k requires 0 <= k < |notes| => notes[k].beat)
  }

  function Stamp(notes: seq<Note>, times: seq<real>): (r: seq<Note>)
    requires |times| == |notes|
  {
    seq(|notes|, k requires 0 <= k < |notes| => notes[k].(time := times[k]))
  }

  /** The result of convertToTimed: the flattened events and notes, each note given
      the time pulseToTime computes for its beat. */
  function TimedOf(c: Course): TimedCourse
    requires Timeable(c.measures)
  {
    var l := Lay(c.measures, c.headers.balloon);
    LayTempos(c.measures, c.headers.balloon);
    TimedCourse(c.headers, l.events, Stamp(l.scan.notes, CursorTimes(l.events, Beats(l.scan.notes))))
  }

  // ---------------------------------------------------------------------------
  // convertToTimed

  method ConvertToTimed(course: Course) returns (timed: TimedCourse)
    requires Timeable(course.measures)
    ensures timed == TimedOf(course)
  {
    var events, notes := Flatten(course.measures, course.headers.balloon);
    LayTempos(course.measures, course.headers.balloon);
    var times := PulseToTime(events, Beats(notes));
    var stamped := StampTimes(notes, times);
    timed := TimedCourse(course.headers, events, stamped);
  }

  /** The measure loop of convertToTimed: events and notes of every measure, each
      measure starting where the previous one ends. */
  method Flatten(ms: seq<Measure>, balloons: seq<nat>) returns (events: seq<TimedEvent>, notes: seq<Note>)
    requires Timeable(ms)
    ensures events == Lay(ms, balloons).events && notes == Lay(ms, balloons).scan.notes
  {
    events, notes := [], [];
    var beat, balloon, imo := 0.0, 0, false;
    var m := 0;
    while m < |ms|
      invariant 0 <= m <= |ms|
      invariant Layout(events, Scan(notes, balloon, imo), beat) == Lay(ms[..m], balloons)
    {
      LayPrefix(ms, m, balloons);
      events, notes, balloon, imo, beat := LayMeasure(ms[m], balloons, events, notes, balloon, imo, beat);
      m := m + 1;
    }
    assert ms[..|ms|] == ms;
  }

  lemma LayPrefix(ms: seq<Measure>, m: nat, balloons: seq<nat>)
    requires Timeable(ms) && m < |ms|
    ensures Lay(ms[..m + 1], balloons) == Extend(Lay(ms[..m], balloons), ms[m], balloons)
  {
    assert ms[..m + 1][..m] == ms[..m];
  }

  /** One turn of the measure loop: the measure's events and notes, and the beat
      where the next measure starts. */
  method LayMeasure(measure: Measure, balloons: seq<nat>, events: seq<TimedEvent>, notes: seq<Note>, balloon: nat, imo: bool, beat: real)
    returns (events': seq<TimedEvent>, notes': seq<Note>, balloon': nat, imo': bool, beat': real)
    requires Measurable(measure)
    ensures Layout(events', Scan(notes', balloon', imo'), beat') == Extend(Layout(events, Scan(notes, balloon, imo), beat), measure, balloons)
  {
    events' := MeasureEventsOf(measure, beat, events);
    notes', balloon', imo' := MeasureNotesOf(measure, beat, balloons, notes, balloon, imo);
    beat' := beat + measure.dividend as real / measure.divisor as real * 4.0;
  }

  /** The closing loop of convertToTimed: note idx takes time idx. */
  method StampTimes(notes: seq<Note>, times: seq<real>) returns (stamped: seq<Note>)
    requires |times| == |notes|
    ensures stamped == Stamp(notes, times)
  {
    stamped := notes;
    var idx := 0;
    while idx < |times|
      invariant 0 <= idx <= |times| == |stamped|
      invariant stamped[..idx] == Stamp(notes, times)[..idx]
      invariant stamped[idx..] == notes[idx..]
    {
      stamped := stamped[idx := stamped[idx].(time := times[idx])];
      idx := idx + 1;
    }
    assert stamped == stamped[..idx];
  }

  /** The event loop of one measure, appending to the events so far. */
  method MeasureEventsOf(measure: Measure, beat: real, events: seq<TimedEvent>) returns (events': seq<TimedEvent>)
    requires Measurable(measure)
    ensures events' == events + MeasureEvents(measure, beat, |measure.events|)
  {
    events' := events;
    var e := 0;
    while e < |measure.events|
      invariant 0 <= e <= |measure.events|
      invariant events' == events + MeasureEvents(measure, beat, e)
    {
      events' := TimeEvent(measure, beat, e, events, events');
      e := e + 1;
    }
  }

  /** One turn of the event loop: the e-th event at its beat, if it is not a scroll
      change. */
  method TimeEvent(measure: Measure, beat: real, e: nat, ghost events: seq<TimedEvent>, events': seq<TimedEvent>)
    returns (events'': seq<TimedEvent>)
    requires Measurable(measure) && e < |measure.events|
    requires events' == events + MeasureEvents(measure, beat, e)
    ensures events'' == events + MeasureEvents(measure, beat, e + 1)
  {
    var event := measure.events[e];
    var at := EventBeat(measure, beat, event.position);
    MeasureEventsStep(measure, beat, e, events);
    events'' := events' + Timed(event.kind, at);
  }

  lemma MeasureEventsStep(m: Measure, start: real, n: nat, events: seq<TimedEvent>)
    requires Measurable(m) && n < |m.events|
    ensures events + MeasureEvents(m, start, n + 1)
            == events + MeasureEvents(m, start, n) + Timed(m.events[n].kind, start + EventOffset(m, m.events[n].position))
  {
  }

  /** The beat of an event: its share of the measure's length, after the start. */
  method EventBeat(measure: Measure, beat: real, position: nat) returns (at: real)
    requires measure.divisor > 0
    ensures at == beat + EventOffset(measure, position)
  {
    var length := measure.dividend as real / measure.divisor as real * 4.0;
    at := beat + length / (if |measure.data| == 0 then 1 else |measure.data|) as real * position as real;
  }

  /** The note loop of one measure, continuing the scanner's state. */
  method MeasureNotesOf(measure: Measure, beat: real, balloons: seq<nat>, notes: seq<Note>, balloon: nat, imo: bool)
    returns (notes': seq<Note>, balloon': nat, imo': bool)
    requires measure.divisor > 0
    ensures Scan(notes', balloon', imo') == MeasureNotes(Scan(notes, balloon, imo), measure, beat, |measure.data|, balloons)
  {
    var length := measure.dividend as real / measure.divisor as real * 4.0;
    notes', balloon', imo' := notes, balloon, imo;
    var d := 0;
    while d < |measure.data|
      invariant 0 <= d <= |measure.data|
      invariant Scan(notes', balloon', imo') == MeasureNotes(Scan(notes, balloon, imo), measure, beat, d, balloons)
    {
      ghost var prev := Scan(notes', balloon', imo');
      var ch := measure.data[d];
      var nBeat := length / |measure.data| as real * d as real;
      var note := Note(Don, beat + nBeat, 0.0);
      var typed := true;
      match ch {
        case '1' =>
        case '2' => note := note.(kind := Kat);
        case '3' => note := note.(kind := DonBig);
        case '4' => note := note.(kind := KatBig);
        case '5' => note := note.(kind := Renda);
        case '6' => note := note.(kind := RendaBig);
        case '7' =>
          note := note.(kind := Balloon(if balloon' < |balloons| then Some(balloons[balloon']) else None));
          balloon' := balloon' + 1;
        case '9' =>
          if !imo' {
            note := note.(kind := Balloon(if balloon' < |balloons| then Some(balloons[balloon']) else None));
            balloon' := balloon' + 1;
            imo' := true;
          } else {
            typed := false;
          }
        case '8' =>
          note := note.(kind := End);
          imo' := false;
        case _ => typed := false;
      }
      if typed {
        notes' := notes' + [note];
      }
      assert Scan(notes', balloon', imo') == CharStep(prev, ch, beat + nBeat, balloons);
      assert nBeat == NoteOffset(measure, d);
      d := d + 1;
    }
  }

  // ---------------------------------------------------------------------------
  // Tempos

  lemma {:induction false} MeasureEventsTempos(m: Measure, start: real, n: nat)
    requires Measurable(m) && n <= |m.events|
    ensures PositiveTempos(MeasureEvents(m, start, n))
  {
    if n > 0 {
      MeasureEventsTempos(m, start, n - 1);
    }
  }

  /** Every timed BPM event has the positive tempo of the measure event it came from. */
  lemma {:induction false} LayTempos(ms: seq<Measure>, balloons: seq<nat>)
    requires Timeable(ms)
    ensures PositiveTempos(Lay(ms, balloons).events)
  {
    if |ms| > 0 {
      var m := ms[|ms| - 1];
      LayTempos(ms[..|ms| - 1], balloons);
      MeasureEventsTempos(m, Lay(ms[..|ms| - 1], balloons).beat, |m.events|);
    }
  }

  // ---------------------------------------------------------------------------
  // Beats in order

  /** Evenly spaced offsets: q/n*p lies between 0 and q for p in 0..n, growing with p. */
  lemma Spacing(q: real, n: real, p: real, p': real)
    requires q >= 0.0 && n > 0.0 && 0.0 <= p <= p' <= n
    ensures 0.0 <= q / n * p <= q / n * p' <= q
  {
    var w := q / n;
    assert w >= 0.0;
    assert w * p' - w * p == w * (p' - p);
    assert w * n == q;
    assert w * n - w * p' == w * (n - p');
  }

  /** Event offsets grow with the position and stay within the measure. */
  lemma EventOffsetOrder(m: Measure, p: nat, p': nat)
    requires m.divisor > 0 && p <= p' && (p' <= |m.data| || p' == 1)
    ensures 0.0 <= EventOffset(m, p) <= EventOffset(m, p') <= Length(m)
  {
    var size := if |m.data| == 0 then 1 else |m.data|;
    Spacing(Length(m), size as real, p as real, p' as real);
  }

  /** Note offsets grow with the index and stay within the measure. */
  lemma NoteOffsetOrder(m: Measure, d: nat, d': nat)
    requires m.divisor > 0 && d <= d' <= |m.data| && |m.data| > 0
    ensures 0.0 <= NoteOffset(m, d) <= NoteOffset(m, d') <= Length(m)
  {
    Spacing(Length(m), |m.data| as real, d as real, d' as real);
  }

  predicate Within(events: seq<TimedEvent>, lo: real, hi: real) {
    forall i :: 0 <= i < |events| ==> lo <= events[i].beat <= hi
  }

  predicate NotesWithin(notes: seq<Note>, lo: real, hi: real) {
    forall i :: 0 <= i < |notes| ==> lo <= notes[i].beat <= hi
  }

  predicate InOrder(notes: seq<Note>) {
    forall i, j :: 0 <= i < j < |notes| ==> notes[i].beat <= notes[j].beat
  }

  predicate InTimeOrder(notes: seq<Note>) {
    forall i, j :: 0 <= i < j < |notes| ==> notes[i].time <= notes[j].time
  }

  lemma AppendEvents(xs: seq<TimedEvent>, ys: seq<TimedEvent>, lo: real, mid: real, hi: real)
    requires SortedEvents(xs) && Within(xs, lo, mid) && SortedEvents(ys) && Within(ys, mid, hi)
    requires lo <= mid <= hi
    ensures SortedEvents(xs + ys) && Within(xs + ys, lo, hi)
  {
  }

  lemma AppendNotes(xs: seq<Note>, ys: seq<Note>, lo: real, at: real)
    requires InOrder(xs) && NotesWithin(xs, lo, at) && lo <= at
    requires forall i :: 0 <= i < |ys| ==> ys[i].beat == at
    ensures InOrder(xs + ys) && NotesWithin(xs + ys, lo, at)
  {
  }

  /** The events of a measure whose positions are in order lie in order between its
      start and the offset of the last one taken. */
  lemma {:induction false} MeasureEventsInOrder(m: Measure, start: real, n: nat)
    requires Measurable(m) && MeasureWellPositioned(m) && 0 < n <= |m.events|
    ensures var r := MeasureEvents(m, start, n);
            SortedEvents(r) && Within(r, start, start + EventOffset(m, m.events[n - 1].position))
  {
    var e := m.events[n - 1];
    var at := start + EventOffset(m, e.position);
    var last := Timed(e.kind, at);
    assert SortedEvents(last) && Within(last, at, at);
    if n > 1 {
      var p := m.events[n - 2].position;
      MeasureEventsInOrder(m, start, n - 1);
      EventOffsetOrder(m, p, e.position);
      AppendEvents(MeasureEvents(m, start, n - 1), last, start, start + EventOffset(m, p), at);
    } else {
      EventOffsetOrder(m, 0, e.position);
    }
  }

  /** A measure's events lie within the measure. */
  lemma MeasureEventsWithin(m: Measure, start: real)
    requires Measurable(m) && MeasureWellPositioned(m)
    ensures var r := MeasureEvents(m, start, |m.events|);
            SortedEvents(r) && Within(r, start, start + Length(m))
  {
    var n := |m.events|;
    if n > 0 {
      MeasureEventsInOrder(m, start, n);
      EventOffsetOrder(m, m.events[n - 1].position, m.events[n - 1].position);
    }
  }

  /** A character adds at most one note, at the beat given. */
  lemma CharStepAppends(s: Scan, ch: char, beat: real, balloons: seq<nat>)
    ensures var r := CharStep(s, ch, beat, balloons);
            && |s.notes| <= |r.notes| <= |s.notes| + 1 && r.notes[..|s.notes|] == s.notes
            && forall i :: |s.notes| <= i < |r.notes| ==> r.notes[i].beat == beat
  {
  }

  /** The notes of a measure come in order between its start and the offset of the
      last character read, after notes that all lie before the start. */
  lemma {:induction false} MeasureNotesInOrder(s: Scan, m: Measure, start: real, d: nat, balloons: seq<nat>)
    requires m.divisor > 0 && 0 < d <= |m.data|
    requires InOrder(s.notes) && NotesWithin(s.notes, 0.0, start) && start >= 0.0
    ensures InOrder(MeasureNotes(s, m, start, d, balloons).notes)
    ensures NotesWithin(MeasureNotes(s, m, start, d, balloons).notes, 0.0, start + NoteOffset(m, d - 1))
  {
    var at := start + NoteOffset(m, d - 1);
    var prev := MeasureNotes(s, m, start, d - 1, balloons);
    if d > 1 {
      MeasureNotesInOrder(s, m, start, d - 1, balloons);
      assert start + NoteOffset(m, d - 2) <= at by {
        NoteOffsetOrder(m, d - 2, d - 1);
      }
      CharStepInOrder(prev, m.data[d - 1], start + NoteOffset(m, d - 2), at, balloons);
    } else {
      assert start <= at by {
        NoteOffsetOrder(m, 0, 0);
      }
      CharStepInOrder(prev, m.data[d - 1], start, at, balloons);
    }
    assert MeasureNotes(s, m, start, d, balloons) == CharStep(prev, m.data[d - 1], at, balloons);
  }

  lemma Widen(notes: seq<Note>, hi: real, hi': real)
    requires NotesWithin(notes, 0.0, hi) && hi <= hi'
    ensures NotesWithin(notes, 0.0, hi')
  {
  }

  /** A character keeps the notes in order below the beat it is read at. */
  lemma CharStepInOrder(s: Scan, ch: char, lo: real, at: real, balloons: seq<nat>)
    requires InOrder(s.notes) && NotesWithin(s.notes, 0.0, lo) && 0.0 <= lo <= at
    ensures InOrder(CharStep(s, ch, at, balloons).notes) && NotesWithin(CharStep(s, ch, at, balloons).notes, 0.0, at)
  {
    Widen(s.notes, lo, at);
    var r := CharStep(s, ch, at, balloons);
    CharStepAppends(s, ch, at, balloons);
    var tail := r.notes[|s.notes|..];
    assert r.notes == s.notes + tail;
    AppendNotes(s.notes, tail, 0.0, at);
  }

  /** A measure's notes lie within the measure, after the earlier ones. */
  lemma MeasureNotesWithin(s: Scan, m: Measure, start: real, balloons: seq<nat>)
    requires m.divisor > 0
    requires InOrder(s.notes) && NotesWithin(s.notes, 0.0, start) && start >= 0.0
    ensures var r := MeasureNotes(s, m, start, |m.data|, balloons);
            InOrder(r.notes) && NotesWithin(r.notes, 0.0, start + Length(m))
  {
    var d := |m.data|;
    if d > 0 {
      MeasureNotesInOrder(s, m, start, d, balloons);
      NoteOffsetOrder(m, d - 1, d);
    }
  }

  /** Laid end to end, well-positioned measures give events and notes in beat order,
      none past the end of the last measure. */
  lemma {:induction false} LayInOrder(ms: seq<Measure>, balloons: seq<nat>)
    requires Timeable(ms) && forall k :: 0 <= k < |ms| ==> MeasureWellPositioned(ms[k])
    ensures var l := Lay(ms, balloons);
            && l.beat >= 0.0
            && SortedEvents(l.events) && Within(l.events, 0.0, l.beat)
            && InOrder(l.scan.notes) && NotesWithin(l.scan.notes, 0.0, l.beat)
  {
    if |ms| > 0 {
      var prefix := ms[..|ms| - 1];
      var m := ms[|ms| - 1];
      var l := Lay(prefix, balloons);
      LayInOrder(prefix, balloons);
      MeasureEventsWithin(m, l.beat);
      MeasureNotesWithin(l.scan, m, l.beat, balloons);
      AppendEvents(l.events, MeasureEvents(m, l.beat, |m.events|), 0.0, l.beat, l.beat + Length(m));
    }
  }

  /** What convertToTimed promises for an assembled course: the flattened notes keep
      their kinds and beats, each gets the time of its beat under the course's tempo
      changes, and later notes never get earlier times. */
  lemma NotesTimed(c: Course)
    requires Timeable(c.measures) && forall k :: 0 <= k < |c.measures| ==> MeasureWellPositioned(c.measures[k])
    ensures var l := Lay(c.measures, c.headers.balloon);
            var t := TimedOf(c);
            && PositiveTempos(t.events) && SortedEvents(t.events)
            && |t.notes| == |l.scan.notes|
            && (forall i :: 0 <= i < |t.notes| ==>
                  t.notes[i].kind == l.scan.notes[i].kind && t.notes[i].beat == l.scan.notes[i].beat
                  && t.notes[i].time == TimeAt(t.events, t.notes[i].beat))
            && InOrder(t.notes) && InTimeOrder(t.notes)
  {
    var l := Lay(c.measures, c.headers.balloon);
    LayTempos(c.measures, c.headers.balloon);
    LayInOrder(c.measures, c.headers.balloon);
    var beats := Beats(l.scan.notes);
    assert Sorted(beats);
    SortedTargets(l.events, beats);
  }

  // ---------------------------------------------------------------------------
  // Note count and balloon bookkeeping

  /** Reading a note string left to right: notes made, BALLOON values taken, and
      whether a '9' run is open. Independent of beats and of measure boundaries. */
  datatype Census = Census(notes: nat, balloons: nat, imo: bool)

  function Count(c: Census, ch: char): Census {
    if '1' <= ch <= '6' then c.(notes := c.notes + 1)
    else if ch == '7' then c.(notes := c.notes + 1, balloons := c.balloons + 1)
    else if ch == '9' then (if c.imo then c else Census(c.notes + 1, c.balloons + 1, true))
    else if ch == '8' then c.(notes := c.notes + 1, imo := false)
    else c
  }

  function CensusOf(c: Census, text: string): Census
    decreases |text|
  {
    if |text| == 0 then c else Count(CensusOf(c, text[..|text| - 1]), text[|text| - 1])
  }

  lemma {:induction false} CensusAppend(c: Census, a: string, b: string)
    ensures CensusOf(c, a + b) == CensusOf(CensusOf(c, a), b)
    decreases |b|
  {
    if |b| > 0 {
      assert (a + b)[..|a + b| - 1] == a + b[..|b| - 1];
      assert (a + b)[|a + b| - 1] == b[|b| - 1];
      CensusAppend(c, a, b[..|b| - 1]);
    } else {
      assert a + b == a;
    }
  }

  lemma CensusStep(c: Census, text: string, d: nat)
    requires d < |text|
    ensures CensusOf(c, text[..d + 1]) == Count(CensusOf(c, text[..d]), text[d])
  {
    assert text[..d + 1][..d] == text[..d];
  }

  function CensusOfScan(s: Scan): Census {
    Census(|s.notes|, s.balloon, s.imo)
  }

  lemma {:induction false} MeasureNotesCensus(s: Scan, m: Measure, start: real, d: nat, balloons: seq<nat>)
    requires m.divisor > 0 && d <= |m.data|
    ensures CensusOfScan(MeasureNotes(s, m, start, d, balloons)) == CensusOf(CensusOfScan(s), m.data[..d])
  {
    if d > 0 {
      MeasureNotesCensus(s, m, start, d - 1, balloons);
      MeasureNotesStepCensus(s, m, start, d, balloons);
      CensusStep(CensusOfScan(s), m.data, d - 1);
    }
  }

  /** A character changes the scanner's census as Count does. */
  lemma MeasureNotesStepCensus(s: Scan, m: Measure, start: real, d: nat, balloons: seq<nat>)
    requires m.divisor > 0 && 0 < d <= |m.data|
    ensures CensusOfScan(MeasureNotes(s, m, start, d, balloons))
            == Count(CensusOfScan(MeasureNotes(s, m, start, d - 1, balloons)), m.data[d - 1])
  {
    var prev := MeasureNotes(s, m, start, d - 1, balloons);
    assert MeasureNotes(s, m, start, d, balloons) == CharStep(prev, m.data[d - 1], start + NoteOffset(m, d - 1), balloons);
  }

  /** The number of notes, the BALLOON values taken and the '9' state after the
      measures depend only on their concatenated note data. */
  lemma {:induction false} LayCensus(ms: seq<Measure>, balloons: seq<nat>)
    requires Timeable(ms)
    ensures CensusOfScan(Lay(ms, balloons).scan) == CensusOf(Census(0, 0, false), AllNotes(ms))
  {
    if |ms| > 0 {
      var prefix := ms[..|ms| - 1];
      var m := ms[|ms| - 1];
      var l := Lay(prefix, balloons);
      LayCensus(prefix, balloons);
      MeasureNotesCensus(l.scan, m, l.beat, |m.data|, balloons);
      assert m.data[..|m.data|] == m.data;
      CensusAppend(Census(0, 0, false), AllNotes(prefix), m.data);
      LayScan(ms, balloons);
    }
  }

  lemma LayScan(ms: seq<Measure>, balloons: seq<nat>)
    requires Timeable(ms) && |ms| > 0
    ensures Lay(ms, balloons).scan
            == MeasureNotes(Lay(ms[..|ms| - 1], balloons).scan, ms[|ms| - 1], Lay(ms[..|ms| - 1], balloons).beat, |ms[|ms| - 1].data|, balloons)
  {
  }

  /** How many BALLOON values a course's notes take, read in chart order. */
  function BalloonDemand(ms: seq<Measure>): nat {
    CensusOf(Census(0, 0, false), AllNotes(ms)).balloons
  }

  /** The balloon counts of the notes, in order. */
  function BalloonCountsIn(notes: seq<Note>): seq<Option<nat>>
    decreases |notes|
  {
    if |notes| == 0 then []
    else
      var last := notes[|notes| - 1];
      BalloonCountsIn(notes[..|notes| - 1]) + (if last.kind.Balloon? then [last.kind.count] else [])
  }

  /** The first n BALLOON values, None for each one past the end of the list. */
  function Tickets(balloons: seq<nat>, n: nat): (r: seq<Option<nat>>)
    ensures |r| == n
  {
    seq(n, k requires 0 <= k < n => Dealt(balloons, k))
  }

  lemma CharStepDeals(s: Scan, ch: char, beat: real, balloons: seq<nat>)
    requires BalloonCountsIn(s.notes) == Tickets(balloons, s.balloon)
    ensures BalloonCountsIn(CharStep(s, ch, beat, balloons).notes) == Tickets(balloons, CharStep(s, ch, beat, balloons).balloon)
  {
    if ch == '7' || (ch == '9' && !s.imo) {
      PlaceCounts(s, Balloon(Dealt(balloons, s.balloon)), beat);
      TicketsNext(balloons, s.balloon);
    } else if ch == '1' || ch == '2' || ch == '3' || ch == '4' || ch == '5' || ch == '6' || ch == '8' {
      var r := CharStep(s, ch, beat, balloons);
      PlaceCounts(s, r.notes[|s.notes|].kind, beat);
    }
  }

  /** A new note adds its balloon count, if it is a balloon. */
  lemma PlaceCounts(s: Scan, kind: NoteKind, beat: real)
    ensures BalloonCountsIn(Place(s, kind, beat).notes)
            == BalloonCountsIn(s.notes) + if kind.Balloon? then [kind.count] else []
  {
    assert Place(s, kind, beat).notes[..|s.notes|] == s.notes;
  }

  lemma TicketsNext(balloons: seq<nat>, n: nat)
    ensures Tickets(balloons, n + 1) == Tickets(balloons, n) + [Dealt(balloons, n)]
  {
  }

  lemma {:induction false} MeasureNotesDeal(s: Scan, m: Measure, start: real, d: nat, balloons: seq<nat>)
    requires m.divisor > 0 && d <= |m.data|
    requires BalloonCountsIn(s.notes) == Tickets(balloons, s.balloon)
    ensures BalloonCountsIn(MeasureNotes(s, m, start, d, balloons).notes)
            == Tickets(balloons, MeasureNotes(s, m, start, d, balloons).balloon)
  {
    if d > 0 {
      var prev := MeasureNotes(s, m, start, d - 1, balloons);
      MeasureNotesDeal(s, m, start, d - 1, balloons);
      CharStepDeals(prev, m.data[d - 1], start + NoteOffset(m, d - 1), balloons);
      assert MeasureNotes(s, m, start, d, balloons) == CharStep(prev, m.data[d - 1], start + NoteOffset(m, d - 1), balloons);
    }
  }

  lemma {:induction false} LayDeals(ms: seq<Measure>, balloons: seq<nat>)
    requires Timeable(ms)
    ensures var l := Lay(ms, balloons);
            BalloonCountsIn(l.scan.notes) == Tickets(balloons, l.scan.balloon)
  {
    if |ms| > 0 {
      var m := ms[|ms| - 1];
      var l := Lay(ms[..|ms| - 1], balloons);
      LayDeals(ms[..|ms| - 1], balloons);
      MeasureNotesDeal(l.scan, m, l.beat, |m.data|, balloons);
    }
  }

  /** The k-th balloon note (from a '7', or a '9' opening a run) gets the k-th BALLOON
      value, or none once the list is exhausted; there are as many balloon notes as
      the note data demands. */
  lemma BalloonsInOrder(ms: seq<Measure>, balloons: seq<nat>)
    requires Timeable(ms)
    ensures BalloonCountsIn(Lay(ms, balloons).scan.notes) == Tickets(balloons, BalloonDemand(ms))
  {
    LayDeals(ms, balloons);
    LayCensus(ms, balloons);
  }

  lemma {:induction false} BalloonNotesCounted(notes: seq<Note>, i: nat)
    requires i < |notes| && notes[i].kind.Balloon?
    ensures notes[i].kind.count in BalloonCountsIn(notes)
    decreases |notes|
  {
    if i < |notes| - 1 {
      BalloonNotesCounted(notes[..|notes| - 1], i);
    }
  }

  /** With at least as many BALLOON values as the notes demand, every balloon note has
      a count. */
  lemma EnoughBalloons(ms: seq<Measure>, balloons: seq<nat>)
    requires Timeable(ms) && BalloonDemand(ms) <= |balloons|
    ensures var notes := Lay(ms, balloons).scan.notes;
            forall i :: 0 <= i < |notes| && notes[i].kind.Balloon? ==> notes[i].kind.count.Some?
  {
    var notes := Lay(ms, balloons).scan.notes;
    BalloonsInOrder(ms, balloons);
    forall i | 0 <= i < |notes| && notes[i].kind.Balloon? ensures notes[i].kind.count.Some? {
      BalloonNotesCounted(notes, i);
    }
  }

  // ---------------------------------------------------------------------------
  // The renderer's balloon pre-scan (src/js/drawChart.js)

  function Reversed(s: string): (r: string)
    ensures |r| == |s|
  {
    if |s| == 0 then [] else [s[|s| - 1]] + Reversed(s[..|s| - 1])
  }

  /** The renderer's pre-scan as written: measure after measure, but the characters
      of each measure from last to first, with the same '7'/'9'/'8' bookkeeping. */
  function RendererScan(ms: seq<Measure>): Census
    decreases |ms|
  {
    if |ms| == 0 then Census(0, 0, false)
    else CensusOf(RendererScan(ms[..|ms| - 1]), Reversed(ms[|ms| - 1].data))
  }

  function RendererDemand(ms: seq<Measure>): nat {
    RendererScan(ms).balloons
  }

  /** Measures "98" and "9" take two BALLOON values, but the pre-scan, reading "98"
      backwards, closes nothing and opens a run that swallows the second '9': it
      counts one. With BALLOON:5 the renderer's check passes and the second balloon
      gets no count. */
  lemma RendererUndercounts()
    ensures var ms := [Measure(4, 4, false, "98", []), Measure(4, 4, false, "9", [])];
            && Timeable(ms)
            && RendererDemand(ms) == 1 && BalloonDemand(ms) == 2
            && BalloonCountsIn(Lay(ms, [5]).scan.notes) == [Some(5), None]
  {
    var ms := [Measure(4, 4, false, "98", []), Measure(4, 4, false, "9", [])];
    RendererCountsOne(ms);
    ChartDemandsTwo(ms);
    BalloonsInOrder(ms, [5]);
    assert Tickets([5], 2) == [Some(5), None];
  }

  /** The pre-scan of measures "98" and "9": "89" opens a run, and the '9' after it
      is swallowed. */
  lemma RendererCountsOne(ms: seq<Measure>)
    requires |ms| == 2 && ms[0].data == "98" && ms[1].data == "9"
    ensures RendererDemand(ms) == 1
  {
    var start := Census(0, 0, false);
    assert ms[..1] == [ms[0]] && ms[..1][..0] == [];
    assert Reversed("98") == "89" by {
      assert "98"[..1] == "9";
      assert Reversed("9") == "9";
    }
    assert Reversed("9") == "9";
    assert "89"[..1] == "8" && "8"[..0] == "";
    assert CensusOf(start, "8") == Census(1, 0, false);
    assert CensusOf(start, "89") == Census(2, 1, true);
    assert RendererScan(ms[..1]) == Census(2, 1, true);
    assert "9"[..0] == "";
    assert RendererScan(ms) == CensusOf(Census(2, 1, true), "9") == Census(2, 1, true);
  }

  /** Read in chart order, "989" opens a run, closes it and opens another. */
  lemma ChartDemandsTwo(ms: seq<Measure>)
    requires |ms| == 2 && ms[0].data == "98" && ms[1].data == "9"
    ensures BalloonDemand(ms) == 2
  {
    assert ms[..1] == [ms[0]] && ms[..1][..0] == [];
    assert AllNotes(ms[..1]) == "98" by {
      assert AllNotes(ms[..1][..0]) == "";
    }
    assert AllNotes(ms) == "98" + "9";
    assert "98" + "9" == "989";
    NineEightNine();
  }

  lemma NineEightNine()
    ensures CensusOf(Census(0, 0, false), "989") == Census(3, 2, true)
  {
    var start := Census(0, 0, false);
    CensusStep(start, "989", 0);
    CensusStep(start, "989", 1);
    CensusStep(start, "989", 2);
    assert "989"[..0] == "" && "989"[..3] == "989";
  }
}
