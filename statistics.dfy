/** The statistics engine (getStatistics in src/js/analyseChart.js): one pass over the
    timed notes counting hits and combo, scoring each hit by combo tier and go-go
    time, and closing holds: an end note closes the open renda, else the open balloon,
    and a hold opened at time 0 is never closed. */
module Statistics {
  import opened Text
  import opened TjaCourse
  import opened Timing
  import opened Timeline

  /** A closed balloon: its duration in seconds and its count. */
  datatype BalloonRecord = BalloonRecord(length: real, count: Option<nat>)

  /** The score part of the result: the potential score (None once a NaN header
      value has entered it), hit weights per go-go state and tier, and the bonus
      hits and pops of the balloons per go-go state. */
  datatype Score = Score(score: Option<int>, notes: seq<seq<nat>>, balloon: seq<int>, balloonPop: seq<nat>)

  datatype Stats = Stats(
    totalCombo: nat, notes: seq<nat>, length: real,
    rendas: seq<real>, balloons: seq<BalloonRecord>, score: Score)

  // ---------------------------------------------------------------------------
  // Hit notes and their score

  predicate IsHit(k: NoteKind) {
    k.Don? || k.Kat? || k.DonBig? || k.KatBig?
  }

  /** The position of a hit note type in the list don, kat, donBig, katBig. */
  function HitIndex(k: NoteKind): (v: nat)
    requires IsHit(k)
    ensures v < 4
  {
    if k.Don? then 0 else if k.Kat? then 1 else if k.DonBig? then 2 else 3
  }

  predicate IsBig(k: NoteKind) {
    k.DonBig? || k.KatBig?
  }

  /** The combo tier: below 10, 30, 50, 100, or beyond. */
  function Tier(combo: nat): (r: nat)
    ensures r < 5
  {
    if combo < 10 then 0 else if combo < 30 then 1 else if combo < 50 then 2 else if combo < 100 then 3 else 4
  }

  /** How many times scoreDiff a hit at this combo adds. */
  function Multiplier(combo: nat): nat {
    if combo < 10 then 0 else if combo < 30 then 1 else if combo < 50 then 2 else if combo < 100 then 4 else 8
  }

  /** Math.floor(x / 10) * 10: the largest multiple of ten not above x. */
  function Floor10(x: int): int {
    x / 10 * 10
  }

  lemma Floor10Bounds(x: int)
    ensures Floor10(x) % 10 == 0 && Floor10(x) <= x < Floor10(x) + 10
  {
  }

  /** Math.floor(s * 1.2 / 10) * 10, in exact arithmetic. */
  function GogoScore(s: int): int {
    s * 12 / 100 * 10
  }

  lemma GogoScoreBounds(s: int)
    ensures GogoScore(s) % 10 == 0 && GogoScore(s) * 10 <= s * 12 < GogoScore(s) * 10 + 100
  {
  }

  /** The score of one hit; None when a score header is NaN. */
  function NoteScore(init: Option<int>, diff: Option<int>, combo: nat, gogo: bool, big: bool): Option<int> {
    if init.None? || diff.None? then None
    else
      var base := Floor10(init.value + diff.value * Multiplier(combo));
      var s := if gogo then GogoScore(base) else base;
      Some(if big then s * 2 else s)
  }

  function AddScore(total: Option<int>, s: Option<int>): Option<int> {
    if total.None? || s.None? then None else Some(total.value + s.value)
  }

  // ---------------------------------------------------------------------------
  // Go-go time

  function Gogo(g: bool, e: TimedEvent): bool {
    if e.kind.GogoStart? then true else if e.kind.GogoEnd? then false else g
  }

  /** The go-go state after the first n events. */
  function GogoAfter(events: seq<TimedEvent>, n: nat): bool
    requires n <= |events|
  {
    if n == 0 then false else Gogo(GogoAfter(events, n - 1), events[n - 1])
  }

  /** The go-go state at beat b: whether the last go-go event at or before b starts
      go-go time. */
  function GogoOn(events: seq<TimedEvent>, b: real): bool
    decreases |events|
  {
    if |events| == 0 then false
    else
      var e := events[|events| - 1];
      if e.beat <= b && e.kind.GogoStart? then true
      else if e.beat <= b && e.kind.GogoEnd? then false
      else GogoOn(events[..|events| - 1], b)
  }

  // ---------------------------------------------------------------------------
  // The tally

  /** Every counter and flag of getStatistics; a hold start is None while no hold is
      open (the flag false). */
  datatype Tally = Tally(
    notes: seq<nat>, start: real, end: real, combo: nat,
    rendaStart: Option<real>, balloonStart: Option<real>, balloonCount: Option<nat>, balloonGogo: bool,
    rendas: seq<real>, balloons: seq<BalloonRecord>,
    scNotes: seq<seq<nat>>, scBalloon: seq<int>, scBalloonPop: seq<nat>, potential: Option<int>)

  const Fresh := Tally([0, 0, 0, 0], 0.0, 0.0, 0, None, None, Some(0), false, [], [],
                       [[0, 0, 0, 0, 0], [0, 0, 0, 0, 0]], [0, 0], [0, 0], Some(0))

  predicate Shaped(t: Tally) {
    && |t.notes| == 4 && |t.scNotes| == 2 && |t.scNotes[0]| == 5 && |t.scNotes[1]| == 5
    && |t.scBalloon| == 2 && |t.scBalloonPop| == 2
  }

  /** JavaScript truthiness of a hold start: set, and not at time 0. */
  predicate Truthy(h: Option<real>) {
    h.Some? && h.value != 0.0
  }

  function Slot(g: bool): nat {
    if g then 1 else 0
  }

  /** count / length <= 60 in JavaScript: false for an undefined count (NaN) and for a
      zero length (Infinity or NaN). */
  predicate Pops(count: Option<nat>, length: real) {
    count.Some? && length != 0.0 && count.value as real / length <= 60.0
  }

  function Hit(t: Tally, note: Note, first: bool, gogo: bool, h: CourseHeaders): (r: Tally)
    requires Shaped(t) && IsHit(note.kind)
    ensures Shaped(r)
  {
    var v := HitIndex(note.kind);
    var big := IsBig(note.kind);
    var combo := t.combo + 1;
    var g := Slot(gogo);
    var tier := Tier(combo);
    t.(start := if first then note.time else t.start,
       end := note.time,
       notes := t.notes[v := t.notes[v] + 1],
       combo := combo,
       scNotes := t.scNotes[g := t.scNotes[g][tier := t.scNotes[g][tier] + (if big then 2 else 1)]],
       potential := AddScore(t.potential, NoteScore(h.scoreInit, h.scoreDiff, combo, gogo, big)))
  }

  /** An end note closes the renda if one is open, else the balloon if one is open. */
  function Close(t: Tally, note: Note): (r: Tally)
    requires Shaped(t)
    ensures Shaped(r)
  {
    if Truthy(t.rendaStart) then
      t.(rendas := t.rendas + [note.time - t.rendaStart.value], rendaStart := None)
    else if Truthy(t.balloonStart) then
      var length := note.time - t.balloonStart.value;
      var g := Slot(t.balloonGogo);
      var closed := t.(balloons := t.balloons + [BalloonRecord(length, t.balloonCount)], balloonStart := None);
      if Pops(t.balloonCount, length) then
        closed.(scBalloon := t.scBalloon[g := t.scBalloon[g] + t.balloonCount.value - 1],
                scBalloonPop := t.scBalloonPop[g := t.scBalloonPop[g] + 1])
      else closed
    else t
  }

  function NoteStep(t: Tally, note: Note, first: bool, gogo: bool, h: CourseHeaders): (r: Tally)
    requires Shaped(t)
    ensures Shaped(r)
  {
    if IsHit(note.kind) then Hit(t, note, first, gogo, h)
    else if note.kind.Renda? || note.kind.RendaBig? then t.(rendaStart := Some(note.time))
    else if note.kind.Balloon? then t.(balloonStart := Some(note.time), balloonCount := note.kind.count, balloonGogo := gogo)
    else if note.kind.End? then Close(t, note)
    else t
  }

  /** Where getStatistics stands after some notes: its go-go cursor, the go-go state,
      and the tally. */
  datatype Pass = Pass(cursor: nat, gogo: bool, tally: Tally)

  /** One note: the go-go cursor first consumes the events at or before its beat. */
  function Visit(events: seq<TimedEvent>, h: CourseHeaders, p: Pass, note: Note, first: bool): (r: Pass)
    requires p.cursor <= |events| && Shaped(p.tally)
    ensures r.cursor <= |events| && Shaped(r.tally)
  {
    var cursor := Skip(events, p.cursor, note.beat);
    var gogo := GogoAfter(events, cursor);
    Pass(cursor, gogo, NoteStep(p.tally, note, first, gogo, h))
  }

  function Walk(events: seq<TimedEvent>, h: CourseHeaders, notes: seq<Note>): (p: Pass)
    ensures p.cursor <= |events| && Shaped(p.tally) && p.gogo == GogoAfter(events, p.cursor)
    decreases |notes|
  {
    if |notes| == 0 then Pass(0, false, Fresh)
    else Visit(events, h, Walk(events, h, notes[..|notes| - 1]), notes[|notes| - 1], |notes| == 1)
  }

  function Summary(t: Tally): Stats {
    Stats(t.combo, t.notes, t.end - t.start, t.rendas, t.balloons,
          Score(t.potential, t.scNotes, t.scBalloon, t.scBalloonPop))
  }

  function StatisticsOf(c: TimedCourse): Stats {
    Summary(Walk(c.events, c.headers, c.notes).tally)
  }

  // ---------------------------------------------------------------------------
  // getStatistics

  method GetStatistics(course: TimedCourse) returns (stats: Stats)
    ensures stats == StatisticsOf(course)
  {
    var events, h := course.events, course.headers;
    var t := Fresh;
    var scCurEventIdx, scGogo := 0, false;

    var i := 0;
    while i < |course.notes|
      invariant 0 <= i <= |course.notes|
      invariant Pass(scCurEventIdx, scGogo, t) == Walk(events, h, course.notes[..i])
    {
      scCurEventIdx, scGogo, t := VisitNote(events, h, course.notes, i, scCurEventIdx, scGogo, t);
      i := i + 1;
    }
    assert course.notes[..i] == course.notes;
    stats := Stats(t.combo, t.notes, t.end - t.start, t.rendas, t.balloons,
                   Score(t.potential, t.scNotes, t.scBalloon, t.scBalloonPop));
  }

  lemma WalkPrefix(events: seq<TimedEvent>, h: CourseHeaders, notes: seq<Note>, i: nat)
    requires i < |notes|
    ensures Walk(events, h, notes[..i + 1]) == Visit(events, h, Walk(events, h, notes[..i]), notes[i], i == 0)
  {
    assert notes[..i + 1][..i] == notes[..i];
  }

  /** One turn of the note loop of getStatistics: the go-go cursor catches up with
      the i-th note's beat, then the note is counted. */
  method VisitNote(events: seq<TimedEvent>, h: CourseHeaders, notes: seq<Note>, i: nat, cursor: nat, gogo: bool, t: Tally)
    returns (cursor': nat, gogo': bool, t': Tally)
    requires i < |notes| && Pass(cursor, gogo, t) == Walk(events, h, notes[..i])
    ensures Pass(cursor', gogo', t') == Walk(events, h, notes[..i + 1])
  {
    WalkPrefix(events, h, notes, i);
    cursor', gogo' := AdvanceGogo(events, cursor, gogo, notes[i].beat);
    t' := CountNote(t, notes[i], i == 0, gogo', h);
  }

  /** The body of the note loop of getStatistics: a hit counts and scores, a renda or
      balloon opens a hold, an end note closes one. */
  method CountNote(t: Tally, note: Note, first: bool, scGogo: bool, h: CourseHeaders) returns (t': Tally)
    requires Shaped(t)
    ensures t' == NoteStep(t, note, first, scGogo, h)
  {
    t' := t;
    if IsHit(note.kind) {
      t' := CountHit(t, note, first, scGogo, h);
    } else if note.kind.Renda? || note.kind.RendaBig? {
      t' := t'.(rendaStart := Some(note.time));
    } else if note.kind.Balloon? {
      t' := t'.(balloonStart := Some(note.time), balloonCount := note.kind.count, balloonGogo := scGogo);
    } else if note.kind.End? {
      t' := CloseHold(t, note);
    }
  }

  /** A hit: its type's count, the combo and the score tables go up. */
  method CountHit(t: Tally, note: Note, first: bool, scGogo: bool, h: CourseHeaders) returns (t': Tally)
    requires Shaped(t) && IsHit(note.kind)
    ensures t' == Hit(t, note, first, scGogo, h)
  {
    var v1 := HitIndex(note.kind);
    var start := if first then note.time else t.start;
    var combo := t.combo + 1;
    var big := v1 == 2 || v1 == 3;
    var scRange := if combo < 10 then 0 else if combo < 30 then 1 else if combo < 50 then 2 else if combo < 100 then 3 else 4;
    var g := if scGogo then 1 else 0;
    var noteScore := NoteScore(h.scoreInit, h.scoreDiff, combo, scGogo, big);
    t' := t.(start := start, end := note.time,
             notes := t.notes[v1 := t.notes[v1] + 1],
             combo := combo,
             scNotes := t.scNotes[g := t.scNotes[g][scRange := t.scNotes[g][scRange] + (if big then 2 else 1)]],
             potential := AddScore(t.potential, noteScore));
    assert scRange == Tier(combo) && big == IsBig(note.kind) && g == Slot(scGogo);
  }

  /** An end note: the open renda, else the open balloon, is recorded and closed. */
  method CloseHold(t: Tally, note: Note) returns (t': Tally)
    requires Shaped(t)
    ensures t' == Close(t, note)
  {
    t' := t;
    if t'.rendaStart.Some? && t'.rendaStart.value != 0.0 {
      t' := t'.(rendas := t'.rendas + [note.time - t'.rendaStart.value], rendaStart := None);
    } else if t'.balloonStart.Some? && t'.balloonStart.value != 0.0 {
      var balloonLength := note.time - t'.balloonStart.value;
      var balloonCount := t'.balloonCount;
      t' := t'.(balloons := t'.balloons + [BalloonRecord(balloonLength, balloonCount)], balloonStart := None);
      if balloonCount.Some? && balloonLength != 0.0 && balloonCount.value as real / balloonLength <= 60.0 {
        var g := if t'.balloonGogo then 1 else 0;
        t' := t'.(scBalloon := t'.scBalloon[g := t'.scBalloon[g] + balloonCount.value - 1],
                  scBalloonPop := t'.scBalloonPop[g := t'.scBalloonPop[g] + 1]);
      }
    }
  }

  /** The go-go cursor of getStatistics: consumes the events at or before beat b,
      switching go-go on and off at the go-go events. */
  method AdvanceGogo(events: seq<TimedEvent>, cursor: nat, gogo: bool, b: real) returns (cursor': nat, gogo': bool)
    requires cursor <= |events| && gogo == GogoAfter(events, cursor)
    ensures cursor' == Skip(events, cursor, b) && gogo' == GogoAfter(events, cursor')
  {
    cursor', gogo' := cursor, gogo;
    if cursor' < |events| && events[cursor'].beat <= b {
      // the do-while of the source: the body runs once, then while the guard holds
      while cursor' < |events| && events[cursor'].beat <= b
        invariant cursor <= cursor' <= |events|
        invariant Skip(events, cursor', b) == Skip(events, cursor, b)
        invariant gogo' == GogoAfter(events, cursor')
        decreases |events| - cursor'
      {
        if events[cursor'].kind.GogoStart? {
          gogo' := true;
        } else if events[cursor'].kind.GogoEnd? {
          gogo' := false;
        }
        cursor' := cursor' + 1;
      }
    }
  }

  // ---------------------------------------------------------------------------
  // Reference counts

  function HitCount(notes: seq<Note>): nat
    decreases |notes|
  {
    if |notes| == 0 then 0
    else HitCount(notes[..|notes| - 1]) + (if IsHit(notes[|notes| - 1].kind) then 1 else 0)
  }

  /** The number of hit notes of the type at index v of don, kat, donBig, katBig. */
  function KindCount(notes: seq<Note>, v: nat): nat
    decreases |notes|
  {
    if |notes| == 0 then 0
    else
      var k := notes[|notes| - 1].kind;
      KindCount(notes[..|notes| - 1], v) + (if IsHit(k) && HitIndex(k) == v then 1 else 0)
  }

  /** Hits weighted 2 for big notes, 1 for the others. */
  function Weight(notes: seq<Note>): nat
    decreases |notes|
  {
    if |notes| == 0 then 0
    else
      var k := notes[|notes| - 1].kind;
      Weight(notes[..|notes| - 1]) + (if IsHit(k) then (if IsBig(k) then 2 else 1) else 0)
  }

  function EndCount(notes: seq<Note>): nat
    decreases |notes|
  {
    if |notes| == 0 then 0
    else EndCount(notes[..|notes| - 1]) + (if notes[|notes| - 1].kind.End? then 1 else 0)
  }

  /** The time of the last hit note, 0 when there is none. */
  function LastHitTime(notes: seq<Note>): real
    decreases |notes|
  {
    if |notes| == 0 then 0.0
    else if IsHit(notes[|notes| - 1].kind) then notes[|notes| - 1].time
    else LastHitTime(notes[..|notes| - 1])
  }

  /** The time the track length is measured from: that of the first note if it is a
      hit, else 0. */
  function TrackStart(notes: seq<Note>): real {
    if |notes| > 0 && IsHit(notes[0].kind) then notes[0].time else 0.0
  }

  function Sum(xs: seq<int>): int
    decreases |xs|
  {
    if |xs| == 0 then 0 else Sum(xs[..|xs| - 1]) + xs[|xs| - 1]
  }

  lemma {:induction false} SumUpdate(xs: seq<int>, i: nat, w: int)
    requires i < |xs|
    ensures Sum(xs[i := xs[i] + w]) == Sum(xs) + w
    decreases |xs|
  {
    var ys := xs[i := xs[i] + w];
    var n := |xs| - 1;
    assert ys[..n] == if i < n then xs[..n][i := xs[i] + w] else xs[..n];
    if i < n {
      SumUpdate(xs[..n], i, w);
    }
  }

  lemma {:induction false} SumZero(xs: seq<int>)
    requires forall i :: 0 <= i < |xs| ==> xs[i] == 0
    ensures Sum(xs) == 0
    decreases |xs|
  {
    if |xs| > 0 {
      SumZero(xs[..|xs| - 1]);
    }
  }

  function PopCount(rs: seq<BalloonRecord>): nat
    decreases |rs|
  {
    if |rs| == 0 then 0
    else PopCount(rs[..|rs| - 1]) + (if Pops(rs[|rs| - 1].count, rs[|rs| - 1].length) then 1 else 0)
  }

  /** The bonus hits of the popped balloons: count - 1 each. */
  function Bonus(rs: seq<BalloonRecord>): int
    decreases |rs|
  {
    if |rs| == 0 then 0
    else
      var r := rs[|rs| - 1];
      Bonus(rs[..|rs| - 1]) + (if Pops(r.count, r.length) then r.count.value - 1 else 0)
  }

  // ---------------------------------------------------------------------------
  // Properties of the tally

  lemma WalkStep(events: seq<TimedEvent>, h: CourseHeaders, notes: seq<Note>)
    requires |notes| > 0
    ensures var n := |notes| - 1;
            var w := Walk(events, h, notes);
            w.tally == NoteStep(Walk(events, h, notes[..n]).tally, notes[n], n == 0, w.gogo, h)
  {
  }

  /** One note counts as a hit of its type, or leaves the counts alone. */
  lemma StepHits(t: Tally, note: Note, first: bool, gogo: bool, h: CourseHeaders)
    requires Shaped(t)
    ensures NoteStep(t, note, first, gogo, h).combo == t.combo + (if IsHit(note.kind) then 1 else 0)
    ensures NoteStep(t, note, first, gogo, h).notes
            == if IsHit(note.kind) then t.notes[HitIndex(note.kind) := t.notes[HitIndex(note.kind)] + 1] else t.notes
  {
  }

  /** One note adds one to entry v of notes exactly when it is a hit of type v. */
  lemma StepKind(t: Tally, note: Note, first: bool, gogo: bool, h: CourseHeaders, v: nat)
    requires Shaped(t) && v < 4
    ensures NoteStep(t, note, first, gogo, h).notes[v] == t.notes[v] + if IsHit(note.kind) && HitIndex(note.kind) == v then 1 else 0
  {
    StepHits(t, note, first, gogo, h);
  }

  /** The tally alone, with the go-go state of each note given. */
  function Tallies(h: CourseHeaders, notes: seq<Note>, flags: seq<bool>): (t: Tally)
    requires |flags| == |notes|
    ensures Shaped(t)
    decreases |notes|
  {
    if |notes| == 0 then Fresh
    else
      var n := |notes| - 1;
      NoteStep(Tallies(h, notes[..n], flags[..n]), notes[n], n == 0, flags[n], h)
  }

  /** The go-go state getStatistics holds at each note: that after the events its
      cursor has passed. */
  function Flags(events: seq<TimedEvent>, beats: seq<real>): (r: seq<bool>)
    ensures |r| == |beats|
    decreases |beats|
  {
    if |beats| == 0 then [] else Flags(events, beats[..|beats| - 1]) + [GogoAfter(events, Cursor(events, beats))]
  }

  lemma {:induction false} WalkTallies(events: seq<TimedEvent>, h: CourseHeaders, notes: seq<Note>)
    ensures Walk(events, h, notes).tally == Tallies(h, notes, Flags(events, Beats(notes)))
    decreases |notes|
  {
    if |notes| > 0 {
      var n := |notes| - 1;
      var flags := Flags(events, Beats(notes));
      var w := Walk(events, h, notes[..n]);
      WalkTallies(events, h, notes[..n]);
      WalkCursor(events, h, notes);
      FlagsPrefix(events, notes);
      assert Walk(events, h, notes) == Visit(events, h, w, notes[n], n == 0);
      assert Walk(events, h, notes).gogo == flags[n];
      assert Tallies(h, notes, flags) == NoteStep(Tallies(h, notes[..n], flags[..n]), notes[n], n == 0, flags[n], h);
    }
  }

  lemma FlagsPrefix(events: seq<TimedEvent>, notes: seq<Note>)
    requires |notes| > 0
    ensures Flags(events, Beats(notes))[..|notes| - 1] == Flags(events, Beats(notes[..|notes| - 1]))
    ensures Flags(events, Beats(notes))[|notes| - 1] == GogoAfter(events, Cursor(events, Beats(notes)))
  {
    assert Beats(notes)[..|notes| - 1] == Beats(notes[..|notes| - 1]);
  }

  lemma StepHitSum(t: Tally, note: Note, first: bool, gogo: bool, h: CourseHeaders)
    requires Shaped(t)
    ensures Sum(NoteStep(t, note, first, gogo, h).notes) == Sum(t.notes) + (if IsHit(note.kind) then 1 else 0)
  {
    StepHits(t, note, first, gogo, h);
    if IsHit(note.kind) {
      SumUpdate(t.notes, HitIndex(note.kind), 1);
    }
  }

  /** totalCombo is the number of hit notes. */
  lemma {:induction false} ComboCounted(h: CourseHeaders, notes: seq<Note>, flags: seq<bool>)
    requires |flags| == |notes|
    ensures Tallies(h, notes, flags).combo == HitCount(notes)
    decreases |notes|
  {
    if |notes| > 0 {
      var n := |notes| - 1;
      ComboCounted(h, notes[..n], flags[..n]);
      StepHits(Tallies(h, notes[..n], flags[..n]), notes[n], n == 0, flags[n], h);
    }
  }

  /** The entries of notes add up to the number of hit notes. */
  lemma {:induction false} HitsAddUp(h: CourseHeaders, notes: seq<Note>, flags: seq<bool>)
    requires |flags| == |notes|
    ensures Sum(Tallies(h, notes, flags).notes) == HitCount(notes)
    decreases |notes|
  {
    if |notes| > 0 {
      var n := |notes| - 1;
      HitsAddUp(h, notes[..n], flags[..n]);
      StepHitSum(Tallies(h, notes[..n], flags[..n]), notes[n], n == 0, flags[n], h);
    } else {
      SumZero(Fresh.notes);
    }
  }

  /** Entry v of notes counts the hits of type v (don, kat, donBig, katBig). */
  lemma {:induction false} KindsCounted(h: CourseHeaders, notes: seq<Note>, flags: seq<bool>, v: nat)
    requires |flags| == |notes| && v < 4
    ensures Tallies(h, notes, flags).notes[v] == KindCount(notes, v)
    decreases |notes|
  {
    if |notes| > 0 {
      var n := |notes| - 1;
      KindsCounted(h, notes[..n], flags[..n], v);
      StepKind(Tallies(h, notes[..n], flags[..n]), notes[n], n == 0, flags[n], h, v);
    }
  }

  lemma StepWeights(t: Tally, note: Note, first: bool, gogo: bool, h: CourseHeaders)
    requires Shaped(t)
    ensures var r := NoteStep(t, note, first, gogo, h);
            Sum(r.scNotes[0]) + Sum(r.scNotes[1])
              == Sum(t.scNotes[0]) + Sum(t.scNotes[1]) + (if IsHit(note.kind) then (if IsBig(note.kind) then 2 else 1) else 0)
  {
    if IsHit(note.kind) {
      var r := NoteStep(t, note, first, gogo, h);
      var g := Slot(gogo);
      var tier := Tier(t.combo + 1);
      var add := if IsBig(note.kind) then 2 else 1;
      SumUpdate(t.scNotes[g], tier, add);
      assert r.scNotes[g] == t.scNotes[g][tier := t.scNotes[g][tier] + add];
      assert r.scNotes[1 - g] == t.scNotes[1 - g];
    }
  }

  /** The hit-weight table adds up to the weighted number of hits: 2 for each big note,
      1 for each other hit. */
  lemma {:induction false} HitWeights(h: CourseHeaders, notes: seq<Note>, flags: seq<bool>)
    requires |flags| == |notes|
    ensures var t := Tallies(h, notes, flags);
            Sum(t.scNotes[0]) + Sum(t.scNotes[1]) == Weight(notes)
    decreases |notes|
  {
    if |notes| > 0 {
      var n := |notes| - 1;
      var t := Tallies(h, notes[..n], flags[..n]);
      HitWeights(h, notes[..n], flags[..n]);
      StepWeights(t, notes[n], n == 0, flags[n], h);
      assert Tallies(h, notes, flags) == NoteStep(t, notes[n], n == 0, flags[n], h);
    } else {
      SumZero(Fresh.scNotes[0]);
      SumZero(Fresh.scNotes[1]);
    }
  }

  lemma StepTrack(t: Tally, note: Note, first: bool, gogo: bool, h: CourseHeaders)
    requires Shaped(t)
    ensures var r := NoteStep(t, note, first, gogo, h);
            && r.start == (if IsHit(note.kind) && first then note.time else t.start)
            && r.end == (if IsHit(note.kind) then note.time else t.end)
  {
  }

  /** The track length runs from the first note, if that is a hit (0 otherwise), to the
      last hit. */
  lemma {:induction false} TrackLength(h: CourseHeaders, notes: seq<Note>, flags: seq<bool>)
    requires |flags| == |notes|
    ensures var t := Tallies(h, notes, flags);
            t.start == TrackStart(notes) && t.end == LastHitTime(notes)
    decreases |notes|
  {
    if |notes| > 0 {
      var n := |notes| - 1;
      TrackLength(h, notes[..n], flags[..n]);
      StepTrack(Tallies(h, notes[..n], flags[..n]), notes[n], n == 0, flags[n], h);
      if n > 0 {
        assert notes[..n][0] == notes[0];
      }
    }
  }

  /** From t to r, at most one hold is recorded (only by an end note), at most one
      balloon record is added, and the balloon score moves only with a new record
      that pops. */
  predicate HoldStep(t: Tally, r: Tally, end: bool)
    requires Shaped(t) && Shaped(r)
  {
    && |r.rendas| + |r.balloons| <= |t.rendas| + |t.balloons| + (if end then 1 else 0)
    && (r.balloons == t.balloons || (|r.balloons| == |t.balloons| + 1 && r.balloons == t.balloons + [r.balloons[|t.balloons|]]))
    && (r.balloons == t.balloons ==> r.scBalloon == t.scBalloon && r.scBalloonPop == t.scBalloonPop)
    && (r.balloons != t.balloons ==>
          && r.scBalloonPop[0] + r.scBalloonPop[1] == t.scBalloonPop[0] + t.scBalloonPop[1]
               + (if Pops(r.balloons[|t.balloons|].count, r.balloons[|t.balloons|].length) then 1 else 0)
          && r.scBalloon[0] + r.scBalloon[1] == t.scBalloon[0] + t.scBalloon[1]
               + (if Pops(r.balloons[|t.balloons|].count, r.balloons[|t.balloons|].length)
                  then r.balloons[|t.balloons|].count.value - 1 else 0))
  }

  lemma StepHolds(t: Tally, note: Note, first: bool, gogo: bool, h: CourseHeaders)
    requires Shaped(t)
    ensures HoldStep(t, NoteStep(t, note, first, gogo, h), note.kind.End?)
  {
    if note.kind.End? {
      CloseHolds(t, note);
    } else {
      var r := NoteStep(t, note, first, gogo, h);
      assert r.rendas == t.rendas && r.balloons == t.balloons;
      assert r.scBalloon == t.scBalloon && r.scBalloonPop == t.scBalloonPop;
    }
  }

  lemma CloseHolds(t: Tally, note: Note)
    requires Shaped(t)
    ensures HoldStep(t, Close(t, note), true)
  {
    if !Truthy(t.rendaStart) && Truthy(t.balloonStart) {
      var r := Close(t, note);
      assert r.balloons[|t.balloons|] == BalloonRecord(note.time - t.balloonStart.value, t.balloonCount);
    }
  }

  /** Every renda and balloon record is closed by an end note of its own. */
  lemma {:induction false} HoldsClosed(h: CourseHeaders, notes: seq<Note>, flags: seq<bool>)
    requires |flags| == |notes|
    ensures var t := Tallies(h, notes, flags);
            |t.rendas| + |t.balloons| <= EndCount(notes)
    decreases |notes|
  {
    if |notes| > 0 {
      var n := |notes| - 1;
      HoldsClosed(h, notes[..n], flags[..n]);
      StepHolds(Tallies(h, notes[..n], flags[..n]), notes[n], n == 0, flags[n], h);
    }
  }

  /** The pops counted are the balloon records that pop, and the bonus hits are their
      counts less one. */
  lemma {:induction false} PopsCounted(h: CourseHeaders, notes: seq<Note>, flags: seq<bool>)
    requires |flags| == |notes|
    ensures Tallies(h, notes, flags).scBalloonPop[0] + Tallies(h, notes, flags).scBalloonPop[1]
            == PopCount(Tallies(h, notes, flags).balloons)
    ensures Tallies(h, notes, flags).scBalloon[0] + Tallies(h, notes, flags).scBalloon[1]
            == Bonus(Tallies(h, notes, flags).balloons)
    decreases |notes|
  {
    if |notes| > 0 {
      var n := |notes| - 1;
      var p := Tallies(h, notes[..n], flags[..n]);
      var t := Tallies(h, notes, flags);
      PopsCounted(h, notes[..n], flags[..n]);
      StepHolds(p, notes[n], n == 0, flags[n], h);
      assert t == NoteStep(p, notes[n], n == 0, flags[n], h);
      PopsStep(p, t, notes[n].kind.End?);
    }
  }

  /** A step that keeps HoldStep keeps the pops and the bonus in line with the records. */
  lemma PopsStep(p: Tally, t: Tally, end: bool)
    requires Shaped(p) && Shaped(t) && HoldStep(p, t, end)
    requires p.scBalloonPop[0] + p.scBalloonPop[1] == PopCount(p.balloons)
    requires p.scBalloon[0] + p.scBalloon[1] == Bonus(p.balloons)
    ensures t.scBalloonPop[0] + t.scBalloonPop[1] == PopCount(t.balloons)
    ensures t.scBalloon[0] + t.scBalloon[1] == Bonus(t.balloons)
  {
    if t.balloons != p.balloons {
      assert t.balloons[..|t.balloons| - 1] == p.balloons;
    }
  }

  /** What getStatistics reports, against the notes alone: the combo and per-type
      counts, the weighted hit table, the track length, the holds closed and the
      balloon pops. */
  lemma StatisticsCounted(c: TimedCourse)
    ensures var st := StatisticsOf(c);
            && st.totalCombo == HitCount(c.notes)
            && Sum(st.notes) == st.totalCombo
            && (forall v :: 0 <= v < 4 ==> st.notes[v] == KindCount(c.notes, v))
            && Sum(st.score.notes[0]) + Sum(st.score.notes[1]) == Weight(c.notes)
            && st.length == LastHitTime(c.notes) - TrackStart(c.notes)
            && |st.rendas| + |st.balloons| <= EndCount(c.notes)
            && st.score.balloonPop[0] + st.score.balloonPop[1] == PopCount(st.balloons)
            && st.score.balloon[0] + st.score.balloon[1] == Bonus(st.balloons)
  {
    var flags := Flags(c.events, Beats(c.notes));
    WalkTallies(c.events, c.headers, c.notes);
    ComboCounted(c.headers, c.notes, flags);
    HitsAddUp(c.headers, c.notes, flags);
    forall v | 0 <= v < 4
      ensures Tallies(c.headers, c.notes, flags).notes[v] == KindCount(c.notes, v)
    {
      KindsCounted(c.headers, c.notes, flags, v);
    }
    HitWeights(c.headers, c.notes, flags);
    TrackLength(c.headers, c.notes, flags);
    HoldsClosed(c.headers, c.notes, flags);
    PopsCounted(c.headers, c.notes, flags);
  }

  // ---------------------------------------------------------------------------
  // Go-go time at each note

  lemma {:induction false} GogoAfterPrefix(events: seq<TimedEvent>, k: nat, m: nat)
    requires k <= m <= |events|
    ensures GogoAfter(events[..m], k) == GogoAfter(events, k)
    decreases k
  {
    if k > 0 {
      GogoAfterPrefix(events, k - 1, m);
      assert events[..m][k - 1] == events[k - 1];
    }
  }

  /** When the first n events are those at or before beat b, the go-go state after them
      is the one GogoOn reads off at b. */
  lemma {:induction false} GogoSplit(events: seq<TimedEvent>, n: nat, b: real)
    requires n <= |events|
    requires forall i :: 0 <= i < n ==> events[i].beat <= b
    requires forall i :: n <= i < |events| ==> events[i].beat > b
    ensures GogoAfter(events, n) == GogoOn(events, b)
    decreases |events|
  {
    if |events| > 0 {
      var m := |events| - 1;
      var prefix := events[..m];
      if n == |events| {
        GogoSplit(prefix, m, b);
        GogoAfterPrefix(events, m, m);
      } else {
        GogoSplit(prefix, n, b);
        GogoAfterPrefix(events, n, m);
      }
    }
  }

  /** With the events in beat order, the go-go state after the events reached at beat b
      is that of the last go-go event at or before b. */
  lemma GogoReached(events: seq<TimedEvent>, b: real)
    requires SortedEvents(events)
    ensures GogoAfter(events, Reached(events, b)) == GogoOn(events, b)
  {
    var n := Reached(events, b);
    forall i | n <= i < |events| ensures events[i].beat > b {
      assert events[n].beat <= events[i].beat;
    }
    GogoSplit(events, n, b);
  }

  /** The go-go cursor of getStatistics stands where the cursor of pulseToTime would
      after the same notes. */
  lemma {:induction false} WalkCursor(events: seq<TimedEvent>, h: CourseHeaders, notes: seq<Note>)
    ensures Walk(events, h, notes).cursor == Cursor(events, Beats(notes))
    decreases |notes|
  {
    if |notes| > 0 {
      var n := |notes| - 1;
      WalkCursor(events, h, notes[..n]);
      assert Beats(notes)[..n] == Beats(notes[..n]);
    }
  }

  lemma {:induction false} FlagAt(events: seq<TimedEvent>, beats: seq<real>, i: nat)
    requires i < |beats|
    ensures Flags(events, beats)[i] == GogoAfter(events, Cursor(events, beats[..i + 1]))
    decreases |beats|
  {
    var n := |beats| - 1;
    assert Flags(events, beats) == Flags(events, beats[..n]) + [GogoAfter(events, Cursor(events, beats))];
    if i == n {
      assert beats[..i + 1] == beats;
    } else {
      FlagAt(events, beats[..n], i);
      assert beats[..n][..i + 1] == beats[..i + 1];
    }
  }

  /** With the events and the beats in order, the go-go state at each beat is that of
      the last go-go event at or before it. */
  lemma GogoAtBeats(events: seq<TimedEvent>, beats: seq<real>)
    requires SortedEvents(events) && Sorted(beats)
    ensures forall i :: 0 <= i < |beats| ==> Flags(events, beats)[i] == GogoOn(events, beats[i])
  {
    forall i | 0 <= i < |beats| ensures Flags(events, beats)[i] == GogoOn(events, beats[i]) {
      FlagAt(events, beats, i);
      var prefix := beats[..i + 1];
      assert Sorted(prefix);
      CursorOfSorted(events, prefix);
      GogoReached(events, beats[i]);
    }
  }

  /** The go-go state at every note, read off the events by beat. */
  function GogoByBeat(events: seq<TimedEvent>, notes: seq<Note>): (r: seq<bool>)
    ensures |r| == |notes|
  {
    seq(|notes|, i requires 0 <= i < |notes| => GogoOn(events, notes[i].beat))
  }

  /** With the events and the notes in beat order, getStatistics tallies each note in
      the go-go state of its beat. */
  lemma StatisticsByBeat(c: TimedCourse)
    requires SortedEvents(c.events) && Sorted(Beats(c.notes))
    ensures StatisticsOf(c) == Summary(Tallies(c.headers, c.notes, GogoByBeat(c.events, c.notes)))
  {
    WalkTallies(c.events, c.headers, c.notes);
    GogoAtBeats(c.events, Beats(c.notes));
    assert Flags(c.events, Beats(c.notes)) == GogoByBeat(c.events, c.notes);
  }

  // ---------------------------------------------------------------------------
  // Scores

  /** With scoreInit 300 and scoreDiff 100: each tier adds its multiple of scoreDiff,
      go-go time adds a fifth (floored to ten), a big note doubles. */
  lemma ScoreExamples()
    ensures NoteScore(Some(300), Some(100), 1, false, false) == Some(300)
    ensures NoteScore(Some(300), Some(100), 10, false, false) == Some(400)
    ensures NoteScore(Some(300), Some(100), 30, false, false) == Some(500)
    ensures NoteScore(Some(300), Some(100), 50, false, false) == Some(700)
    ensures NoteScore(Some(300), Some(100), 100, false, false) == Some(1100)
    ensures NoteScore(Some(300), Some(100), 9, true, false) == Some(360)
    ensures NoteScore(Some(300), Some(100), 9, true, true) == Some(720)
    ensures NoteScore(None, Some(100), 9, false, false) == None
  {
  }

  lemma Floor10Monotone(x: int, y: int)
    requires x <= y
    ensures Floor10(x) <= Floor10(y)
  {
    assert x / 10 <= y / 10;
  }

  lemma GogoScoreMonotone(x: int, y: int)
    requires x <= y
    ensures GogoScore(x) <= GogoScore(y)
  {
    assert x * 12 <= y * 12;
    assert x * 12 / 100 <= y * 12 / 100;
  }

  /** With a non-negative scoreDiff, a longer combo never scores a hit less. */
  lemma ScoreGrowsWithCombo(init: int, diff: int, c1: nat, c2: nat, gogo: bool, big: bool)
    requires 0 <= diff && c1 <= c2
    ensures NoteScore(Some(init), Some(diff), c1, gogo, big).value <= NoteScore(Some(init), Some(diff), c2, gogo, big).value
  {
    var m1, m2 := Multiplier(c1), Multiplier(c2);
    assert diff * m2 == diff * m1 + diff * (m2 - m1);
    var x1, x2 := init + diff * m1, init + diff * m2;
    Floor10Monotone(x1, x2);
    GogoScoreMonotone(Floor10(x1), Floor10(x2));
  }

  // ---------------------------------------------------------------------------
  // Holds

  /** A renda followed by an end note adds its span, unless it starts at time 0: a hold
      start is tested for truthiness, so such a renda is never closed. */
  lemma RendaSpan(t: Tally, start: Note, end: Note, f1: bool, f2: bool, g1: bool, g2: bool, h: CourseHeaders)
    requires Shaped(t) && start.kind.Renda? && end.kind.End?
    ensures var r := NoteStep(NoteStep(t, start, f1, g1, h), end, f2, g2, h);
            && (start.time != 0.0 ==> r.rendas == t.rendas + [end.time - start.time] && r.balloons == t.balloons)
            && (start.time == 0.0 && !Truthy(t.balloonStart) ==> r.rendas == t.rendas && r.rendaStart == Some(0.0))
  {
  }

  /** An end note closes an open renda before an open balloon, which stays open. */
  lemma RendaClosesFirst(t: Tally, end: Note, first: bool, gogo: bool, h: CourseHeaders)
    requires Shaped(t) && end.kind.End? && Truthy(t.rendaStart) && Truthy(t.balloonStart)
    ensures var r := NoteStep(t, end, first, gogo, h);
            && |r.rendas| == |t.rendas| + 1 && r.balloons == t.balloons
            && r.balloonStart == t.balloonStart && r.scBalloon == t.scBalloon
  {
  }

  /** A balloon closed by an end note is recorded with its span and count, and a
      pop counts in the go-go slot of the balloon's start, whatever go-go holds at its
      end. */
  lemma BalloonSpan(t: Tally, start: Note, end: Note, f1: bool, f2: bool, g1: bool, g2: bool, h: CourseHeaders)
    requires Shaped(t) && start.kind.Balloon? && end.kind.End? && !Truthy(t.rendaStart) && start.time != 0.0
    ensures var r := NoteStep(NoteStep(t, start, f1, g1, h), end, f2, g2, h);
            var span := end.time - start.time;
            && r.balloons == t.balloons + [BalloonRecord(span, start.kind.count)]
            && r.rendas == t.rendas
            && (Pops(start.kind.count, span) ==>
                  && r.scBalloonPop[Slot(g1)] == t.scBalloonPop[Slot(g1)] + 1
                  && r.scBalloon[Slot(g1)] == t.scBalloon[Slot(g1)] + start.kind.count.value - 1
                  && r.scBalloonPop[1 - Slot(g1)] == t.scBalloonPop[1 - Slot(g1)])
            && (!Pops(start.kind.count, span) ==> r.scBalloon == t.scBalloon && r.scBalloonPop == t.scBalloonPop)
  {
  }
  // ---------------------------------------------------------------------------
  // The score table and the potential score against the notes

  /** The potential score against the notes alone: NoteScore summed over the hit
      notes, each at the number of hits up to and including it and with its go-go
      flag; None as soon as a hit meets a NaN score header. */
  function Potential(h: CourseHeaders, notes: seq<Note>, flags: seq<bool>): Option<int>
    requires |flags| == |notes|
    decreases |notes|
  {
    if |notes| == 0 then Some(0)
    else
      var n := |notes| - 1;
      var p := Potential(h, notes[..n], flags[..n]);
      if IsHit(notes[n].kind) then AddScore(p, NoteScore(h.scoreInit, h.scoreDiff, HitCount(notes), flags[n], IsBig(notes[n].kind)))
      else p
  }

  /** Cell [g][k] of the hit-weight table against the notes alone: the hits whose
      go-go slot is g and whose position among the hits falls in tier k, weighted 2
      for big notes and 1 for the others. */
  function Cell(notes: seq<Note>, flags: seq<bool>, g: nat, k: nat): nat
    requires |flags| == |notes|
    decreases |notes|
  {
    if |notes| == 0 then 0
    else Cell(notes[..|notes| - 1], flags[..|notes| - 1], g, k) + Share(notes, flags, g, k)
  }

  /** What the last note adds to cell [g][k]: its weight when it is a hit of go-go
      slot g whose place in the combo is in tier k. */
  function Share(notes: seq<Note>, flags: seq<bool>, g: nat, k: nat): nat
    requires 0 < |flags| == |notes|
  {
    var kind := notes[|notes| - 1].kind;
    if IsHit(kind) && Slot(flags[|notes| - 1]) == g && Tier(HitCount(notes)) == k then (if IsBig(kind) then 2 else 1) else 0
  }

  lemma StepPotential(t: Tally, note: Note, first: bool, gogo: bool, h: CourseHeaders)
    requires Shaped(t)
    ensures NoteStep(t, note, first, gogo, h).potential
            == if IsHit(note.kind) then AddScore(t.potential, NoteScore(h.scoreInit, h.scoreDiff, t.combo + 1, gogo, IsBig(note.kind)))
               else t.potential
  {
  }

  lemma StepCell(t: Tally, note: Note, first: bool, gogo: bool, h: CourseHeaders, g: nat, k: nat)
    requires Shaped(t) && g < 2 && k < 5
    ensures NoteStep(t, note, first, gogo, h).scNotes[g][k]
            == t.scNotes[g][k]
               + (if IsHit(note.kind) && Slot(gogo) == g && Tier(t.combo + 1) == k then (if IsBig(note.kind) then 2 else 1) else 0)
  {
  }

  /** scPotential is the sum of the scores of the hits, each at its place in the
      combo and in its go-go state. */
  lemma {:induction false} PotentialCounted(h: CourseHeaders, notes: seq<Note>, flags: seq<bool>)
    requires |flags| == |notes|
    ensures Tallies(h, notes, flags).potential == Potential(h, notes, flags)
    decreases |notes|
  {
    if |notes| > 0 {
      var n := |notes| - 1;
      var t := Tallies(h, notes[..n], flags[..n]);
      PotentialCounted(h, notes[..n], flags[..n]);
      ComboCounted(h, notes[..n], flags[..n]);
      assert HitCount(notes) == t.combo + (if IsHit(notes[n].kind) then 1 else 0);
      var p := Potential(h, notes[..n], flags[..n]);
      assert Potential(h, notes, flags)
          == if IsHit(notes[n].kind) then AddScore(p, NoteScore(h.scoreInit, h.scoreDiff, t.combo + 1, flags[n], IsBig(notes[n].kind))) else p;
      StepPotential(t, notes[n], n == 0, flags[n], h);
      assert Tallies(h, notes, flags) == NoteStep(t, notes[n], n == 0, flags[n], h);
    }
  }

  /** The potential score is NaN exactly when some hit meets a NaN scoreInit or
      scoreDiff; without hits it stays 0. */
  lemma {:induction false} PotentialNaN(h: CourseHeaders, notes: seq<Note>, flags: seq<bool>)
    requires |flags| == |notes|
    ensures Potential(h, notes, flags).None? <==> HitCount(notes) > 0 && (h.scoreInit.None? || h.scoreDiff.None?)
    ensures HitCount(notes) == 0 ==> Potential(h, notes, flags) == Some(0)
    decreases |notes|
  {
    if |notes| > 0 {
      PotentialNaN(h, notes[..|notes| - 1], flags[..|notes| - 1]);
    }
  }

  /** Each hit adds its weight to the cell of its go-go slot and of the tier of its
      place in the combo. */
  lemma {:induction false} CellsCounted(h: CourseHeaders, notes: seq<Note>, flags: seq<bool>, g: nat, k: nat)
    requires |flags| == |notes| && g < 2 && k < 5
    ensures Tallies(h, notes, flags).scNotes[g][k] == Cell(notes, flags, g, k)
    decreases |notes|
  {
    if |notes| > 0 {
      var n := |notes| - 1;
      CellsCounted(h, notes[..n], flags[..n], g, k);
      LastCell(h, notes, flags, g, k);
    }
  }

  /** The last note's share of a cell, in the walk. */
  lemma LastCell(h: CourseHeaders, notes: seq<Note>, flags: seq<bool>, g: nat, k: nat)
    requires 0 < |flags| == |notes| && g < 2 && k < 5
    ensures Tallies(h, notes, flags).scNotes[g][k]
              == Tallies(h, notes[..|notes| - 1], flags[..|notes| - 1]).scNotes[g][k] + Share(notes, flags, g, k)
  {
    var n := |notes| - 1;
    var t := Tallies(h, notes[..n], flags[..n]);
    ComboCounted(h, notes[..n], flags[..n]);
    assert HitCount(notes) == t.combo + (if IsHit(notes[n].kind) then 1 else 0);
    StepCell(t, notes[n], n == 0, flags[n], h, g, k);
    assert Tallies(h, notes, flags) == NoteStep(t, notes[n], n == 0, flags[n], h);
  }

  // ---------------------------------------------------------------------------
  // Which end note closes which hold

  predicate IsRenda(k: NoteKind) {
    k.Renda? || k.RendaBig?
  }

  /** The count a note carries: a balloon's, undefined for the others. */
  function CountOf(k: NoteKind): Option<nat> {
    if k.Balloon? then k.count else None
  }

  /** The holds by note index: the note that opened the renda and the balloon still
      held (the latest of its kind), and the closed holds as (opening, closing) pairs. */
  datatype Pairs = Pairs(renda: Option<nat>, balloon: Option<nat>, rendas: seq<(nat, nat)>, balloons: seq<(nat, nat)>)

  predicate PairsBelow(qs: seq<(nat, nat)>, n: nat) {
    forall k :: 0 <= k < |qs| ==> qs[k].0 < qs[k].1 < n
  }

  predicate PairingBelow(p: Pairs, n: nat) {
    && (p.renda.Some? ==> p.renda.value < n)
    && (p.balloon.Some? ==> p.balloon.value < n)
    && PairsBelow(p.rendas, n) && PairsBelow(p.balloons, n)
  }

  /** Note j read by index: a renda or balloon note becomes the open one of its kind;
      an end note closes the open renda if it did not start at time 0, else the open
      balloon if it did not start at time 0. */
  function PairNext(notes: seq<Note>, p: Pairs, j: nat): Pairs
    requires j < |notes| && PairingBelow(p, j)
  {
    var kind := notes[j].kind;
    if IsRenda(kind) then p.(renda := Some(j))
    else if kind.Balloon? then p.(balloon := Some(j))
    else if kind.End? && p.renda.Some? && notes[p.renda.value].time != 0.0 then
      p.(renda := None, rendas := p.rendas + [(p.renda.value, j)])
    else if kind.End? && p.balloon.Some? && notes[p.balloon.value].time != 0.0 then
      p.(balloon := None, balloons := p.balloons + [(p.balloon.value, j)])
    else p
  }

  /** The holds after the first n notes. */
  function Pairing(notes: seq<Note>, n: nat): (p: Pairs)
    requires n <= |notes|
    ensures PairingBelow(p, n)
  {
    if n == 0 then Pairs(None, None, [], [])
    else
      var q := Pairing(notes, n - 1);
      PairingNextBelow(notes, q, n - 1);
      PairNext(notes, q, n - 1)
  }

  lemma PairingNextBelow(notes: seq<Note>, p: Pairs, j: nat)
    requires j < |notes| && PairingBelow(p, j)
    ensures PairingBelow(PairNext(notes, p, j), j + 1)
  {
  }

  /** The duration of each closed renda. */
  function Spans(notes: seq<Note>, qs: seq<(nat, nat)>): seq<real>
    requires PairsBelow(qs, |notes|)
    decreases |qs|
  {
    if |qs| == 0 then []
    else
      var q := qs[|qs| - 1];
      Spans(notes, qs[..|qs| - 1]) + [notes[q.1].time - notes[q.0].time]
  }

  /** The record of each closed balloon: its duration and its count. */
  function Records(notes: seq<Note>, qs: seq<(nat, nat)>): seq<BalloonRecord>
    requires PairsBelow(qs, |notes|)
    decreases |qs|
  {
    if |qs| == 0 then []
    else
      var q := qs[|qs| - 1];
      Records(notes, qs[..|qs| - 1]) + [BalloonRecord(notes[q.1].time - notes[q.0].time, CountOf(notes[q.0].kind))]
  }

  /** Whether the balloon closed as pair q pops in go-go slot g: slot g is that of the
      balloon note's flag, whatever go-go holds at the end note. */
  predicate PopsIn(notes: seq<Note>, flags: seq<bool>, q: (nat, nat), g: nat)
    requires q.0 < q.1 < |notes| == |flags|
  {
    Slot(flags[q.0]) == g && Pops(CountOf(notes[q.0].kind), notes[q.1].time - notes[q.0].time)
  }

  /** The pops of go-go slot g. */
  function SlotPops(notes: seq<Note>, flags: seq<bool>, qs: seq<(nat, nat)>, g: nat): nat
    requires |flags| == |notes| && PairsBelow(qs, |notes|)
    decreases |qs|
  {
    if |qs| == 0 then 0
    else SlotPops(notes, flags, qs[..|qs| - 1], g) + (if PopsIn(notes, flags, qs[|qs| - 1], g) then 1 else 0)
  }

  /** The bonus hits of go-go slot g: count - 1 for each balloon that pops in it. */
  function SlotBonus(notes: seq<Note>, flags: seq<bool>, qs: seq<(nat, nat)>, g: nat): int
    requires |flags| == |notes| && PairsBelow(qs, |notes|)
    decreases |qs|
  {
    if |qs| == 0 then 0
    else
      var q := qs[|qs| - 1];
      SlotBonus(notes, flags, qs[..|qs| - 1], g) + (if PopsIn(notes, flags, q, g) then CountOf(notes[q.0].kind).value - 1 else 0)
  }

  /** The hold fields of a tally agree with the pairing by index. */
  predicate Matches(notes: seq<Note>, flags: seq<bool>, t: Tally, p: Pairs)
    requires Shaped(t) && |flags| == |notes| && PairingBelow(p, |notes|)
  {
    && t.rendaStart == (if p.renda.Some? then Some(notes[p.renda.value].time) else None)
    && (if p.balloon.Some?
        then t.balloonStart == Some(notes[p.balloon.value].time) && t.balloonCount == CountOf(notes[p.balloon.value].kind)
             && t.balloonGogo == flags[p.balloon.value]
        else t.balloonStart == None)
    && t.rendas == Spans(notes, p.rendas)
    && t.balloons == Records(notes, p.balloons)
    && t.scBalloonPop[0] == SlotPops(notes, flags, p.balloons, 0)
    && t.scBalloonPop[1] == SlotPops(notes, flags, p.balloons, 1)
    && t.scBalloon[0] == SlotBonus(notes, flags, p.balloons, 0)
    && t.scBalloon[1] == SlotBonus(notes, flags, p.balloons, 1)
  }

  lemma SpansAppend(notes: seq<Note>, qs: seq<(nat, nat)>, q: (nat, nat))
    requires PairsBelow(qs, |notes|) && q.0 < q.1 < |notes|
    ensures PairsBelow(qs + [q], |notes|)
    ensures Spans(notes, qs + [q]) == Spans(notes, qs) + [notes[q.1].time - notes[q.0].time]
  {
    assert (qs + [q])[..|qs|] == qs;
  }

  lemma RecordsAppend(notes: seq<Note>, flags: seq<bool>, qs: seq<(nat, nat)>, q: (nat, nat), g: nat)
    requires |flags| == |notes| && PairsBelow(qs, |notes|) && q.0 < q.1 < |notes|
    ensures PairsBelow(qs + [q], |notes|)
    ensures Records(notes, qs + [q]) == Records(notes, qs) + [BalloonRecord(notes[q.1].time - notes[q.0].time, CountOf(notes[q.0].kind))]
    ensures SlotPops(notes, flags, qs + [q], g) == SlotPops(notes, flags, qs, g) + (if PopsIn(notes, flags, q, g) then 1 else 0)
    ensures SlotBonus(notes, flags, qs + [q], g)
            == SlotBonus(notes, flags, qs, g) + (if PopsIn(notes, flags, q, g) then CountOf(notes[q.0].kind).value - 1 else 0)
  {
    assert (qs + [q])[..|qs|] == qs;
  }

  /** One note keeps the tally and the pairing in agreement. */
  lemma MatchStep(h: CourseHeaders, notes: seq<Note>, flags: seq<bool>, j: nat, t: Tally, p: Pairs)
    requires j < |notes| == |flags| && Shaped(t) && PairingBelow(p, j)
    requires Matches(notes, flags, t, p)
    ensures PairingBelow(PairNext(notes, p, j), |notes|)
    ensures Matches(notes, flags, NoteStep(t, notes[j], j == 0, flags[j], h), PairNext(notes, p, j))
  {
    PairingNextBelow(notes, p, j);
    var note := notes[j];
    if !note.kind.End? {
      MatchOpen(h, notes, flags, j, t, p);
    } else if p.renda.Some? && notes[p.renda.value].time != 0.0 {
      MatchCloseRenda(notes, flags, j, t, p);
    } else if p.balloon.Some? && notes[p.balloon.value].time != 0.0 {
      MatchCloseBalloon(notes, flags, j, t, p);
    } else {
      assert NoteStep(t, note, j == 0, flags[j], h) == t;
    }
  }

  lemma MatchOpen(h: CourseHeaders, notes: seq<Note>, flags: seq<bool>, j: nat, t: Tally, p: Pairs)
    requires j < |notes| == |flags| && Shaped(t) && PairingBelow(p, j) && !notes[j].kind.End?
    requires Matches(notes, flags, t, p)
    ensures PairingBelow(PairNext(notes, p, j), |notes|)
    ensures Matches(notes, flags, NoteStep(t, notes[j], j == 0, flags[j], h), PairNext(notes, p, j))
  {
    var r := NoteStep(t, notes[j], j == 0, flags[j], h);
    var p' := PairNext(notes, p, j);
    HoldsUntouched(t, notes[j], j == 0, flags[j], h);
    assert p'.rendas == p.rendas && p'.balloons == p.balloons;
  }

  /** A note other than an end note leaves the closed holds and the balloon score alone. */
  lemma HoldsUntouched(t: Tally, note: Note, first: bool, gogo: bool, h: CourseHeaders)
    requires Shaped(t) && !note.kind.End?
    ensures NoteStep(t, note, first, gogo, h).rendas == t.rendas
    ensures NoteStep(t, note, first, gogo, h).balloons == t.balloons
    ensures NoteStep(t, note, first, gogo, h).scBalloon == t.scBalloon
    ensures NoteStep(t, note, first, gogo, h).scBalloonPop == t.scBalloonPop
    ensures IsRenda(note.kind) ==> NoteStep(t, note, first, gogo, h).rendaStart == Some(note.time)
    ensures !IsRenda(note.kind) ==> NoteStep(t, note, first, gogo, h).rendaStart == t.rendaStart
    ensures note.kind.Balloon? ==> NoteStep(t, note, first, gogo, h).balloonStart == Some(note.time)
                                   && NoteStep(t, note, first, gogo, h).balloonCount == note.kind.count
                                   && NoteStep(t, note, first, gogo, h).balloonGogo == gogo
    ensures !note.kind.Balloon? ==> NoteStep(t, note, first, gogo, h).balloonStart == t.balloonStart
                                    && NoteStep(t, note, first, gogo, h).balloonCount == t.balloonCount
                                    && NoteStep(t, note, first, gogo, h).balloonGogo == t.balloonGogo
  {
  }

  lemma MatchCloseRenda(notes: seq<Note>, flags: seq<bool>, j: nat, t: Tally, p: Pairs)
    requires j < |notes| == |flags| && Shaped(t) && PairingBelow(p, j) && notes[j].kind.End?
    requires p.renda.Some? && notes[p.renda.value].time != 0.0
    requires Matches(notes, flags, t, p)
    ensures PairingBelow(PairNext(notes, p, j), |notes|)
    ensures Matches(notes, flags, Close(t, notes[j]), PairNext(notes, p, j))
  {
    SpansAppend(notes, p.rendas, (p.renda.value, j));
  }

  /** An end note with no renda to close closes the open balloon. */
  lemma CloseBalloon(t: Tally, note: Note, g: nat)
    requires Shaped(t) && !Truthy(t.rendaStart) && Truthy(t.balloonStart) && g < 2
    ensures Close(t, note).rendas == t.rendas && Close(t, note).rendaStart == t.rendaStart
    ensures Close(t, note).balloonStart == None
    ensures Close(t, note).balloons == t.balloons + [BalloonRecord(note.time - t.balloonStart.value, t.balloonCount)]
    ensures Close(t, note).scBalloonPop[g]
            == t.scBalloonPop[g] + (if Slot(t.balloonGogo) == g && Pops(t.balloonCount, note.time - t.balloonStart.value) then 1 else 0)
    ensures Close(t, note).scBalloon[g]
            == t.scBalloon[g] + (if Slot(t.balloonGogo) == g && Pops(t.balloonCount, note.time - t.balloonStart.value)
                                 then t.balloonCount.value - 1 else 0)
  {
  }

  lemma MatchCloseBalloon(notes: seq<Note>, flags: seq<bool>, j: nat, t: Tally, p: Pairs)
    requires j < |notes| == |flags| && Shaped(t) && PairingBelow(p, j) && notes[j].kind.End?
    requires !(p.renda.Some? && notes[p.renda.value].time != 0.0)
    requires p.balloon.Some? && notes[p.balloon.value].time != 0.0
    requires Matches(notes, flags, t, p)
    ensures PairingBelow(PairNext(notes, p, j), |notes|)
    ensures Matches(notes, flags, Close(t, notes[j]), PairNext(notes, p, j))
  {
    var i := p.balloon.value;
    var q := (i, j);
    RecordsAppend(notes, flags, p.balloons, q, 0);
    RecordsAppend(notes, flags, p.balloons, q, 1);
    CloseBalloon(t, notes[j], 0);
    CloseBalloon(t, notes[j], 1);
    var r := Close(t, notes[j]);
    var p' := PairNext(notes, p, j);
    assert p' == p.(balloon := None, balloons := p.balloons + [q]);
    assert Slot(t.balloonGogo) == Slot(flags[i]) && t.balloonCount == CountOf(notes[i].kind);
    assert Pops(t.balloonCount, notes[j].time - notes[i].time) <==> PopsIn(notes, flags, q, Slot(flags[i]));
    assert r.balloons == Records(notes, p'.balloons);
    assert r.scBalloonPop[0] == SlotPops(notes, flags, p'.balloons, 0);
    assert r.scBalloonPop[1] == SlotPops(notes, flags, p'.balloons, 1);
    assert r.scBalloon[0] == SlotBonus(notes, flags, p'.balloons, 0);
    assert r.scBalloon[1] == SlotBonus(notes, flags, p'.balloons, 1);
  }

  lemma {:induction false} HoldsPaired(h: CourseHeaders, notes: seq<Note>, flags: seq<bool>, n: nat)
    requires n <= |notes| == |flags|
    ensures PairingBelow(Pairing(notes, n), |notes|)
    ensures Matches(notes, flags, Tallies(h, notes[..n], flags[..n]), Pairing(notes, n))
    decreases n
  {
    if n > 0 {
      var j := n - 1;
      var t := Tallies(h, notes[..j], flags[..j]);
      HoldsPaired(h, notes, flags, j);
      MatchStep(h, notes, flags, j, t, Pairing(notes, j));
      assert Pairing(notes, n) == PairNext(notes, Pairing(notes, j), j);
      assert notes[..n][..j] == notes[..j] && flags[..n][..j] == flags[..j];
      assert Tallies(h, notes[..n], flags[..n]) == NoteStep(t, notes[j], j == 0, flags[j], h);
    }
  }

  /** What a pair means: the opening note is a renda (or balloon) not at time 0, the
      closing note a later end note, and no note of the opening kind lies between. */
  predicate Paired(notes: seq<Note>, q: (nat, nat), renda: bool) {
    && q.0 < q.1 < |notes|
    && (if renda then IsRenda(notes[q.0].kind) else notes[q.0].kind.Balloon?)
    && notes[q.0].time != 0.0 && notes[q.1].kind.End?
    && forall m :: q.0 < m < q.1 ==> !(if renda then IsRenda(notes[m].kind) else notes[m].kind.Balloon?)
  }

  /** No two holds are closed by the same end note. */
  predicate ClosedOnce(p: Pairs) {
    && (forall a, b :: 0 <= a < b < |p.rendas| ==> p.rendas[a].1 < p.rendas[b].1)
    && (forall a, b :: 0 <= a < b < |p.balloons| ==> p.balloons[a].1 < p.balloons[b].1)
    && (forall a, b :: 0 <= a < |p.rendas| && 0 <= b < |p.balloons| ==> p.rendas[a].1 != p.balloons[b].1)
  }

  /** What the pairing keeps up to note n: every pair is a renda (or balloon) note
      paired with a later end note, each end note closes at most one hold, and the open
      renda and balloon are the latest notes of their kind. */
  predicate PairingSound(notes: seq<Note>, p: Pairs, n: nat)
    requires n <= |notes| && PairingBelow(p, n)
  {
    && (forall k :: 0 <= k < |p.rendas| ==> Paired(notes, p.rendas[k], true))
    && (forall k :: 0 <= k < |p.balloons| ==> Paired(notes, p.balloons[k], false))
    && ClosedOnce(p)
    && (p.renda.Some? ==> IsRenda(notes[p.renda.value].kind) && forall m :: p.renda.value < m < n ==> !IsRenda(notes[m].kind))
    && (p.balloon.Some? ==> notes[p.balloon.value].kind.Balloon? && forall m :: p.balloon.value < m < n ==> !notes[m].kind.Balloon?)
  }

  lemma PairingSoundStep(notes: seq<Note>, p: Pairs, j: nat)
    requires j < |notes| && PairingBelow(p, j) && PairingSound(notes, p, j)
    ensures PairingBelow(PairNext(notes, p, j), j + 1)
    ensures PairingSound(notes, PairNext(notes, p, j), j + 1)
  {
    PairingNextBelow(notes, p, j);
    var kind := notes[j].kind;
    if kind.End? && p.renda.Some? && notes[p.renda.value].time != 0.0 {
      SoundCloseRenda(notes, p, j);
    } else if kind.End? && p.balloon.Some? && notes[p.balloon.value].time != 0.0 {
      SoundCloseBalloon(notes, p, j);
    } else {
      SoundOpen(notes, p, j);
    }
  }

  lemma SoundOpen(notes: seq<Note>, p: Pairs, j: nat)
    requires j < |notes| && PairingBelow(p, j) && PairingSound(notes, p, j)
    requires !(notes[j].kind.End? && p.renda.Some? && notes[p.renda.value].time != 0.0)
    requires !(notes[j].kind.End? && p.balloon.Some? && notes[p.balloon.value].time != 0.0)
    ensures PairingBelow(PairNext(notes, p, j), j + 1)
    ensures PairingSound(notes, PairNext(notes, p, j), j + 1)
  {
    PairingNextBelow(notes, p, j);
    var p' := PairNext(notes, p, j);
    assert p'.rendas == p.rendas && p'.balloons == p.balloons;
  }

  lemma SoundCloseRenda(notes: seq<Note>, p: Pairs, j: nat)
    requires j < |notes| && PairingBelow(p, j) && PairingSound(notes, p, j)
    requires notes[j].kind.End? && p.renda.Some? && notes[p.renda.value].time != 0.0
    ensures PairingBelow(PairNext(notes, p, j), j + 1)
    ensures PairingSound(notes, PairNext(notes, p, j), j + 1)
  {
    PairingNextBelow(notes, p, j);
    var q := (p.renda.value, j);
    assert Paired(notes, q, true);
    ClosedOnceAppend(p, q, true);
    var p' := PairNext(notes, p, j);
    assert p' == p.(renda := None, rendas := p.rendas + [q]);
    assert forall k :: 0 <= k < |p'.rendas| ==> p'.rendas[k] == if k < |p.rendas| then p.rendas[k] else q;
  }

  lemma SoundCloseBalloon(notes: seq<Note>, p: Pairs, j: nat)
    requires j < |notes| && PairingBelow(p, j) && PairingSound(notes, p, j)
    requires notes[j].kind.End? && !(p.renda.Some? && notes[p.renda.value].time != 0.0)
    requires p.balloon.Some? && notes[p.balloon.value].time != 0.0
    ensures PairingBelow(PairNext(notes, p, j), j + 1)
    ensures PairingSound(notes, PairNext(notes, p, j), j + 1)
  {
    PairingNextBelow(notes, p, j);
    var q := (p.balloon.value, j);
    assert Paired(notes, q, false);
    ClosedOnceAppend(p, q, false);
    var p' := PairNext(notes, p, j);
    assert p' == p.(balloon := None, balloons := p.balloons + [q]);
    assert forall k :: 0 <= k < |p'.balloons| ==> p'.balloons[k] == if k < |p.balloons| then p.balloons[k] else q;
  }

  lemma ClosedOnceAppend(p: Pairs, q: (nat, nat), renda: bool)
    requires ClosedOnce(p) && PairingBelow(p, q.1)
    ensures renda ==> ClosedOnce(p.(renda := None, rendas := p.rendas + [q]))
    ensures !renda ==> ClosedOnce(p.(balloon := None, balloons := p.balloons + [q]))
  {
  }

  /** Every end note closes at most one hold: the latest renda before it if that one
      is open and did not start at time 0, else the latest balloon on the same terms. */
  lemma {:induction false} PairingMeaning(notes: seq<Note>, n: nat)
    requires n <= |notes|
    ensures PairingSound(notes, Pairing(notes, n), n)
    decreases n
  {
    if n > 0 {
      PairingMeaning(notes, n - 1);
      PairingSoundStep(notes, Pairing(notes, n - 1), n - 1);
      assert Pairing(notes, n) == PairNext(notes, Pairing(notes, n - 1), n - 1);
    }
  }

  // ---------------------------------------------------------------------------
  // The result against the notes

  /** The score getStatistics reports, against the notes and the go-go flag of each
      note: the potential score and every cell of the hit-weight table. */
  lemma ScoreCounted(c: TimedCourse)
    ensures StatisticsOf(c).score.score == Potential(c.headers, c.notes, Flags(c.events, Beats(c.notes)))
    ensures forall g, k :: 0 <= g < 2 && 0 <= k < 5 ==>
              StatisticsOf(c).score.notes[g][k] == Cell(c.notes, Flags(c.events, Beats(c.notes)), g, k)
  {
    var flags := Flags(c.events, Beats(c.notes));
    WalkTallies(c.events, c.headers, c.notes);
    var t := Tallies(c.headers, c.notes, flags);
    assert StatisticsOf(c).score == Score(t.potential, t.scNotes, t.scBalloon, t.scBalloonPop);
    PotentialCounted(c.headers, c.notes, flags);
    forall g, k | 0 <= g < 2 && 0 <= k < 5
      ensures k < |t.scNotes[g]| && t.scNotes[g][k] == Cell(c.notes, flags, g, k)
    {
      assert g == 0 || g == 1;
      CellsCounted(c.headers, c.notes, flags, g, k);
    }
  }

  /** The walk's holds over the whole course, by the pairing of every note. */
  lemma HoldsAll(h: CourseHeaders, notes: seq<Note>, flags: seq<bool>)
    requires |flags| == |notes|
    ensures PairingBelow(Pairing(notes, |notes|), |notes|)
    ensures Matches(notes, flags, Tallies(h, notes, flags), Pairing(notes, |notes|))
  {
    HoldsPaired(h, notes, flags, |notes|);
    assert notes[..|notes|] == notes && flags[..|notes|] == flags;
  }

  /** The holds getStatistics reports, against the pairing of each renda or balloon
      with the end note that closes it: the duration of every renda, the record of
      every balloon, and the pops and bonus hits of each go-go slot, taken in the slot
      of the balloon note. */
  lemma HoldsCounted(c: TimedCourse)
    ensures StatisticsOf(c).rendas == Spans(c.notes, Pairing(c.notes, |c.notes|).rendas)
    ensures StatisticsOf(c).balloons == Records(c.notes, Pairing(c.notes, |c.notes|).balloons)
    ensures forall g :: 0 <= g < 2 ==>
              StatisticsOf(c).score.balloonPop[g] == SlotPops(c.notes, Flags(c.events, Beats(c.notes)), Pairing(c.notes, |c.notes|).balloons, g)
    ensures forall g :: 0 <= g < 2 ==>
              StatisticsOf(c).score.balloon[g] == SlotBonus(c.notes, Flags(c.events, Beats(c.notes)), Pairing(c.notes, |c.notes|).balloons, g)
  {
    var flags, p := Flags(c.events, Beats(c.notes)), Pairing(c.notes, |c.notes|);
    WalkTallies(c.events, c.headers, c.notes);
    HoldsAll(c.headers, c.notes, flags);
    var s := StatisticsOf(c).score;
    forall g | 0 <= g < 2
      ensures s.balloonPop[g] == SlotPops(c.notes, flags, p.balloons, g)
      ensures s.balloon[g] == SlotBonus(c.notes, flags, p.balloons, g)
    {
      if g == 0 {
      } else {
        assert g == 1;
      }
    }
  }
}
