/** The course assembler (getCourse in src/js/parseTJA.js): folds the classified
    lines of one course into its header record and its list of measures. A data
    fragment ending in ',' seals the pending note data, events, time signature and
    properties into a measure; the first measure is then given a BPM event at
    position 0 if it has none, and the course name is mapped to an id 0..4. */
module TjaCourse {
  import opened Text
  import opened TjaLine

  datatype EventKind = GogoStart | GogoEnd | Scroll(speed: Option<real>) | BpmChange(tempo: Option<real>)

  /** An event inside a measure; position indexes the measure's note data. */
  datatype MeasureEvent = MeasureEvent(kind: EventKind, position: nat)

  /** A sealed measure: time signature dividend/divisor, the #TTBREAK row-break
      property, the note data and the events. */
  datatype Measure = Measure(dividend: nat, divisor: nat, ttBreak: bool, data: string, events: seq<MeasureEvent>)

  /** Course headers; None stands for a NaN left by parseInt. */
  datatype CourseHeaders = CourseHeaders(
    course: string, level: Option<int>, balloon: seq<nat>,
    scoreInit: Option<int>, scoreDiff: Option<int>, ttRowBeat: Option<int>)

  datatype Course = Course(id: nat, headers: CourseHeaders, measures: seq<Measure>)

  const DefaultHeaders := CourseHeaders("Easy", Some(1), [], Some(100), Some(100), Some(16))

  // ---------------------------------------------------------------------------
  // Header values

  predicate AllDigitRuns(runs: seq<string>) {
    forall k :: 0 <= k < |runs| ==> AllDigits(runs[k])
  }

  function DecimalValues(runs: seq<string>): (r: seq<nat>)
    requires AllDigitRuns(runs)
    ensures |r| == |runs|
  {
    if |runs| == 0 then [] else [Decimal(runs[0])] + DecimalValues(runs[1..])
  }

  /** BALLOON: the values of the digit runs of the header value, in order; every
      other character only separates them. */
  function BalloonCounts(value: string): seq<nat>
  {
    DigitRuns(value);
    DecimalValues(NonEmpty(Split(value, NotDigit)))
  }

  /** The non-empty pieces between non-digits are runs of digits. */
  lemma DigitRuns(value: string)
    ensures AllDigitRuns(NonEmpty(Split(value, NotDigit)))
  {
    var runs := NonEmpty(Split(value, NotDigit));
    forall k | 0 <= k < |runs| ensures AllDigits(runs[k]) {
      var pieces := Split(value, NotDigit);
      SplitPiecesFree(value, NotDigit);
      var j :| 0 <= j < |pieces| && pieces[j] == runs[k];
      assert forall i :: 0 <= i < |pieces[j]| ==> !NotDigit(pieces[j][i]);
    }
  }

  lemma DecimalValuesAppend(a: seq<string>, b: seq<string>)
    requires AllDigitRuns(a) && AllDigitRuns(b)
    ensures AllDigitRuns(a + b) && DecimalValues(a + b) == DecimalValues(a) + DecimalValues(b)
  {
    if |a| > 0 {
      assert (a + b)[1..] == a[1..] + b;
      DecimalValuesAppend(a[1..], b);
    } else {
      assert a + b == b;
    }
  }

  /** Any non-digit character separates two balloon lists. */
  lemma BalloonCountsSeparate(x: string, c: char, y: string)
    requires !IsDigit(c)
    ensures BalloonCounts(x + [c] + y) == BalloonCounts(x) + BalloonCounts(y)
  {
    SplitAtSeparator(x, c, y, NotDigit);
    DigitRuns(x);
    DigitRuns(y);
    NonEmptyAppend(Split(x, NotDigit), Split(y, NotDigit));
    var rx, ry := NonEmpty(Split(x, NotDigit)), NonEmpty(Split(y, NotDigit));
    assert BalloonCounts(x) == DecimalValues(rx);
    assert BalloonCounts(y) == DecimalValues(ry);
    DecimalValuesAppend(rx, ry);
  }

  /** A run of digits is one balloon count, its decimal value. */
  lemma BalloonCountsOfRun(d: string)
    requires |d| > 0 && AllDigits(d)
    ensures BalloonCounts(d) == [Decimal(d)]
  {
    SplitNoSeparator(d, NotDigit);
    assert NonEmpty([d]) == [d];
  }

  /** Writes counts separated by the character sep. */
  function JoinCounts(counts: seq<nat>, sep: char): string
  {
    if |counts| == 0 then ""
    else if |counts| == 1 then NatToString(counts[0])
    else NatToString(counts[0]) + [sep] + JoinCounts(counts[1..], sep)
  }

  /** Reading back counts written with any non-digit separator gives the counts. */
  lemma {:induction false} BalloonCountsRoundTrip(counts: seq<nat>, sep: char)
    requires !IsDigit(sep)
    ensures BalloonCounts(JoinCounts(counts, sep)) == counts
    decreases |counts|
  {
    if |counts| == 0 {
      assert Split("", NotDigit) == [""];
    } else if |counts| == 1 {
      BalloonCountsOfRun(NatToString(counts[0]));
    } else {
      BalloonCountsSeparate(NatToString(counts[0]), sep, JoinCounts(counts[1..], sep));
      BalloonCountsOfRun(NatToString(counts[0]));
      BalloonCountsRoundTrip(counts[1..], sep);
      assert counts == [counts[0]] + counts[1..];
    }
  }

  /** digits/digits at the very start of s, read as dividend and divisor. */
  function SignatureAt(s: string): Option<(nat, nat)>
  {
    var n := Span(s, IsDigit);
    if 0 < n && n + 1 < |s| && s[n] == '/' && IsDigit(s[n + 1]) then
      var m := Span(s[n + 1..], IsDigit);
      Some((Decimal(s[..n]), Decimal(s[n + 1..n + 1 + m])))
    else None
  }

  /** /(\d+)\/(\d+)/ in a MEASURE argument: the leftmost digits/digits, read as
      dividend and divisor. */
  function SignatureMatch(s: string): Option<(nat, nat)>
    decreases |s|
  {
    if SignatureAt(s).Some? then SignatureAt(s)
    else if |s| == 0 then None
    else SignatureMatch(s[1..])
  }

  /** An argument without a slash has no signature. */
  lemma {:induction false} NoSlashNoSignature(s: string)
    requires forall i :: 0 <= i < |s| ==> s[i] != '/'
    ensures SignatureMatch(s).None?
    decreases |s|
  {
    if |s| > 0 {
      NoSlashNoSignature(s[1..]);
    }
  }

  /** "n/d" written in decimal, after any text without digits and before any text that
      does not continue the divisor, reads as (n, d). */
  lemma SignatureOf(p: string, n: nat, d: nat, q: string)
    requires forall i :: 0 <= i < |p| ==> !IsDigit(p[i])
    requires |q| == 0 || !IsDigit(q[0])
    ensures SignatureMatch(p + NatToString(n) + "/" + NatToString(d) + q) == Some((n, d))
  {
    var a, b := NatToString(n), NatToString(d);
    var t := a + "/" + b + q;
    Regroup(p, a, b, q);
    SkipNonDigits(p, t);
    SignatureAtStart(n, d, q);
  }

  lemma Regroup(p: string, a: string, b: string, q: string)
    ensures p + a + "/" + b + q == p + (a + "/" + b + q)
  {
  }

  /** Text without digits before the argument is passed over. */
  lemma {:induction false} SkipNonDigits(p: string, t: string)
    requires forall i :: 0 <= i < |p| ==> !IsDigit(p[i])
    ensures SignatureMatch(p + t) == SignatureMatch(t)
    decreases |p|
  {
    if |p| > 0 {
      var s := p + t;
      assert Span(s, IsDigit) == 0 by { assert s[0] == p[0]; }
      assert SignatureAt(s).None?;
      assert s[1..] == p[1..] + t;
      SkipNonDigits(p[1..], t);
    } else {
      assert p + t == t;
    }
  }

  lemma SignatureAtStart(n: nat, d: nat, q: string)
    requires |q| == 0 || !IsDigit(q[0])
    ensures SignatureMatch(NatToString(n) + "/" + NatToString(d) + q) == Some((n, d))
  {
    SignatureOfRuns(NatToString(n), NatToString(d), q);
  }

  lemma SignatureOfRuns(a: string, b: string, q: string)
    requires |a| > 0 && |b| > 0 && AllDigits(a) && AllDigits(b)
    requires |q| == 0 || !IsDigit(q[0])
    ensures SignatureAt(a + "/" + b + q) == Some((Decimal(a), Decimal(b)))
  {
    var s := a + "/" + b + q;
    assert s[..|a|] == a;
    SpanPrefix(s, |a|);
    assert s[|a|] == '/' && s[|a| + 1] == b[0];
    var t := s[|a| + 1..];
    assert t == b + q;
    assert t[..|b|] == b;
    SpanPrefix(t, |b|);
    assert s[|a| + 1..|a| + 1 + |b|] == b;
  }

  lemma SpanPrefix(s: string, k: nat)
    requires k <= |s| && AllDigits(s[..k]) && (k == |s| || !IsDigit(s[k]))
    ensures Span(s, IsDigit) == k
    decreases k
  {
    if k > 0 {
      assert s[1..][..k - 1] == s[1..k];
      SpanPrefix(s[1..], k - 1);
    }
  }

  // ---------------------------------------------------------------------------
  // The accumulator and one step of the fold

  /** The state getCourse keeps while reading lines: the header record, the sealed
      measures, and the pending signature, row-break flag, note data and events. */
  datatype Builder = Builder(
    headers: CourseHeaders, measures: seq<Measure>,
    dividend: nat, divisor: nat, ttBreak: bool, data: string, events: seq<MeasureEvent>)

  const Initial := Builder(DefaultHeaders, [], 4, 4, false, "", [])

  predicate Seals(d: string) { |d| > 0 && d[|d| - 1] == ',' }

  /** The note characters of a fragment: without its terminating comma. */
  function Fragment(d: string): string {
    if Seals(d) then d[..|d| - 1] else d
  }

  function HeaderStep(h: CourseHeaders, name: string, value: string): CourseHeaders {
    if name == "COURSE" then h.(course := value)
    else if name == "LEVEL" then h.(level := ParseInt(value))
    else if name == "BALLOON" then h.(balloon := BalloonCounts(value))
    else if name == "SCOREINIT" then h.(scoreInit := ParseInt(value))
    else if name == "SCOREDIFF" then h.(scoreDiff := ParseInt(value))
    else if name == "TTROWBEAT" then h.(ttRowBeat := ParseInt(value))
    else h
  }

  function CommandStep(b: Builder, name: string, value: string): Builder {
    if name == "MEASURE" then
      match SignatureMatch(value)
      case None => b
      case Some((n, d)) => b.(dividend := n, divisor := d)
    else if name == "GOGOSTART" then b.(events := b.events + [MeasureEvent(GogoStart, |b.data|)])
    else if name == "GOGOEND" then b.(events := b.events + [MeasureEvent(GogoEnd, |b.data|)])
    else if name == "SCROLL" then b.(events := b.events + [MeasureEvent(Scroll(ParseFloat(value)), |b.data|)])
    else if name == "BPMCHANGE" then b.(events := b.events + [MeasureEvent(BpmChange(ParseFloat(value)), |b.data|)])
    else if name == "TTBREAK" then b.(ttBreak := true)
    else b
  }

  function Step(b: Builder, line: ParsedLine): Builder {
    match line
    case Header(_, name, value) => b.(headers := HeaderStep(b.headers, name, value))
    case Command(name, value) => CommandStep(b, name, value)
    case Data(d) =>
      if Seals(d) then
        var m := Measure(b.dividend, b.divisor, b.ttBreak, b.data + Fragment(d), b.events);
        b.(measures := b.measures + [m], ttBreak := false, data := "", events := [])
      else b.(data := b.data + d)
    case Unknown(_) => b
  }

  /** The state after reading all of lines. */
  function Fold(lines: seq<ParsedLine>): Builder
    decreases |lines|
  {
    if |lines| == 0 then Initial else Step(Fold(lines[..|lines| - 1]), lines[|lines| - 1])
  }

  predicate IsOpeningBpm(e: MeasureEvent) { e.kind.BpmChange? && e.position == 0 }

  predicate HasOpeningBpm(events: seq<MeasureEvent>) {
    exists j :: 0 <= j < |events| && IsOpeningBpm(events[j])
  }

  /** The first measure, when there is one, gets a BPM event at position 0 carrying the
      chart's BPM unless it already has one; the events are otherwise untouched. */
  function WithOpeningBpm(measures: seq<Measure>, bpm: Option<real>): (r: seq<Measure>)
    ensures |r| == |measures| && (|r| > 0 ==> r[1..] == measures[1..])
    ensures |r| > 0 ==> HasOpeningBpm(r[0].events)
    ensures |r| > 0 && !HasOpeningBpm(measures[0].events) ==>
              r[0] == measures[0].(events := [MeasureEvent(BpmChange(bpm), 0)] + measures[0].events)
    ensures |r| == 0 || HasOpeningBpm(measures[0].events) ==> r == measures
  {
    if |measures| == 0 || HasOpeningBpm(measures[0].events) then measures
    else
      var first := measures[0].(events := [MeasureEvent(BpmChange(bpm), 0)] + measures[0].events);
      assert IsOpeningBpm(first.events[0]);
      [first] + measures[1..]
  }

  // ---------------------------------------------------------------------------
  // Course names

  const CourseNames: seq<string> := ["easy", "normal", "hard", "oni", "edit"]
  const CourseDigits: seq<string> := ["0", "1", "2", "3", "4"]

  /** The course header, lower-cased, names course k in words or as the digit k. */
  predicate Names(name: string, k: nat)
    requires k < 5
  {
    ToLower(name) == CourseNames[k] || ToLower(name) == CourseDigits[k]
  }

  /** easy/0 -> 0, normal/1 -> 1, hard/2 -> 2, oni/3 -> 3, edit/4 -> 4, anything else -> 0,
      ignoring case. */
  function CourseId(name: string): (id: nat)
    ensures id < 5
    ensures Names(name, id) || (id == 0 && forall k :: 0 <= k < 5 ==> !Names(name, k))
  {
    var lower := ToLower(name);
    if lower == "easy" || lower == "0" then 0
    else if lower == "normal" || lower == "1" then 1
    else if lower == "hard" || lower == "2" then 2
    else if lower == "oni" || lower == "3" then 3
    else if lower == "edit" || lower == "4" then 4
    else 0
  }

  /** No spelling names two courses. */
  lemma NamesExclusive(name: string, j: nat, k: nat)
    requires j < 5 && k < 5 && Names(name, j) && Names(name, k)
    ensures j == k
  {
  }

  /** A course named by one of the spellings of course k gets id k. */
  lemma CourseIdOfName(name: string, k: nat)
    requires k < 5 && Names(name, k)
    ensures CourseId(name) == k
  {
    var id := CourseId(name);
    NamesExclusive(name, id, k);
  }

  /** The id does not depend on the case the course is written in. */
  lemma CourseIdIgnoresCase(name: string)
    ensures CourseId(ToUpper(name)) == CourseId(name)
  {
    LowerOfUpper(name);
  }

  /** The course getCourse returns for these lines, with the chart's BPM at the time. */
  function CourseOf(bpm: Option<real>, lines: seq<ParsedLine>): Course
  {
    var b := Fold(lines);
    Course(CourseId(b.headers.course), b.headers, WithOpeningBpm(b.measures, bpm))
  }

  // ---------------------------------------------------------------------------
  // getCourse

  /** The search for a BPM event at position 0 of the first measure, and the insertion
      of the chart's BPM there when the search fails. */
  method OpenWithBpm(measures: seq<Measure>, bpm: Option<real>) returns (r: seq<Measure>)
    ensures r == WithOpeningBpm(measures, bpm)
  {
    r := measures;
    if |r| > 0 {
      var found := false;
      var j := 0;
      while j < |r[0].events|
        invariant 0 <= j <= |r[0].events|
        invariant forall k :: 0 <= k < j ==> !IsOpeningBpm(r[0].events[k])
      {
        var evt := r[0].events[j];
        if evt.kind.BpmChange? && evt.position == 0 {
          found := true;
          break;
        }
        j := j + 1;
      }
      if !found {
        r := [r[0].(events := [MeasureEvent(BpmChange(bpm), 0)] + r[0].events)] + r[1..];
      }
    }
  }

  method GetCourse(bpm: Option<real>, lines: seq<ParsedLine>) returns (course: Course)
    ensures course == CourseOf(bpm, lines)
  {
    var headers := DefaultHeaders;
    var measures: seq<Measure> := [];
    var dividend: nat, divisor: nat := 4, 4;
    var ttBreak := false;
    var data := "";
    var events: seq<MeasureEvent> := [];

    var i := 0;
    while i < |lines|
      invariant 0 <= i <= |lines|
      invariant Builder(headers, measures, dividend, divisor, ttBreak, data, events) == Fold(lines[..i])
    {
      ghost var before := Builder(headers, measures, dividend, divisor, ttBreak, data, events);
      assert lines[..i + 1][..i] == lines[..i];
      assert Fold(lines[..i + 1]) == Step(before, lines[i]);
      match lines[i] {
      case Header(_, name, value) =>
        if name == "COURSE" {
          headers := headers.(course := value);
        } else if name == "LEVEL" {
          headers := headers.(level := ParseInt(value));
        } else if name == "BALLOON" {
          headers := headers.(balloon := BalloonCounts(value));
        } else if name == "SCOREINIT" {
          headers := headers.(scoreInit := ParseInt(value));
        } else if name == "SCOREDIFF" {
          headers := headers.(scoreDiff := ParseInt(value));
        } else if name == "TTROWBEAT" {
          headers := headers.(ttRowBeat := ParseInt(value));
        }
      case Command(name, value) =>
        if name == "MEASURE" {
          match SignatureMatch(value)
          case None =>
          case Some((n, d)) =>
            dividend, divisor := n, d;
        } else if name == "GOGOSTART" {
          events := events + [MeasureEvent(GogoStart, |data|)];
        } else if name == "GOGOEND" {
          events := events + [MeasureEvent(GogoEnd, |data|)];
        } else if name == "SCROLL" {
          events := events + [MeasureEvent(Scroll(ParseFloat(value)), |data|)];
        } else if name == "BPMCHANGE" {
          events := events + [MeasureEvent(BpmChange(ParseFloat(value)), |data|)];
        } else if name == "TTBREAK" {
          ttBreak := true;
        }
      case Data(d) =>
        if |d| > 0 && d[|d| - 1] == ',' {
          data := data + d[..|d| - 1];
          measures := measures + [Measure(dividend, divisor, ttBreak, data, events)];
          data := "";
          events := [];
          ttBreak := false;
        } else {
          data := data + d;
        }
      case Unknown(_) =>
      }
      assert Builder(headers, measures, dividend, divisor, ttBreak, data, events) == Step(before, lines[i]);
      i := i + 1;
    }
    assert lines[..|lines|] == lines;

    measures := OpenWithBpm(measures, bpm);
    course := Course(CourseId(headers.course), headers, measures);
  }

  // ---------------------------------------------------------------------------
  // What the fold guarantees

  /** The number of data fragments that end in a comma. */
  function CountSeals(lines: seq<ParsedLine>): nat
    decreases |lines|
  {
    if |lines| == 0 then 0
    else CountSeals(lines[..|lines| - 1]) + (if lines[|lines| - 1].Data? && Seals(lines[|lines| - 1].data) then 1 else 0)
  }

  /** Each comma-terminated fragment seals exactly one measure, and nothing else does. */
  lemma {:induction false} MeasureCount(lines: seq<ParsedLine>)
    ensures |Fold(lines).measures| == CountSeals(lines)
    decreases |lines|
  {
    if |lines| > 0 {
      MeasureCount(lines[..|lines| - 1]);
    }
  }

  /** All note characters of the fragments, commas dropped, in order. */
  function Fragments(lines: seq<ParsedLine>): string
    decreases |lines|
  {
    if |lines| == 0 then ""
    else Fragments(lines[..|lines| - 1]) + (if lines[|lines| - 1].Data? then Fragment(lines[|lines| - 1].data) else "")
  }

  /** The note data of the measures, one after the other. */
  function AllNotes(measures: seq<Measure>): string
    decreases |measures|
  {
    if |measures| == 0 then "" else AllNotes(measures[..|measures| - 1]) + measures[|measures| - 1].data
  }

  lemma AllNotesAppend(ms: seq<Measure>, m: Measure)
    ensures AllNotes(ms + [m]) == AllNotes(ms) + m.data
  {
    assert (ms + [m])[..|ms|] == ms;
  }

  /** No note character is lost, added or moved: the sealed measures followed by the
      pending buffer spell exactly the fragments read. */
  lemma {:induction false} NotesPreserved(lines: seq<ParsedLine>)
    ensures AllNotes(Fold(lines).measures) + Fold(lines).data == Fragments(lines)
    decreases |lines|
  {
    if |lines| > 0 {
      var prefix, line := lines[..|lines| - 1], lines[|lines| - 1];
      NotesPreserved(prefix);
      var b := Fold(prefix);
      if line.Data? && Seals(line.data) {
        var m := Measure(b.dividend, b.divisor, b.ttBreak, b.data + Fragment(line.data), b.events);
        assert Fold(lines).measures == b.measures + [m];
        AllNotesAppend(b.measures, m);
      } else if line.Data? {
        assert Fold(lines) == b.(data := b.data + line.data);
      } else {
        StepKeepsNotes(b, line);
      }
    }
  }

  /** Headers, commands and unknown lines leave the measures and the buffer alone. */
  lemma StepKeepsNotes(b: Builder, line: ParsedLine)
    requires !line.Data?
    ensures Step(b, line).measures == b.measures && Step(b, line).data == b.data
  {
    match line
    case Header(_, name, value) =>
      assert Step(b, line) == b.(headers := HeaderStep(b.headers, name, value));
    case Command(name, value) =>
      var b' := CommandStep(b, name, value);
      assert b'.measures == b.measures && b'.data == b.data;
    case Unknown(_) =>
  }

  /** Event positions within bounds and in order. */
  predicate WellPositioned(events: seq<MeasureEvent>, length: nat) {
    && (forall i :: 0 <= i < |events| ==> events[i].position <= length)
    && (forall i, j :: 0 <= i < j < |events| ==> events[i].position <= events[j].position)
  }

  predicate MeasureWellPositioned(m: Measure) {
    WellPositioned(m.events, |m.data|)
  }

  predicate BuilderWellPositioned(b: Builder) {
    && WellPositioned(b.events, |b.data|)
    && forall k :: 0 <= k < |b.measures| ==> MeasureWellPositioned(b.measures[k])
  }

  /** An event added at the end of the buffer keeps the events in order. */
  lemma AppendAtEnd(events: seq<MeasureEvent>, length: nat, e: MeasureEvent)
    requires WellPositioned(events, length) && e.position == length
    ensures WellPositioned(events + [e], length)
  {
  }

  lemma CommandStepKeepsPositions(b: Builder, name: string, value: string)
    requires BuilderWellPositioned(b)
    ensures BuilderWellPositioned(CommandStep(b, name, value))
  {
    var b' := CommandStep(b, name, value);
    if name in ["GOGOSTART", "GOGOEND", "SCROLL", "BPMCHANGE"] {
      var e := b'.events[|b'.events| - 1];
      assert b'.events == b.events + [e] && e.position == |b.data|;
      AppendAtEnd(b.events, |b.data|, e);
    } else {
      assert b'.events == b.events && b'.data == b.data && b'.measures == b.measures;
    }
  }

  lemma StepKeepsPositions(b: Builder, line: ParsedLine)
    requires BuilderWellPositioned(b)
    ensures BuilderWellPositioned(Step(b, line))
  {
    match line
    case Command(name, value) => CommandStepKeepsPositions(b, name, value);
    case Data(d) =>
      if Seals(d) {
        var m := Measure(b.dividend, b.divisor, b.ttBreak, b.data + Fragment(d), b.events);
        assert MeasureWellPositioned(m);
        var ms := b.measures + [m];
        assert forall k :: 0 <= k < |ms| ==> ms[k] == m || ms[k] == b.measures[k];
      }
    case _ =>
  }

  /** Every event is placed at the length of the buffer when its command is read, so in
      each sealed measure (and in the pending buffer) positions are in list order and
      lie in 0..length of the note data. */
  lemma {:induction false} PositionsInOrder(lines: seq<ParsedLine>)
    ensures BuilderWellPositioned(Fold(lines))
    decreases |lines|
  {
    if |lines| > 0 {
      PositionsInOrder(lines[..|lines| - 1]);
      StepKeepsPositions(Fold(lines[..|lines| - 1]), lines[|lines| - 1]);
    }
  }

  /** The signature set by the last MEASURE command whose argument holds n/d; 4/4 when
      there is none. */
  function CurrentSignature(lines: seq<ParsedLine>): (nat, nat)
    decreases |lines|
  {
    if |lines| == 0 then (4, 4)
    else
      var line := lines[|lines| - 1];
      if line.Command? && line.name == "MEASURE" && SignatureMatch(line.value).Some? then SignatureMatch(line.value).value
      else CurrentSignature(lines[..|lines| - 1])
  }

  /** The signature starts at 4/4 and a MEASURE command changes it for the measure
      being built and every later one; an argument without n/d changes nothing. */
  lemma {:induction false} SignatureTracked(lines: seq<ParsedLine>)
    ensures (Fold(lines).dividend, Fold(lines).divisor) == CurrentSignature(lines)
    decreases |lines|
  {
    if |lines| > 0 {
      SignatureTracked(lines[..|lines| - 1]);
      StepSignature(Fold(lines[..|lines| - 1]), lines[|lines| - 1]);
    }
  }

  lemma StepSignature(b: Builder, line: ParsedLine)
    ensures var b' := Step(b, line);
            if line.Command? && line.name == "MEASURE" && SignatureMatch(line.value).Some?
            then (b'.dividend, b'.divisor) == SignatureMatch(line.value).value
            else (b'.dividend, b'.divisor) == (b.dividend, b.divisor)
  {
    match line
    case Command(name, value) =>
      if name != "MEASURE" {
        var b' := CommandStep(b, name, value);
        assert b'.dividend == b.dividend && b'.divisor == b.divisor;
      }
    case _ =>
  }

  /** A comma-terminated fragment seals one measure from the pending buffer plus the
      fragment, with the current signature, row-break flag and events, and empties
      the buffers. */
  lemma Sealing(lines: seq<ParsedLine>, d: string)
    requires Seals(d)
    ensures var b, b' := Fold(lines), Fold(lines + [Data(d)]);
            && b'.measures == b.measures + [Measure(CurrentSignature(lines).0, CurrentSignature(lines).1, b.ttBreak, b.data + d[..|d| - 1], b.events)]
            && b'.data == "" && b'.events == [] && !b'.ttBreak
  {
    assert (lines + [Data(d)])[..|lines|] == lines;
    SignatureTracked(lines);
  }

  /** A trailing fragment without a comma never becomes a measure. */
  lemma TrailingFragmentDropped(bpm: Option<real>, lines: seq<ParsedLine>, d: string)
    requires !Seals(d)
    ensures CourseOf(bpm, lines + [Data(d)]) == CourseOf(bpm, lines)
  {
    assert (lines + [Data(d)])[..|lines|] == lines;
  }

  /** What the assembled course guarantees the timeline builder: every measure has its
      events in order within its note data, and the first one opens with a BPM event. */
  lemma CourseWellPositioned(bpm: Option<real>, lines: seq<ParsedLine>)
    ensures var c := CourseOf(bpm, lines);
            && (forall k :: 0 <= k < |c.measures| ==> MeasureWellPositioned(c.measures[k]))
            && (|c.measures| > 0 ==> HasOpeningBpm(c.measures[0].events))
            && |c.measures| == CountSeals(lines)
  {
    PositionsInOrder(lines);
    MeasureCount(lines);
    OpeningBpmKeepsPositions(Fold(lines).measures, bpm);
  }

  /** Inserting the opening BPM event at position 0 keeps every measure well positioned. */
  lemma OpeningBpmKeepsPositions(ms: seq<Measure>, bpm: Option<real>)
    requires forall k :: 0 <= k < |ms| ==> MeasureWellPositioned(ms[k])
    ensures var r := WithOpeningBpm(ms, bpm);
            forall k :: 0 <= k < |r| ==> MeasureWellPositioned(r[k])
  {
    var r := WithOpeningBpm(ms, bpm);
    if |ms| > 0 && !HasOpeningBpm(ms[0].events) {
      var e := r[0].events;
      assert e == [MeasureEvent(BpmChange(bpm), 0)] + ms[0].events;
      assert MeasureWellPositioned(ms[0]);
      assert forall i :: 1 <= i < |e| ==> e[i] == ms[0].events[i - 1];
      assert MeasureWellPositioned(r[0]);
      forall k | 0 <= k < |r| ensures MeasureWellPositioned(r[k]) {
        if k > 0 {
          assert r[k] == r[1..][k - 1] == ms[1..][k - 1] == ms[k];
        }
      }
    }
  }
}
