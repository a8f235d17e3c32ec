/** The chart parser (parseTJA in src/js/parseTJA.js): splits the text into lines,
    applies global headers to the chart's header record and gathers the remaining
    lines into one group per course, each group handed to the course assembler
    when the next COURSE header or the end of the text is reached. */
module TjaChart {
  import opened Text
  import opened TjaLine
  import opened TjaCourse

  /** Global headers; None stands for a NaN left by parseFloat. */
  datatype ChartHeaders = ChartHeaders(
    title: string, subtitle: string, bpm: Option<real>, wave: string,
    offset: Option<real>, demoStart: Option<real>, genre: string)

  const InitialHeaders := ChartHeaders("", "", Some(120.0), "", Some(0.0), Some(0.0), "")

  /** The parsed chart: headers and the courses by id (the last course with an id wins). */
  datatype Chart = Chart(headers: ChartHeaders, courses: map<nat, Course>)

  // ---------------------------------------------------------------------------
  // Lines

  function BreakLength(s: string, n: nat): nat
    requires n < |s|
  {
    if s[n] == '\r' && n + 1 < |s| && s[n + 1] == '\n' then 2 else 1
  }

  /** split(/(\r\n|\r|\n)/): the texts between line breaks, each followed by the break
      itself (the regex captures it), "\r\n" taken as one break. */
  function SplitKeepingBreaks(s: string): (r: seq<string>)
    ensures |r| % 2 == 1
    decreases |s|
  {
    var n := Span(s, NotLineBreak);
    if n == |s| then [s]
    else
      var k := BreakLength(s, n);
      [s[..n], s[n..n + k]] + SplitKeepingBreaks(s[n + k..])
  }

  function Concat(pieces: seq<string>): string
    decreases |pieces|
  {
    if |pieces| == 0 then "" else pieces[0] + Concat(pieces[1..])
  }

  predicate IsBreak(s: string) { s == "\r\n" || s == "\r" || s == "\n" }

  /** The split loses nothing: the texts and the captured breaks spell the input. */
  lemma {:induction false} SplitKeepingBreaksConcat(s: string)
    ensures Concat(SplitKeepingBreaks(s)) == s
    decreases |s|
  {
    var n := Span(s, NotLineBreak);
    var r := SplitKeepingBreaks(s);
    if n == |s| {
      assert r == [s];
      assert Concat(r) == s + Concat([]);
    } else {
      var k := BreakLength(s, n);
      var rest := SplitKeepingBreaks(s[n + k..]);
      SplitKeepingBreaksConcat(s[n + k..]);
      assert r == [s[..n], s[n..n + k]] + rest;
      ConcatPair(s[..n], s[n..n + k], rest);
      assert s == s[..n] + s[n..n + k] + s[n + k..];
    }
  }

  lemma ConcatPair(a: string, b: string, rest: seq<string>)
    ensures Concat([a, b] + rest) == a + b + Concat(rest)
  {
    var r := [a, b] + rest;
    assert r[1..] == [b] + rest && r[1..][1..] == rest;
  }

  lemma ParityShift(j: int)
    ensures (j - 2) % 2 == j % 2
  {
  }

  predicate NoBreak(t: string) {
    forall i :: 0 <= i < |t| ==> !IsLineBreak(t[i])
  }

  /** Texts without a break at the even places, breaks at the odd ones. */
  predicate Alternating(r: seq<string>) {
    forall k :: 0 <= k < |r| ==> if k % 2 == 0 then NoBreak(r[k]) else IsBreak(r[k])
  }

  lemma AlternatingCons(a: string, b: string, rest: seq<string>)
    requires NoBreak(a) && IsBreak(b) && Alternating(rest)
    ensures Alternating([a, b] + rest)
  {
    var r := [a, b] + rest;
    forall j | 2 <= j < |r| ensures if j % 2 == 0 then NoBreak(r[j]) else IsBreak(r[j]) {
      ParityShift(j);
      assert r[j] == rest[j - 2];
    }
  }

  /** The piece at a break is the break. */
  lemma BreakPiece(s: string, n: nat)
    requires n < |s| && IsLineBreak(s[n])
    ensures IsBreak(s[n..n + BreakLength(s, n)])
  {
    if BreakLength(s, n) == 2 {
      assert s[n..n + 2] == "\r\n";
    } else {
      assert s[n..n + 1] == [s[n]];
    }
  }

  /** The texts between breaks hold no break, and the captured pieces are breaks. */
  lemma {:induction false} SplitKeepingBreaksParts(s: string)
    ensures Alternating(SplitKeepingBreaks(s))
    decreases |s|
  {
    var n := Span(s, NotLineBreak);
    assert NoBreak(s[..n]) by {
      assert forall i :: 0 <= i < n ==> NotLineBreak(s[i]);
    }
    if n == |s| {
      assert s[..n] == s;
      assert SplitKeepingBreaks(s) == [s[..n]];
    } else {
      var k := BreakLength(s, n);
      SplitKeepingBreaksParts(s[n + k..]);
      BreakPiece(s, n);
      AlternatingCons(s[..n], s[n..n + k], SplitKeepingBreaks(s[n + k..]));
    }
  }

  /** The lines of the chart, trimmed; the captured breaks trim to "". */
  function ChartLines(text: string): (lines: seq<string>)
  {
    var pieces := SplitKeepingBreaks(text);
    seq(|pieces|, i requires 0 <= i < |pieces| => Trim(pieces[i]))
  }

  /** Only the texts between breaks can give a non-empty line. */
  lemma BreaksTrimAway(text: string)
    ensures var lines := ChartLines(text);
            forall k :: 0 <= k < |lines| && k % 2 == 1 ==> lines[k] == ""
  {
    var pieces := SplitKeepingBreaks(text);
    SplitKeepingBreaksParts(text);
    forall k | 0 <= k < |pieces| && k % 2 == 1 ensures Trim(pieces[k]) == "" {
      assert IsBreak(pieces[k]);
      assert |pieces[k]| <= 2;
      assert forall i :: 0 <= i < |pieces[k]| ==> IsSpace(pieces[k][i]);
      AllSpaceTrim(pieces[k]);
    }
  }

  lemma AllSpaceTrim(s: string)
    requires forall i :: 0 <= i < |s| ==> IsSpace(s[i])
    ensures Trim(s) == ""
  {
  }

  // ---------------------------------------------------------------------------
  // The fold

  /** The state parseTJA keeps: the headers, the courses so far and the lines of the
      course being gathered. */
  datatype Reader = Reader(headers: ChartHeaders, courses: map<nat, Course>, group: seq<ParsedLine>)

  const Start := Reader(InitialHeaders, map[], [])

  function GlobalStep(h: ChartHeaders, name: string, value: string): ChartHeaders {
    if name == "TITLE" then h.(title := value)
    else if name == "SUBTITLE" then h.(subtitle := value)
    else if name == "BPM" then h.(bpm := ParseFloat(value))
    else if name == "WAVE" then h.(wave := value)
    else if name == "OFFSET" then h.(offset := ParseFloat(value))
    else if name == "DEMOSTART" then h.(demoStart := ParseFloat(value))
    else if name == "GENRE" then h.(genre := value)
    else h
  }

  /** Hands the gathered lines to the course assembler, with the BPM of the moment, and
      files the course under its id. */
  function Flush(r: Reader): Reader {
    var c := CourseOf(r.headers.bpm, r.group);
    r.(courses := r.courses[c.id := c], group := [])
  }

  predicate IsCourseStart(p: ParsedLine) {
    p.Header? && p.scope == CourseScope && p.name == "COURSE"
  }

  function Route(r: Reader, p: ParsedLine): Reader {
    match p
    case Header(GlobalScope, name, value) => r.(headers := GlobalStep(r.headers, name, value))
    case Header(CourseScope, _, _) =>
      var r' := if IsCourseStart(p) && |r.group| > 0 then Flush(r) else r;
      r'.(group := r'.group + [p])
    case Command(_, _) => r.(group := r.group + [p])
    case Data(_) => r.(group := r.group + [p])
    case Unknown(_) => r
  }

  function ReadLine(r: Reader, line: string): Reader {
    if line == "" then r else Route(r, ParseLine(line))
  }

  function ReadLines(lines: seq<string>): Reader
    decreases |lines|
  {
    if |lines| == 0 then Start else ReadLine(ReadLines(lines[..|lines| - 1]), lines[|lines| - 1])
  }

  function Finish(r: Reader): Reader {
    if |r.group| > 0 then Flush(r) else r
  }

  /** The chart parseTJA returns for text. */
  function ChartOf(text: string): Chart {
    var r := Finish(ReadLines(ChartLines(text)));
    Chart(r.headers, r.courses)
  }

  // ---------------------------------------------------------------------------
  // parseTJA

  /** One parsed line of parseTJA's loop: a global header updates the headers, a
      COURSE header first hands over the lines gathered so far, and course headers,
      commands and data are gathered. */
  method Dispatch(headers: ChartHeaders, courses: map<nat, Course>, courseLines: seq<ParsedLine>, parsed: ParsedLine)
    returns (headers': ChartHeaders, courses': map<nat, Course>, courseLines': seq<ParsedLine>)
    ensures Reader(headers', courses', courseLines') == Route(Reader(headers, courses, courseLines), parsed)
  {
    headers', courses', courseLines' := headers, courses, courseLines;
    match parsed {
      case Header(GlobalScope, name, value) =>
        if name == "TITLE" {
          headers' := headers'.(title := value);
        } else if name == "SUBTITLE" {
          headers' := headers'.(subtitle := value);
        } else if name == "BPM" {
          headers' := headers'.(bpm := ParseFloat(value));
        } else if name == "WAVE" {
          headers' := headers'.(wave := value);
        } else if name == "OFFSET" {
          headers' := headers'.(offset := ParseFloat(value));
        } else if name == "DEMOSTART" {
          headers' := headers'.(demoStart := ParseFloat(value));
        } else if name == "GENRE" {
          headers' := headers'.(genre := value);
        }
      case Header(CourseScope, name, _) =>
        if name == "COURSE" && |courseLines'| > 0 {
          var course := GetCourse(headers'.bpm, courseLines');
          courses' := courses'[course.id := course];
          courseLines' := [];
        }
        courseLines' := courseLines' + [parsed];
      case Command(_, _) =>
        courseLines' := courseLines' + [parsed];
      case Data(_) =>
        courseLines' := courseLines' + [parsed];
      case Unknown(_) =>
    }
  }

  /** One turn of parseTJA's loop: an empty line is skipped, any other is parsed and
      dispatched. */
  method ReadOne(headers: ChartHeaders, courses: map<nat, Course>, courseLines: seq<ParsedLine>, line: string)
    returns (headers': ChartHeaders, courses': map<nat, Course>, courseLines': seq<ParsedLine>)
    ensures Reader(headers', courses', courseLines') == ReadLine(Reader(headers, courses, courseLines), line)
  {
    headers', courses', courseLines' := headers, courses, courseLines;
    if line != "" {
      var parsed := ParseLine(line);
      headers', courses', courseLines' := Dispatch(headers, courses, courseLines, parsed);
    }
  }

  lemma ReadLinesStep(lines: seq<string>, idx: nat)
    requires idx < |lines|
    ensures ReadLines(lines[..idx + 1]) == ReadLine(ReadLines(lines[..idx]), lines[idx])
  {
    assert lines[..idx + 1][..idx] == lines[..idx];
  }

  method ParseTja(text: string) returns (chart: Chart)
    ensures chart == ChartOf(text)
  {
    var lines := ChartLines(text);
    var headers := InitialHeaders;
    var courses: map<nat, Course> := map[];
    var courseLines: seq<ParsedLine> := [];

    var idx := 0;
    while idx < |lines|
      invariant 0 <= idx <= |lines|
      invariant Reader(headers, courses, courseLines) == ReadLines(lines[..idx])
    {
      ReadLinesStep(lines, idx);
      headers, courses, courseLines := ReadOne(headers, courses, courseLines, lines[idx]);
      idx := idx + 1;
    }
    assert lines[..|lines|] == lines;

    if |courseLines| > 0 {
      var course := GetCourse(headers.bpm, courseLines);
      courses := courses[course.id := course];
    }
    chart := Chart(headers, courses);
  }

  // ---------------------------------------------------------------------------
  // What the fold guarantees

  /** A course as the timeline builder needs it: filed under its own id, with every
      measure's events in order within its note data and an opening BPM event. */
  predicate WellFormedCourse(c: Course) {
    && c.id < 5
    && (forall k :: 0 <= k < |c.measures| ==> MeasureWellPositioned(c.measures[k]))
    && (|c.measures| > 0 ==> HasOpeningBpm(c.measures[0].events))
  }

  predicate WellFiled(courses: map<nat, Course>) {
    forall id :: id in courses ==> courses[id].id == id && WellFormedCourse(courses[id])
  }

  /** The gathered lines of a course hold only course headers, commands and data, and a
      COURSE header only as their first line. */
  predicate GroupShape(group: seq<ParsedLine>) {
    && (forall i :: 0 <= i < |group| ==> !group[i].Unknown? && (group[i].Header? ==> group[i].scope == CourseScope))
    && (forall i :: 0 < i < |group| ==> !IsCourseStart(group[i]))
  }

  predicate ReaderInvariant(r: Reader) {
    WellFiled(r.courses) && GroupShape(r.group)
  }

  lemma FlushFiles(r: Reader)
    requires WellFiled(r.courses)
    ensures WellFiled(Flush(r).courses)
  {
    CourseWellPositioned(r.headers.bpm, r.group);
  }

  lemma RouteKeepsInvariant(r: Reader, p: ParsedLine)
    requires ReaderInvariant(r)
    ensures ReaderInvariant(Route(r, p))
  {
    match p
    case Header(GlobalScope, _, _) =>
    case Header(CourseScope, _, _) =>
      if IsCourseStart(p) && |r.group| > 0 {
        FlushFiles(r);
        assert Route(r, p).group == [p];
      } else {
        var g := r.group + [p];
        assert !IsCourseStart(p) ==> forall i :: 0 < i < |g| ==> !IsCourseStart(g[i]);
      }
    case Command(_, _) =>
    case Data(_) =>
    case Unknown(_) =>
  }

  lemma {:induction false} ReadLinesInvariant(lines: seq<string>)
    ensures ReaderInvariant(ReadLines(lines))
    decreases |lines|
  {
    if |lines| > 0 {
      var prefix := lines[..|lines| - 1];
      ReadLinesInvariant(prefix);
      if lines[|lines| - 1] != "" {
        RouteKeepsInvariant(ReadLines(prefix), ParseLine(lines[|lines| - 1]));
      }
    }
  }

  /** Every course of a parsed chart is filed under its id, which is 0..4, and is
      ready for the timeline builder. */
  lemma ChartCoursesWellFiled(text: string)
    ensures var chart := ChartOf(text);
            forall id :: id in chart.courses ==> id < 5 && chart.courses[id].id == id && WellFormedCourse(chart.courses[id])
  {
    var r := ReadLines(ChartLines(text));
    ReadLinesInvariant(ChartLines(text));
    if |r.group| > 0 {
      FlushFiles(r);
    }
  }

  /** Lines other than global headers never touch the chart's headers, and global
      headers never reach a course. */
  lemma GlobalHeadersApart(r: Reader, p: ParsedLine)
    ensures !(p.Header? && p.scope == GlobalScope) ==> Route(r, p).headers == r.headers
    ensures p.Header? && p.scope == GlobalScope ==> Route(r, p).group == r.group && Route(r, p).courses == r.courses
  {
  }

  /** Every course is built with the BPM that holds when its lines are handed over: a
      BPM header read while the last course's lines are pending reaches that course, and
      leaves the courses already filed alone. */
  lemma LateBpmReachesLastCourse(r: Reader, value: string)
    requires |r.group| > 0
    ensures Finish(Route(r, Header(GlobalScope, "BPM", value))).courses
            == r.courses[CourseOf(ParseFloat(value), r.group).id := CourseOf(ParseFloat(value), r.group)]
  {
  }

  // ---------------------------------------------------------------------------
  // The courses against the groups of course lines

  /** The parsed non-empty lines, in order. */
  function Parsed(lines: seq<string>): seq<ParsedLine>
    decreases |lines|
  {
    if |lines| == 0 then []
    else
      var ps := Parsed(lines[..|lines| - 1]);
      if lines[|lines| - 1] == "" then ps else ps + [ParseLine(lines[|lines| - 1])]
  }

  /** A line that belongs to a course: a course header, a command or data. */
  predicate IsCourseLine(p: ParsedLine) {
    (p.Header? && p.scope == CourseScope) || p.Command? || p.Data?
  }

  /** The course lines among the parsed lines, in order. */
  function CourseLines(ps: seq<ParsedLine>): (cs: seq<ParsedLine>)
    ensures forall i :: 0 <= i < |cs| ==> IsCourseLine(cs[i])
    ensures |cs| > 0 ==> exists i :: 0 <= i < |ps| && IsCourseLine(ps[i])
    decreases |ps|
  {
    if |ps| == 0 then []
    else
      var cs := CourseLines(ps[..|ps| - 1]);
      if IsCourseLine(ps[|ps| - 1]) then cs + [ps[|ps| - 1]] else cs
  }

  /** The course lines cut into groups: a new group at the first line and at every
      COURSE header after it, each other line joining the group before it. */
  function Groups(cs: seq<ParsedLine>): seq<seq<ParsedLine>>
    decreases |cs|
  {
    if |cs| == 0 then [] else Push(Groups(cs[..|cs| - 1]), cs[|cs| - 1])
  }

  /** One more course line: it opens a group when it is the first or a COURSE header,
      and joins the last group otherwise. */
  function Push(gs: seq<seq<ParsedLine>>, p: ParsedLine): seq<seq<ParsedLine>> {
    if |gs| == 0 || IsCourseStart(p) then gs + [[p]]
    else gs[..|gs| - 1] + [gs[|gs| - 1] + [p]]
  }

  /** Courses filed in order, each under its id over any earlier course with that id. */
  function Filed(cs: seq<Course>): map<nat, Course>
    decreases |cs|
  {
    if |cs| == 0 then map[] else Filed(cs[..|cs| - 1])[cs[|cs| - 1].id := cs[|cs| - 1]]
  }

  /** The course each group builds, with the given BPM. */
  function Built(bpm: Option<real>, gs: seq<seq<ParsedLine>>): (cs: seq<Course>)
    ensures |cs| == |gs|
  {
    seq(|gs|, k requires 0 <= k < |gs| => CourseOf(bpm, gs[k]))
  }

  /** The courses of the groups, filed in order. */
  function Files(bpm: Option<real>, gs: seq<seq<ParsedLine>>): map<nat, Course> {
    Filed(Built(bpm, gs))
  }

  lemma FilesPush(bpm: Option<real>, gs: seq<seq<ParsedLine>>)
    requires |gs| > 0
    ensures Files(bpm, gs) == Files(bpm, gs[..|gs| - 1])[CourseOf(bpm, gs[|gs| - 1]).id := CourseOf(bpm, gs[|gs| - 1])]
  {
    var b := Built(bpm, gs);
    assert b[..|gs| - 1] == Built(bpm, gs[..|gs| - 1]);
  }

  predicate IsBpmHeader(p: ParsedLine) {
    p.Header? && p.scope == GlobalScope && p.name == "BPM"
  }

  /** No BPM header comes after the first course line, so that every course is built
      with the BPM the chart ends with. */
  predicate BpmSettled(ps: seq<ParsedLine>) {
    forall i, j :: 0 <= i < j < |ps| && IsCourseLine(ps[i]) ==> !IsBpmHeader(ps[j])
  }

  /** The reader holds the last group, never empty, as the lines being gathered and has
      filed the groups before it. */
  predicate Grouped(r: Reader, gs: seq<seq<ParsedLine>>) {
    if |gs| == 0 then r.group == [] && r.courses == map[]
    else r.group == gs[|gs| - 1] != [] && r.courses == Files(r.headers.bpm, gs[..|gs| - 1])
  }

  /** A course line is gathered, after a flush when it is a COURSE header. */
  lemma RouteCourseLine(r: Reader, gs: seq<seq<ParsedLine>>, p: ParsedLine)
    requires Grouped(r, gs) && IsCourseLine(p)
    ensures Grouped(Route(r, p), Push(gs, p))
  {
    if |gs| == 0 {
      assert Route(r, p).group == [p];
    } else if IsCourseStart(p) {
      RouteCourseStart(r, gs, p);
    } else {
      RouteJoin(r, gs, p);
    }
  }

  lemma RouteCourseStart(r: Reader, gs: seq<seq<ParsedLine>>, p: ParsedLine)
    requires Grouped(r, gs) && |gs| > 0 && IsCourseStart(p)
    ensures Grouped(Route(r, p), Push(gs, p))
  {
    var gs' := Push(gs, p);
    assert gs' == gs + [[p]] && gs'[..|gs'| - 1] == gs;
    var c := CourseOf(r.headers.bpm, r.group);
    FilesPush(r.headers.bpm, gs);
    assert Files(r.headers.bpm, gs) == r.courses[c.id := c];
    assert Route(r, p) == Reader(r.headers, r.courses[c.id := c], [p]);
  }

  lemma RouteJoin(r: Reader, gs: seq<seq<ParsedLine>>, p: ParsedLine)
    requires Grouped(r, gs) && |gs| > 0 && IsCourseLine(p) && !IsCourseStart(p)
    ensures Grouped(Route(r, p), Push(gs, p))
  {
    var gs' := Push(gs, p);
    assert gs' == gs[..|gs| - 1] + [r.group + [p]];
    assert gs'[..|gs'| - 1] == gs[..|gs| - 1];
    assert Route(r, p) == r.(group := r.group + [p]);
  }

  /** A global header or an unknown line leaves the groups as they are, and the BPM too
      unless the line is a BPM header. */
  lemma RouteOtherLine(r: Reader, gs: seq<seq<ParsedLine>>, p: ParsedLine)
    requires Grouped(r, gs) && !IsCourseLine(p)
    requires |gs| > 0 ==> !IsBpmHeader(p)
    ensures Grouped(Route(r, p), gs)
  {
    assert Route(r, p).group == r.group && Route(r, p).courses == r.courses;
    assert !IsBpmHeader(p) ==> Route(r, p).headers.bpm == r.headers.bpm;
  }

  lemma CourseLinesPush(ps: seq<ParsedLine>, p: ParsedLine)
    ensures CourseLines(ps + [p]) == if IsCourseLine(p) then CourseLines(ps) + [p] else CourseLines(ps)
  {
    assert (ps + [p])[..|ps|] == ps;
  }

  lemma GroupsPush(cs: seq<ParsedLine>, p: ParsedLine)
    ensures Groups(cs + [p]) == Push(Groups(cs), p)
  {
    assert (cs + [p])[..|cs|] == cs;
  }

  lemma GroupedStep(r: Reader, ps: seq<ParsedLine>, p: ParsedLine)
    requires Grouped(r, Groups(CourseLines(ps)))
    requires |CourseLines(ps)| > 0 ==> !IsBpmHeader(p)
    ensures Grouped(Route(r, p), Groups(CourseLines(ps + [p])))
  {
    var cs := CourseLines(ps);
    CourseLinesPush(ps, p);
    if IsCourseLine(p) {
      GroupsPush(cs, p);
      RouteCourseLine(r, Groups(cs), p);
    } else {
      RouteOtherLine(r, Groups(cs), p);
    }
  }

  lemma SettledStep(ps: seq<ParsedLine>, p: ParsedLine)
    requires BpmSettled(ps + [p])
    ensures BpmSettled(ps)
    ensures |CourseLines(ps)| > 0 ==> !IsBpmHeader(p)
  {
    var q := ps + [p];
    assert forall i :: 0 <= i < |ps| ==> q[i] == ps[i];
    if |CourseLines(ps)| > 0 {
      var i :| 0 <= i < |ps| && IsCourseLine(ps[i]);
      assert q[i] == ps[i] && q[|ps|] == p;
    }
  }

  lemma {:induction false} ReadLinesGrouped(lines: seq<string>)
    requires BpmSettled(Parsed(lines))
    ensures Grouped(ReadLines(lines), Groups(CourseLines(Parsed(lines))))
    decreases |lines|
  {
    if |lines| > 0 {
      var prefix := lines[..|lines| - 1];
      var line := lines[|lines| - 1];
      assert ReadLines(lines) == ReadLine(ReadLines(prefix), line);
      if line == "" {
        assert Parsed(lines) == Parsed(prefix);
        ReadLinesGrouped(prefix);
      } else {
        var p := ParseLine(line);
        assert Parsed(lines) == Parsed(prefix) + [p];
        SettledStep(Parsed(prefix), p);
        ReadLinesGrouped(prefix);
        GroupedStep(ReadLines(prefix), Parsed(prefix), p);
      }
    }
  }

  /** parseTJA files, under each id, the course built from the last group of course
      lines with that id, when the BPM is settled before the first course line: the
      course lines are split at COURSE headers and the groups filed in order. */
  lemma CoursesGrouped(text: string)
    requires BpmSettled(Parsed(ChartLines(text)))
    ensures ChartOf(text).courses == Files(ChartOf(text).headers.bpm, Groups(CourseLines(Parsed(ChartLines(text)))))
  {
    ReadLinesGrouped(ChartLines(text));
    var gs := Groups(CourseLines(Parsed(ChartLines(text))));
    if |gs| > 0 {
      FilesPush(ChartOf(text).headers.bpm, gs);
    }
  }

  /** The groups one after another. */
  function Flatten(gs: seq<seq<ParsedLine>>): seq<ParsedLine>
    decreases |gs|
  {
    if |gs| == 0 then [] else Flatten(gs[..|gs| - 1]) + gs[|gs| - 1]
  }

  /** Every group is non-empty, every group but the first starts with a COURSE header,
      and no group holds a COURSE header after its first line. */
  predicate CutAtCourses(gs: seq<seq<ParsedLine>>) {
    && (forall k :: 0 <= k < |gs| ==> |gs[k]| > 0)
    && (forall k :: 0 < k < |gs| ==> IsCourseStart(gs[k][0]))
    && (forall k, i :: 0 <= k < |gs| && 0 < i < |gs[k]| ==> !IsCourseStart(gs[k][i]))
  }

  lemma PushFlatten(gs: seq<seq<ParsedLine>>, p: ParsedLine)
    ensures Flatten(Push(gs, p)) == Flatten(gs) + [p]
  {
    var gs' := Push(gs, p);
    if |gs| == 0 || IsCourseStart(p) {
      assert gs'[..|gs'| - 1] == gs;
    } else {
      var n := |gs| - 1;
      assert gs'[..n] == gs[..n];
      assert Flatten(gs') == Flatten(gs[..n]) + (gs[n] + [p]);
    }
  }

  lemma PushCut(gs: seq<seq<ParsedLine>>, p: ParsedLine)
    requires CutAtCourses(gs)
    ensures CutAtCourses(Push(gs, p))
  {
    var gs' := Push(gs, p);
    if |gs| == 0 || IsCourseStart(p) {
      assert forall k :: 0 <= k < |gs| ==> gs'[k] == gs[k];
    } else {
      var n := |gs| - 1;
      assert forall k :: 0 <= k < n ==> gs'[k] == gs[k];
      assert gs'[n] == gs[n] + [p];
      assert forall i :: 0 <= i < |gs[n]| ==> gs'[n][i] == gs[n][i];
    }
  }

  /** The grouping cuts the course lines exactly: the groups spell them in order, and
      each group is one COURSE header's lines (the first group may lack the header). */
  lemma GroupsShape(cs: seq<ParsedLine>)
    ensures Flatten(Groups(cs)) == cs
    ensures CutAtCourses(Groups(cs))
  {
    GroupsSpell(cs);
    GroupsCut(cs);
  }

  lemma {:induction false} GroupsSpell(cs: seq<ParsedLine>)
    ensures Flatten(Groups(cs)) == cs
    decreases |cs|
  {
    if |cs| > 0 {
      var prefix, p := cs[..|cs| - 1], cs[|cs| - 1];
      assert Groups(cs) == Push(Groups(prefix), p);
      GroupsSpell(prefix);
      PushFlatten(Groups(prefix), p);
      assert prefix + [p] == cs;
    }
  }

  lemma {:induction false} GroupsCut(cs: seq<ParsedLine>)
    ensures CutAtCourses(Groups(cs))
    decreases |cs|
  {
    if |cs| > 0 {
      var prefix, p := cs[..|cs| - 1], cs[|cs| - 1];
      assert Groups(cs) == Push(Groups(prefix), p);
      GroupsCut(prefix);
      PushCut(Groups(prefix), p);
    }
  }

  /** A course is filed under an id exactly when some course has it. */
  lemma {:induction false} FiledKeys(cs: seq<Course>, id: nat)
    ensures id in Filed(cs) <==> exists k :: 0 <= k < |cs| && cs[k].id == id
    decreases |cs|
  {
    if |cs| > 0 {
      var n := |cs| - 1;
      FiledKeys(cs[..n], id);
      if exists k :: 0 <= k < |cs| && cs[k].id == id {
        var k :| 0 <= k < |cs| && cs[k].id == id;
        if k < n {
          assert cs[..n][k] == cs[k];
        }
      }
    }
  }

  /** The later course wins: under an id is the last course with that id. */
  lemma {:induction false} FiledLast(cs: seq<Course>, k: nat)
    requires k < |cs|
    requires forall j :: k < j < |cs| ==> cs[j].id != cs[k].id
    ensures cs[k].id in Filed(cs) && Filed(cs)[cs[k].id] == cs[k]
    decreases |cs|
  {
    var n := |cs| - 1;
    if k < n {
      assert cs[..n][k] == cs[k];
      FiledLast(cs[..n], k);
    }
  }

  /** In a parsed chart whose BPM is settled before the first course line, the course
      under an id is the one built from the last group of course lines with that id,
      and an id is filed only when some group has it. */
  lemma ChartCourseIsLastGroup(text: string, id: nat)
    requires BpmSettled(Parsed(ChartLines(text)))
    ensures var cs := Built(ChartOf(text).headers.bpm, Groups(CourseLines(Parsed(ChartLines(text)))));
            && (id in ChartOf(text).courses <==> exists k :: 0 <= k < |cs| && cs[k].id == id)
            && forall k :: 0 <= k < |cs| && cs[k].id == id && (forall j :: k < j < |cs| ==> cs[j].id != id) ==>
                 id in ChartOf(text).courses && ChartOf(text).courses[id] == cs[k]
  {
    CoursesGrouped(text);
    var cs := Built(ChartOf(text).headers.bpm, Groups(CourseLines(Parsed(ChartLines(text)))));
    FiledKeys(cs, id);
    forall k | 0 <= k < |cs| && cs[k].id == id && (forall j :: k < j < |cs| ==> cs[j].id != id)
      ensures id in ChartOf(text).courses && ChartOf(text).courses[id] == cs[k]
    {
      FiledLast(cs, k);
    }
  }
}
