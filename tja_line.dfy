/** Classification of one line of a TJA chart (parseLine in src/js/parseTJA.js):
    a comment is cut off, then the line is tried as a header NAME:value, then as a
    command #NAME value, then as a note-data fragment; anything else is unknown. */
module TjaLine {
  import opened Text

  /** The header names the parser keeps at chart level. */
  predicate IsGlobalHeader(name: string) {
    || name == "TITLE" || name == "SUBTITLE" || name == "BPM" || name == "WAVE"
    || name == "OFFSET" || name == "DEMOSTART" || name == "GENRE"
  }

  /** The header names the parser keeps per course. */
  predicate IsCourseHeader(name: string) {
    || name == "COURSE" || name == "LEVEL" || name == "BALLOON" || name == "SCOREINIT"
    || name == "SCOREDIFF" || name == "TTROWBEAT"
  }

  /** The command names the parser recognises. */
  predicate IsCommand(name: string) {
    || name == "START" || name == "END" || name == "GOGOSTART" || name == "GOGOEND"
    || name == "MEASURE" || name == "SCROLL" || name == "BPMCHANGE" || name == "DELAY"
    || name == "BRANCHSTART" || name == "BRANCHEND" || name == "SECTION" || name == "N"
    || name == "E" || name == "M" || name == "LEVELHOLD" || name == "BMSCROLL"
    || name == "HBSCROLL" || name == "BARLINEOFF" || name == "BARLINEON" || name == "TTBREAK"
  }

  datatype Scope = GlobalScope | CourseScope

  datatype ParsedLine =
    | Header(scope: Scope, name: string, value: string)
    | Command(name: string, value: string)
    | Data(data: string)
    | Unknown(value: string)

  // ---------------------------------------------------------------------------
  // Comments

  /** s holds no "//". */
  predicate NoComment(s: string) {
    forall i :: 0 <= i < |s| - 1 ==> !(s[i] == '/' && s[i + 1] == '/')
  }

  /** The index of the first "//" in s. */
  function CommentStart(s: string): (r: Option<nat>)
    ensures r.None? <==> NoComment(s)
    ensures r.Some? ==> r.value + 1 < |s| && s[r.value] == '/' && s[r.value + 1] == '/'
    ensures r.Some? ==> NoComment(s[..r.value + 1])
    decreases |s|
  {
    if |s| < 2 then None
    else if s[0] == '/' && s[1] == '/' then Some(0)
    else
      match CommentStart(s[1..])
      case None => None
      case Some(i) =>
        assert s[..i + 2] == [s[0]] + s[1..][..i + 1];
        Some(i + 1)
  }

  lemma NoCommentSlice(s: string, a: nat, b: nat)
    requires NoComment(s) && a <= b <= |s|
    ensures NoComment(s[a..b])
  {
    assert forall j :: 0 <= j < b - a ==> s[a..b][j] == s[a + j];
  }

  lemma TrimNoComment(x: string)
    requires NoComment(x)
    ensures NoComment(Trim(x))
  {
    var a := |x| - |TrimStart(x)|;
    TrimShape(x);
    NoCommentSlice(x, a, a + |Trim(x)|);
  }

  /** The line with everything from the first "//" dropped and the rest trimmed;
      a line without a comment is left as it is. */
  function StripComment(line: string): (s: string)
    ensures NoComment(s)
  {
    match CommentStart(line)
    case None => line
    case Some(i) =>
      NoCommentSlice(line[..i + 1], 0, i);
      assert line[..i + 1][0..i] == line[..i];
      TrimNoComment(line[..i]);
      Trim(line[..i])
  }

  // ---------------------------------------------------------------------------
  // The three line shapes

  /** /^([A-Z]+):(.+)/i: the name and the raw value, or None. */
  function HeaderMatch(s: string): Option<(string, string)>
  {
    var n := Span(s, IsLetter);
    if 0 < n < |s| && s[n] == ':' then
      var v := Span(s[n + 1..], NotLineTerminator);
      if v > 0 then Some((s[..n], s[n + 1..n + 1 + v])) else None
    else None
  }

  /** /^#([A-Z]+)(?:\s+(.+))?/i: the name and the argument ("" when absent), or None.
      When the white space after the name is followed by nothing the regex can take,
      the engine backtracks into the white space; the captured argument is then white
      space only, which the caller's trim() turns into "", and that is what this returns. */
  function CommandMatch(s: string): Option<(string, string)>
  {
    if |s| > 0 && s[0] == '#' then
      var n := Span(s[1..], IsLetter);
      if n == 0 then None
      else
        var rest := s[1 + n..];
        var w := Span(rest, IsSpace);
        var after := rest[w..];
        var v := Span(after, NotLineTerminator);
        Some((s[1..1 + n], if w > 0 && v > 0 then after[..v] else ""))
    else None
  }

  /** /^([0-9]*,?)$/: digits, optionally ending in one comma (the empty string too). */
  predicate IsDataShape(s: string) {
    AllDigits(s) || (|s| > 0 && s[|s| - 1] == ',' && AllDigits(s[..|s| - 1]))
  }

  /** The classification of a line whose comment is already dropped: header first,
      then command, then data; a line of header or command shape with an unknown name
      is unknown and is not tried further. */
  function Classify(s: string): ParsedLine
  {
    Decide(s, HeaderMatch(s), CommandMatch(s))
  }

  /** The classification, given what the header and the command pattern capture. */
  function Decide(s: string, header: Option<(string, string)>, command: Option<(string, string)>): ParsedLine
  {
    match header
    case Some((name, value)) =>
      var upper := ToUpper(name);
      if IsGlobalHeader(upper) then Header(GlobalScope, upper, Trim(value))
      else if IsCourseHeader(upper) then Header(CourseScope, upper, Trim(value))
      else Unknown(s)
    case None =>
      match command
      case Some((name, value)) =>
        var upper := ToUpper(name);
        if IsCommand(upper) then Command(upper, Trim(value)) else Unknown(s)
      case None =>
        if IsDataShape(s) then Data(s) else Unknown(s)
  }

  /** parseLine: the comment is dropped, then the rest is classified. */
  function ParseLine(line: string): ParsedLine
  {
    Classify(StripComment(line))
  }

  /** A header's name is a known header name of its scope and a command's a known
      command, both with a trimmed value; data is of data shape and is the text itself;
      an unknown line keeps its text. */
  lemma DecideMeaning(s: string, header: Option<(string, string)>, command: Option<(string, string)>)
    ensures Decide(s, header, command).Header? ==>
              if Decide(s, header, command).scope == GlobalScope then IsGlobalHeader(Decide(s, header, command).name)
              else IsCourseHeader(Decide(s, header, command).name)
    ensures Decide(s, header, command).Command? ==> IsCommand(Decide(s, header, command).name)
    ensures Decide(s, header, command).Header? || Decide(s, header, command).Command? ==>
              Trimmed(Decide(s, header, command).value)
    ensures Decide(s, header, command).Data? ==> IsDataShape(Decide(s, header, command).data) && Decide(s, header, command).data == s
    ensures Decide(s, header, command).Unknown? ==> Decide(s, header, command).value == s
  {
  }

  lemma ClassifyMeaning(s: string)
    ensures Classify(s).Header? ==>
              if Classify(s).scope == GlobalScope then IsGlobalHeader(Classify(s).name) else IsCourseHeader(Classify(s).name)
    ensures Classify(s).Command? ==> IsCommand(Classify(s).name)
    ensures Classify(s).Header? || Classify(s).Command? ==> Trimmed(Classify(s).value)
    ensures Classify(s).Data? ==> IsDataShape(Classify(s).data) && Classify(s).data == s
    ensures Classify(s).Unknown? ==> Classify(s).value == s
  {
    DecideMeaning(s, HeaderMatch(s), CommandMatch(s));
  }

  /** As ClassifyMeaning, for a whole line with its comment cut. */
  lemma ParseLineMeaning(line: string)
    ensures ParseLine(line).Header? ==>
              if ParseLine(line).scope == GlobalScope then IsGlobalHeader(ParseLine(line).name) else IsCourseHeader(ParseLine(line).name)
    ensures ParseLine(line).Command? ==> IsCommand(ParseLine(line).name)
    ensures ParseLine(line).Header? || ParseLine(line).Command? ==> Trimmed(ParseLine(line).value)
    ensures ParseLine(line).Data? ==> IsDataShape(ParseLine(line).data) && ParseLine(line).data == StripComment(line)
    ensures ParseLine(line).Unknown? ==> ParseLine(line).value == StripComment(line)
  {
    ClassifyMeaning(StripComment(line));
  }

  // ---------------------------------------------------------------------------
  // What the classification means

  /** s starts with a header name of k letters, a colon and a character '.' matches. */
  predicate HeaderShape(s: string, k: nat) {
    0 < k && k + 1 < |s| && AllLetters(s[..k]) && s[k] == ':' && !IsLineTerminator(s[k + 1])
  }

  /** The header value the regex captures after the colon at k. */
  function HeaderValue(s: string, k: nat): string
    requires k < |s|
  {
    s[k + 1..k + 1 + Span(s[k + 1..], NotLineTerminator)]
  }

  lemma {:induction false} SpanOfLetters(s: string, k: nat)
    requires k <= |s| && AllLetters(s[..k]) && (k == |s| || !IsLetter(s[k]))
    ensures Span(s, IsLetter) == k
    decreases k
  {
    if k > 0 {
      assert s[1..][..k - 1] == s[1..k];
      SpanOfLetters(s[1..], k - 1);
    }
  }

  /** Header first: a line of header shape is a header when its name, upper-cased, is a
      global or course header name, and is unknown otherwise; it is never retried as a
      command or as data. */
  lemma HeaderPriority(line: string, k: nat)
    requires HeaderShape(StripComment(line), k)
    ensures var s := StripComment(line);
            var upper := ToUpper(s[..k]);
            ParseLine(line) ==
              if IsGlobalHeader(upper) then Header(GlobalScope, upper, Trim(HeaderValue(s, k)))
              else if IsCourseHeader(upper) then Header(CourseScope, upper, Trim(HeaderValue(s, k)))
              else Unknown(s)
  {
    var s := StripComment(line);
    SpanOfLetters(s, k);
    assert Span(s[k + 1..], NotLineTerminator) > 0;
    assert HeaderMatch(s) == Some((s[..k], HeaderValue(s, k)));
  }

  /** A header is only ever produced from a line of header shape. */
  lemma HeaderHasShape(line: string)
    requires ParseLine(line).Header?
    ensures HeaderShape(StripComment(line), Span(StripComment(line), IsLetter))
    ensures ParseLine(line).name == ToUpper(StripComment(line)[..Span(StripComment(line), IsLetter)])
    ensures ParseLine(line).value == Trim(HeaderValue(StripComment(line), Span(StripComment(line), IsLetter)))
  {
    ClassifiedHeader(StripComment(line));
  }

  lemma ClassifiedHeader(s: string)
    requires Classify(s).Header?
    ensures HeaderShape(s, Span(s, IsLetter))
    ensures Classify(s).name == ToUpper(s[..Span(s, IsLetter)])
    ensures Classify(s).value == Trim(HeaderValue(s, Span(s, IsLetter)))
  {
    DecidedHeader(s, HeaderMatch(s), CommandMatch(s));
    HeaderMatchShape(s);
  }

  /** Only a header capture is decided a header, under its upper-cased name. */
  lemma DecidedHeader(s: string, header: Option<(string, string)>, command: Option<(string, string)>)
    requires Decide(s, header, command).Header?
    ensures header.Some?
    ensures Decide(s, header, command).name == ToUpper(header.value.0)
    ensures Decide(s, header, command).value == Trim(header.value.1)
  {
  }

  /** What the header pattern captures: the letters before the colon and the value. */
  lemma HeaderMatchShape(s: string)
    requires HeaderMatch(s).Some?
    ensures HeaderShape(s, Span(s, IsLetter))
    ensures HeaderMatch(s).value == (s[..Span(s, IsLetter)], HeaderValue(s, Span(s, IsLetter)))
  {
    var k := Span(s, IsLetter);
    assert s[k + 1..][0] == s[k + 1];
  }

  /** The first line of s: everything before its first line terminator. */
  function FirstLine(s: string): (r: string)
    ensures r <= s
    ensures forall i :: 0 <= i < |r| ==> NotLineTerminator(r[i])
    ensures |r| == |s| || IsLineTerminator(s[|r|])
  {
    s[..Span(s, NotLineTerminator)]
  }

  /** The argument of a command whose name is the k letters after the '#': nothing
      unless white space follows the name, else the first line of what follows that
      white space. */
  function CommandArgument(s: string, k: nat): string
    requires 1 + k <= |s|
  {
    var rest := s[1 + k..];
    if |rest| > 0 && IsSpace(rest[0]) then FirstLine(TrimStart(rest)) else ""
  }

  /** A line of command shape whose name is known is that command, with its argument
      trimmed; with an unknown name it is unknown. */
  lemma CommandPriority(line: string, k: nat)
    requires var s := StripComment(line);
             |s| > 0 && s[0] == '#' && 0 < k && 1 + k <= |s| && AllLetters(s[1..1 + k])
             && (1 + k == |s| || !IsLetter(s[1 + k]))
    ensures var s := StripComment(line);
            var upper := ToUpper(s[1..1 + k]);
            ParseLine(line).Command? <==> IsCommand(upper)
    ensures ParseLine(line).Command? ==> ParseLine(line).name == ToUpper(StripComment(line)[1..1 + k])
    ensures ParseLine(line).Command? ==> ParseLine(line).value == Trim(CommandArgument(StripComment(line), k))
  {
    var s := StripComment(line);
    assert s[1..][..k] == s[1..1 + k];
    SpanOfLetters(s[1..], k);
    assert Span(s, IsLetter) == 0;
    var rest := s[1 + k..];
    assert s[1..][k..] == rest;
    var w := Span(rest, IsSpace);
    if w > 0 {
      assert rest[0] == s[1 + k] && IsSpace(rest[0]);
      assert TrimStart(rest) == rest[w..];
    }
    assert CommandMatch(s) == Some((s[1..1 + k], CommandArgument(s, k)));
  }

  /** The command pattern on "#name arg": the name, then the argument after the blank. */
  lemma CommandMatchArgument(name: string, arg: string)
    requires |name| > 0 && AllLetters(name)
    requires Trimmed(arg) && forall i :: 0 <= i < |arg| ==> NotLineTerminator(arg[i])
    ensures HeaderMatch("#" + name + " " + arg).None?
    ensures CommandMatch("#" + name + " " + arg) == Some((name, arg))
  {
    var line := "#" + name + " " + arg;
    var k := |name|;
    assert line[1..][..k] == name;
    SpanOfLetters(line[1..], k);
    assert Span(line, IsLetter) == 0;
    var rest := line[1 + k..];
    assert line[1..][k..] == rest;
    assert rest == " " + arg && rest[1..] == arg;
    assert Span(rest, IsSpace) == 1;
    assert Span(arg, NotLineTerminator) == |arg|;
    assert rest[1..][..|arg|] == arg;
    assert line[0] == '#' && line[1..1 + k] == name;
  }

  /** A known command written "#NAME arg", with a single blank before an argument that
      is trimmed and holds no line terminator (as in "#BPMCHANGE 120"), carries exactly
      that argument. */
  lemma CommandWithArgument(name: string, arg: string)
    requires |name| > 0 && AllLetters(name) && IsCommand(ToUpper(name))
    requires Trimmed(arg) && forall i :: 0 <= i < |arg| ==> NotLineTerminator(arg[i])
    requires NoComment("#" + name + " " + arg)
    ensures ParseLine("#" + name + " " + arg) == Command(ToUpper(name), arg)
  {
    CommandMatchArgument(name, arg);
    TrimKeeps(arg);
  }

  /** A command line with nothing after its name has the empty argument. */
  lemma CommandWithoutArgument(line: string)
    requires var s := StripComment(line);
             |s| > 1 && s[0] == '#' && AllLetters(s[1..])
    requires IsCommand(ToUpper(StripComment(line)[1..]))
    ensures ParseLine(line) == Command(ToUpper(StripComment(line)[1..]), "")
  {
    var s := StripComment(line);
    assert s[1..][..|s| - 1] == s[1..];
    SpanOfLetters(s[1..], |s| - 1);
    assert Span(s, IsLetter) == 0;
    assert s[1..1 + (|s| - 1)] == s[1..];
    assert s[1 + (|s| - 1)..] == "";
    assert CommandMatch(s) == Some((s[1..], ""));
    assert HeaderMatch(s).None?;
    assert Trim("") == "";
    assert Classify(s) == Command(ToUpper(s[1..]), "");
  }

  /** Data last: a line is a data fragment exactly when, comment dropped, it is digits
      optionally ending in one comma; the fragment is that text. */
  lemma DataIff(line: string)
    ensures ParseLine(line).Data? <==> IsDataShape(StripComment(line))
  {
    var s := StripComment(line);
    if IsDataShape(s) {
      DataShapeMatchesNothing(s);
      assert Classify(s) == Data(s);
    } else {
      DecideMeaning(s, HeaderMatch(s), CommandMatch(s));
    }
  }

  /** A line of data shape starts with neither a letter nor '#'. */
  lemma DataShapeMatchesNothing(s: string)
    requires IsDataShape(s)
    ensures HeaderMatch(s).None? && CommandMatch(s).None?
  {
    if |s| > 0 {
      assert IsDigit(s[0]) || s[0] == ',';
      assert Span(s, IsLetter) == 0;
    }
  }

  // ---------------------------------------------------------------------------
  // Comments are dropped before anything else

  lemma {:induction false} CommentStartAfter(a: string, b: string)
    requires NoComment(a) && (|a| == 0 || a[|a| - 1] != '/')
    ensures CommentStart(a + "//" + b) == Some(|a|)
    decreases |a|
  {
    if |a| > 0 {
      assert (a + "//" + b)[1..] == a[1..] + "//" + b;
      CommentStartAfter(a[1..], b);
    }
  }

  lemma StripCommentIdempotent(line: string)
    ensures StripComment(StripComment(line)) == StripComment(line)
  {
  }

  /** Classifying a line is classifying it with its comment dropped. */
  lemma CommentIgnored(line: string)
    ensures ParseLine(StripComment(line)) == ParseLine(line)
  {
    StripCommentIdempotent(line);
    assert ParseLine(StripComment(line)) == Classify(StripComment(StripComment(line)));
  }

  /** Everything from the first "//" on plays no part: the line reads as the text
      before it, trimmed. */
  lemma CommentCut(a: string, b: string)
    requires NoComment(a) && (|a| == 0 || a[|a| - 1] != '/')
    ensures ParseLine(a + "//" + b) == ParseLine(Trim(a))
  {
    CommentStartAfter(a, b);
    assert (a + "//" + b)[..|a|] == a;
    assert StripComment(a + "//" + b) == Trim(a);
    StripCommentIdempotent(a + "//" + b);
    assert ParseLine(Trim(a)) == Classify(StripComment(Trim(a)));
  }
}
