# tja-tools chart parser and analyser, in Dafny

This project models the core of tja-tools: a reader for TJA charts (the text format of
the Taiko no Tatsujin rhythm game) and the analysis it draws from one course of a chart.

- **Chart parsing** (`src/js/parseTJA.js`).
  - `parseLine` classifies one line as a header `NAME:value`, a command `#NAME value`,
    a note-data fragment (digits, optionally ending in a comma) or an unknown line,
    after cutting off a `//` comment.
  - `getCourse` folds the lines of one course into its headers and its measures. A
    fragment ending in `,` seals a measure. `#MEASURE n/d` sets the time signature,
    and `#GOGOSTART`, `#GOGOEND`, `#SCROLL` and `#BPMCHANGE` become events positioned in
    the note data. The first measure receives an opening BPM event, and the course
    name maps to an id 0..4.
  - `parseTJA` splits the text into lines, applies the global headers and gathers each
    course's lines. It hands them to `getCourse` at the next `COURSE:` header or at
    the end, and files the course under its id, over any earlier course with that id.
- **Chart analysis** (`src/js/analyseChart.js`).
  - `convertToTimed` lays the measures end to end on one beat axis. It keeps the BPM
    and go-go events, turns note characters into notes and hands out the `BALLOON`
    counts in order.
  - `pulseToTime` gives every note the time of its beat under the tempo changes.
  - `getStatistics` counts hits and combo and computes the potential score by combo
    tier and go-go time. An end note closes the open renda, else the open balloon.
    A renda or balloon opened at time 0 is never closed, and a new renda or balloon
    replaces an open one of its kind.
  - `getGraph` bins the hits into 100 time frames of equal length.
  - The default export runs these three on one course of a parsed chart.

Every operation is written twice. A method follows the source's loops. A function
states the result as a fold over the input. Each method is proved equal to its
function, and the properties below are proved about the functions. JavaScript's NaN,
and `undefined` read past the end of a list, are modelled as `None`. Beats, times and
tempos are exact reals, and scores are unbounded integers.

The modules, one per file, follow the source's structure:
- `Text`: the string and number primitives of JavaScript.
- `TjaLine`: `parseLine`.
- `TjaCourse`: `getCourse`.
- `TjaChart`: `parseTJA`.
- `Timing`: `pulseToTime`.
- `Timeline`: `convertToTimed`.
- `Statistics`: `getStatistics`.
- `Graph`: `getGraph`.
- `Analyse`: the default export.

The graph is modelled as written. The frame that holds the latest hit is still open
when the note loop ends, and it is never stored: its hits do not appear in the graph
(`Graph.GraphBins`, `Graph.LastFrameDropped`). When the last note is a hit at the full
length, that frame is frame 100, one past the stored ones, and nothing visible is
lost. When the last hit comes earlier, for example before a closing roll end, the
hits of its frame are missing from the graph.

## Model

| member | source | states |
|---|---|---|
| Text.UpperChar | src/js/parseTJA.js:55 | an ASCII letter maps to an upper-case letter with the same lower-case form; any other character is kept |
| Text.LowerChar | src/js/parseTJA.js:242 | an ASCII letter maps to a lower-case letter; any other character is kept |
| Text.ToUpper | src/js/parseTJA.js:55 | toUpperCase keeps the length and maps every character by UpperChar |
| Text.ToLower | src/js/parseTJA.js:242 | toLowerCase keeps the length and maps every character by LowerChar |
| Text.LowerOfUpper | src/js/parseTJA.js:242 | lower-casing an upper-cased name is lower-casing the name itself |
| Text.Span | src/js/parseTJA.js:53 | the greedy run of a character class: every character before n is in the class, the one at n (if any) is not |
| Text.TrimStart | src/js/parseTJA.js:273 | the result is a suffix of the input, only white space is dropped, and it does not start with white space |
| Text.TrimEnd | src/js/parseTJA.js:273 | the result is a prefix of the input, only white space is dropped, and it does not end with white space |
| Text.Trim | src/js/parseTJA.js:273 | trim() is no longer than its input and has no white space at either end |
| Text.TrimShape | src/js/parseTJA.js:273 | trim() is the substring of the input with only white space before and after it |
| Text.TrimStartKeeps | src/js/parseTJA.js:273 | a string not starting with white space is kept by trimStart |
| Text.TrimIdempotent | src/js/parseTJA.js:273 | trimming a trimmed string changes nothing |
| Text.ParseInt | src/js/parseTJA.js:128 | parseInt(s, 10) is NaN exactly when no digit follows the leading white space and optional sign |
| Text.ParseIntOfNat | src/js/parseTJA.js:128 | parseInt reads back any whole number written in decimal, with or without a minus sign |
| Text.ParseFloatOfNat | src/js/parseTJA.js:308 | parseFloat reads a string of decimal digits as that whole number |
| Text.Split | src/js/parseTJA.js:133 | split on a character class gives one piece more than there are separators |
| Text.SplitPiecesFree | src/js/parseTJA.js:133 | no piece holds a separator |
| Text.SplitInterleave | src/js/parseTJA.js:133 | the pieces with the separators between them spell the input again |
| Text.SplitNoSeparator | src/js/parseTJA.js:133 | a string without separators is a single piece |
| Text.SplitAtSeparator | src/js/parseTJA.js:133 | a separator splits the text on its two sides independently |
| Text.NonEmpty | src/js/parseTJA.js:134 | the filter keeps exactly the non-empty pieces: every piece kept is non-empty and from the input, every non-empty piece is kept |
| Text.NonEmptyAppend | src/js/parseTJA.js:134 | the filter distributes over concatenation |
| TjaLine.CommentStart | src/js/parseTJA.js:49 | None exactly when the line holds no "//"; otherwise the index of the first "//" |
| TjaLine.StripComment | src/js/parseTJA.js:48-50 | the line left once the comment is cut holds no "//" |
| TjaLine.ClassifyMeaning | src/js/parseTJA.js:52-100 | a header's name is a known header of its scope, a command's name a known command, both with trimmed values; data is of data shape and is the text itself; an unknown line keeps the text |
| TjaLine.DecideMeaning | src/js/parseTJA.js:53-100 | whichever of the header and command matches is offered, a header carries a known header name of its scope, a command a known command, both with trimmed values; data is of data shape |
| TjaLine.ParseLineMeaning | src/js/parseTJA.js:1-101 | as ClassifyMeaning for the line with its comment cut: data and unknown lines keep that text |
| TjaLine.HeaderPriority | src/js/parseTJA.js:53-74 | a line of header shape is a global header, a course header or unknown, by its upper-cased name, with the value trimmed; it is never tried as a command or as data |
| TjaLine.HeaderHasShape | src/js/parseTJA.js:53-74 | a header comes only from a line of header shape; its name is the leading letters upper-cased and its value the trimmed rest after the colon |
| TjaLine.CommandPriority | src/js/parseTJA.js:75-87 | a line of command shape is a command exactly when its upper-cased name is a known command, and then carries that name and, as value, the trimmed CommandArgument: nothing unless white space follows the name, else the first line of what follows that white space |
| TjaLine.FirstLine | src/js/parseTJA.js:75 | the text the regex `.+` can take: a prefix free of line terminators that stops at the first one |
| TjaLine.CommandMatchArgument | src/js/parseTJA.js:75-78 | on "#name arg" with a trimmed, single-line arg the header pattern fails and the command pattern captures the name and arg |
| TjaLine.CommandWithArgument | src/js/parseTJA.js:75-86 | a known command written "#NAME arg" (as "#BPMCHANGE 120") parses to that command with exactly arg as value |
| TjaLine.CommandWithoutArgument | src/js/parseTJA.js:78 | a known command with nothing after its name has the empty argument |
| TjaLine.DataIff | src/js/parseTJA.js:88-95 | a line is data exactly when, with its comment cut, it is digits optionally ending in one comma |
| TjaLine.CommentStartAfter | src/js/parseTJA.js:49 | the first "//" after text without one is found at the end of that text |
| TjaLine.StripCommentIdempotent | src/js/parseTJA.js:48-50 | cutting the comment twice is cutting it once |
| TjaLine.CommentIgnored | src/js/parseTJA.js:48-50 | classifying a line is classifying it with its comment cut |
| TjaLine.CommentCut | src/js/parseTJA.js:48-50 | nothing from the first "//" on plays a part: the line reads as the trimmed text before it |
| TjaCourse.BalloonCountsSeparate | src/js/parseTJA.js:131-137 | any non-digit character separates two BALLOON lists |
| TjaCourse.BalloonCountsOfRun | src/js/parseTJA.js:131-137 | a run of digits is a single count, its decimal value |
| TjaCourse.BalloonCountsRoundTrip | src/js/parseTJA.js:131-137 | counts written with any non-digit separator read back as those counts |
| TjaCourse.DigitRuns | src/js/parseTJA.js:131-137 | every non-empty piece of a BALLOON value split on non-digits is a run of digits |
| TjaCourse.NoSlashNoSignature | src/js/parseTJA.js:154-155 | a MEASURE argument without '/' has no signature, so the signature is left as it is |
| TjaCourse.SignatureOf | src/js/parseTJA.js:154-158 | "n/d" after text without digits, and not followed by a digit, reads as dividend n and divisor d |
| TjaCourse.SkipNonDigits | src/js/parseTJA.js:154 | text without digits before the signature is passed over |
| TjaCourse.WithOpeningBpm | src/js/parseTJA.js:218-238 | the first measure gets a BPM event at position 0 carrying the chart's BPM unless it already has one; every other measure and event is unchanged |
| TjaCourse.CourseId | src/js/parseTJA.js:240-264 | the id is below 5, and is the course the name spells (in words or as a digit, in any case), or 0 when it spells none |
| TjaCourse.NamesExclusive | src/js/parseTJA.js:244-264 | no spelling names two courses |
| TjaCourse.CourseIdOfName | src/js/parseTJA.js:244-264 | a name that spells course k gets id k |
| TjaCourse.CourseIdIgnoresCase | src/js/parseTJA.js:242 | the id does not depend on the case of the name |
| TjaCourse.OpenWithBpm | src/js/parseTJA.js:218-238 | the search for an opening BPM event and the insertion compute WithOpeningBpm |
| TjaCourse.GetCourse | src/js/parseTJA.js:103-268 | the loop over the lines computes CourseOf: the fold of the lines, then the opening BPM, then the course id |
| TjaCourse.MeasureCount | src/js/parseTJA.js:196-215 | there is one measure per comma-terminated fragment |
| TjaCourse.NotesPreserved | src/js/parseTJA.js:196-215 | the measures' note data followed by the pending buffer is exactly all fragments read, commas dropped |
| TjaCourse.StepKeepsNotes | src/js/parseTJA.js:121-195 | headers, commands and unknown lines leave the measures and the note buffer alone |
| TjaCourse.StepKeepsPositions | src/js/parseTJA.js:161-213 | one line keeps every measure's and the buffer's events in order and within the note data |
| TjaCourse.CommandStepKeepsPositions | src/js/parseTJA.js:161-189 | a command keeps every measure's and the buffer's events in order and within the note data |
| TjaCourse.PositionsInOrder | src/js/parseTJA.js:161-189 | in every measure the event positions are in list order and lie within its note data |
| TjaCourse.SignatureTracked | src/js/parseTJA.js:153-159 | the signature is that of the last MEASURE command with n/d, and 4/4 before any |
| TjaCourse.StepSignature | src/js/parseTJA.js:153-159 | only a MEASURE command with n/d changes the signature, to n/d |
| TjaCourse.Sealing | src/js/parseTJA.js:199-213 | a comma-terminated fragment seals one measure from the buffer plus the fragment, with the current signature, break flag and events, and empties the buffers |
| TjaCourse.TrailingFragmentDropped | src/js/parseTJA.js:214-216 | a trailing fragment without a comma never becomes a measure |
| TjaCourse.CourseWellPositioned | src/js/parseTJA.js:103-268 | every assembled measure has its events in order within its note data, the first opens with a BPM event, and there is one measure per seal |
| TjaCourse.OpeningBpmKeepsPositions | src/js/parseTJA.js:231-237 | inserting the opening BPM event at position 0 keeps every measure well positioned |
| TjaChart.SplitKeepingBreaks | src/js/parseTJA.js:272 | split with a capturing group yields an odd number of pieces |
| TjaChart.SplitKeepingBreaksConcat | src/js/parseTJA.js:272 | the texts and the captured breaks spell the input again |
| TjaChart.SplitKeepingBreaksParts | src/js/parseTJA.js:272 | the texts at even places hold no line break, and the pieces at odd places are "\r\n", "\r" or "\n" |
| TjaChart.BreaksTrimAway | src/js/parseTJA.js:272-273 | every captured break trims to an empty line, which the loop skips |
| TjaChart.Dispatch | src/js/parseTJA.js:295-344 | one parsed line updates headers, courses and gathered lines as Route does |
| TjaChart.ReadOne | src/js/parseTJA.js:291-345 | the loop body reads one line as ReadLine does: trims it, skips it when empty, else parses and routes it |
| TjaChart.ReadLinesStep | src/js/parseTJA.js:291-345 | reading one more line is one more ReadLine step |
| TjaChart.ParseTja | src/js/parseTJA.js:270-354 | the loop over the lines and the final hand-over compute ChartOf |
| TjaChart.FlushFiles | src/js/parseTJA.js:330-334 | handing over the gathered lines keeps every course filed under its own id and well formed |
| TjaChart.RouteKeepsInvariant | src/js/parseTJA.js:295-344 | one line keeps the courses well filed, and the gathered lines hold only course lines with COURSE first if at all |
| TjaChart.ReadLinesInvariant | src/js/parseTJA.js:291-345 | the invariant holds after any number of lines |
| TjaChart.ChartCoursesWellFiled | src/js/parseTJA.js:330-350 | every course of a parsed chart is filed under its own id, which is below 5, has its events in order and opens with a BPM event |
| TjaChart.GlobalHeadersApart | src/js/parseTJA.js:297-344 | lines other than global headers never change the chart's headers, and global headers never reach a course |
| TjaChart.LateBpmReachesLastCourse | src/js/parseTJA.js:309-350 | a course is built with the BPM in force when its lines are handed over: a BPM header read while the last course's lines are pending gives that course the new BPM and leaves the courses already filed unchanged |
| TjaChart.CourseLines | src/js/parseTJA.js:327-343 | the lines a course gathers are course headers, commands and data, and there are some only when the parsed lines hold one |
| TjaChart.GroupsShape | src/js/parseTJA.js:327-343 | the groups spell the course lines in order; each is non-empty, each after the first starts with a COURSE header, and none holds a COURSE header after its first line |
| TjaChart.RouteCourseLine | src/js/parseTJA.js:327-343 | a course line is gathered into the last group, or opens a new one when it is the first or a COURSE header, the previous group then being filed |
| TjaChart.RouteCourseStart | src/js/parseTJA.js:328-335 | a COURSE header after gathered lines files their course under its id and starts a new group with itself |
| TjaChart.RouteJoin | src/js/parseTJA.js:337-343 | any other course line joins the group being gathered and files nothing |
| TjaChart.RouteOtherLine | src/js/parseTJA.js:297-325 | a global header or an unknown line leaves groups and filed courses alone, and the BPM unless it is a BPM header |
| TjaChart.GroupedStep | src/js/parseTJA.js:291-345 | one parsed line keeps the reader holding the last group and having filed the earlier ones |
| TjaChart.ReadLinesGrouped | src/js/parseTJA.js:291-345 | after any lines with the BPM settled, the reader holds the last group and has filed the groups before it |
| TjaChart.CoursesGrouped | src/js/parseTJA.js:327-350 | with the BPM settled before the first course line, the courses of a chart are the groups of course lines, split at COURSE headers, built with the chart's BPM and filed in order by id |
| TjaChart.FiledKeys | src/js/parseTJA.js:329-350 | a course is filed under an id exactly when some course has it |
| TjaChart.FiledLast | src/js/parseTJA.js:329-350 | under an id is the last course with that id: a later course with the same id replaces an earlier one |
| TjaChart.ChartCourseIsLastGroup | src/js/parseTJA.js:327-350 | in a parsed chart, an id is present exactly when some group builds a course with it, and the course under it is the one built from the last such group |
| Timing.Apply | src/js/analyseChart.js:12-19 | a BPM event with a positive tempo leaves the clock with a positive tempo |
| Timing.After | src/js/analyseChart.js:11-23 | the tempo after any number of events is positive |
| Timing.Skip | src/js/analyseChart.js:11-23 | the inner loop stops at the first event after the target beat: every event passed is at or before it |
| Timing.PulseToTime | src/js/analyseChart.js:1-35 | the times are CursorTimes; for beats in order each time is the reference time of its beat; with events in order too, the times are in order |
| Timing.CatchUp | src/js/analyseChart.js:11-23 | the inner loop moves the cursor to Skip and leaves the clock equivalent to the reference clock after those events |
| Timing.Consume | src/js/analyseChart.js:11-23 | one event of the inner loop moves the running clock as the reference clock moves; passedBeat jumps to a BPM event's beat and is otherwise kept |
| Timing.Advance | src/js/analyseChart.js:25-30 | the time pushed is the reference clock's reading at the target beat, which becomes passedBeat, and the clock stays equivalent |
| Timing.BpmStep | src/js/analyseChart.js:12-19 | consuming a BPM event moves the running clock exactly as the reference clock moves |
| Timing.TargetStep | src/js/analyseChart.js:25-30 | the time pushed for a target is the reference clock's reading at its beat |
| Timing.StepTime | src/js/analyseChart.js:25-30 | passedBeat reaches the target and passedTime its reading |
| Timing.SortedTargets | src/js/analyseChart.js:1-35 | for beats in order each time is the time of its beat, and with events in order the times are in order |
| Timing.CursorTimesAt | src/js/analyseChart.js:8-32 | the k-th time is read on the clock the cursor has reached after the first k+1 targets |
| Timing.SkipTwice | src/js/analyseChart.js:9-11 | the cursor never moves back: skipping to b0 then to b1 >= b0 is skipping to b1 |
| Timing.CursorOfSorted | src/js/analyseChart.js:8-23 | for targets in order the cursor stands past exactly the events at or before the last target |
| Timing.ClockMonotone | src/js/analyseChart.js:11-30 | with positive tempos and events in order the clock never runs backwards |
| Timing.TimeMonotone | src/js/analyseChart.js:1-35 | a later beat never has an earlier time when the events are in order |
| Timing.OneTempoChange | src/js/analyseChart.js:2-19 | the tempo is 120 until the first BPM event: with 240 BPM from beat 4, beat 2 is at 1 s and beat 8 at 3 s |
| Timing.UnsortedEventsRunBackwards | src/js/analyseChart.js:11 | events out of beat order make time run backwards, so the order premise is needed |
| Timeline.Length | src/js/analyseChart.js:43 | a measure lasts a non-negative number of beats |
| Timeline.Timed | src/js/analyseChart.js:49-67 | a measure event gives at most one timed event, at its beat; a scroll event gives none |
| Timeline.Beats | src/js/analyseChart.js:118 | the targets handed to pulseToTime are the notes' beats, in order |
| Timeline.ConvertToTimed | src/js/analyseChart.js:37-122 | convertToTimed computes TimedOf: the laid-out events and notes, each note stamped with its pulseToTime time |
| Timeline.Flatten | src/js/analyseChart.js:41-116 | the measure loop computes the events and notes of Lay |
| Timeline.StampTimes | src/js/analyseChart.js:119 | note idx receives time idx |
| Timeline.MeasureEventsOf | src/js/analyseChart.js:45-68 | the event loop of a measure appends its timed events |
| Timeline.TimeEvent | src/js/analyseChart.js:45-68 | one event appends exactly its timed event, if any |
| Timeline.EventBeat | src/js/analyseChart.js:47 | an event sits its offset after the measure's start |
| Timeline.LayMeasure | src/js/analyseChart.js:41-116 | one measure extends the layout by its events, notes and length |
| Timeline.MeasureNotesOf | src/js/analyseChart.js:70-113 | the note loop of a measure continues the note scanner over its characters |
| Timeline.MeasureEventsTempos | src/js/analyseChart.js:49-55 | the timed BPM events of a measure carry positive tempos |
| Timeline.LayTempos | src/js/analyseChart.js:41-116 | every timed BPM event carries a positive tempo |
| Timeline.EventOffsetOrder | src/js/analyseChart.js:47 | event offsets grow with the position and stay within the measure |
| Timeline.NoteOffsetOrder | src/js/analyseChart.js:72 | note offsets grow with the index and stay within the measure |
| Timeline.MeasureEventsInOrder | src/js/analyseChart.js:45-68 | a measure's timed events come in beat order, from its start to the offset of the last one |
| Timeline.MeasureEventsWithin | src/js/analyseChart.js:45-68 | a measure's timed events lie in order within the measure |
| Timeline.CharStepAppends | src/js/analyseChart.js:74-112 | a character adds at most one note, at its beat, after the notes so far |
| Timeline.CharStepInOrder | src/js/analyseChart.js:74-112 | a note added at a later beat keeps the notes in beat order |
| Timeline.MeasureNotesInOrder | src/js/analyseChart.js:70-113 | a measure's notes come in beat order after the earlier ones |
| Timeline.MeasureNotesWithin | src/js/analyseChart.js:70-113 | a measure's notes lie within the measure, after the earlier ones |
| Timeline.LayInOrder | src/js/analyseChart.js:41-116 | laid end to end, events and notes are in beat order from 0 to the end of the last measure |
| Timeline.NotesTimed | src/js/analyseChart.js:37-122 | the timed notes keep their kinds and beats, each has the time of its beat under the tempo changes, and later notes never have earlier times |
| Timeline.MeasureNotesCensus | src/js/analyseChart.js:70-113 | the note count, BALLOON values taken and '9' state after a measure depend only on its characters |
| Timeline.LayCensus | src/js/analyseChart.js:41-116 | these depend only on the concatenated note data of the measures |
| Timeline.CharStepDeals | src/js/analyseChart.js:95-105 | a character keeps the balloon notes' counts equal to the BALLOON values taken so far |
| Timeline.MeasureNotesDeal | src/js/analyseChart.js:95-105 | so does a measure |
| Timeline.LayDeals | src/js/analyseChart.js:95-105 | so do all measures |
| Timeline.BalloonsInOrder | src/js/analyseChart.js:95-105 | the k-th balloon note gets the k-th BALLOON value, or none past the end of the list, and there are as many balloon notes as the data demands |
| Timeline.EnoughBalloons | src/js/analyseChart.js:95-105 | with as many BALLOON values as the note data demands, every balloon note has a count |
| Timeline.RendererUndercounts | src/js/drawChart.js:323-350 | the renderer's pre-scan counts one balloon for measures "98" and "9", which take two; with one BALLOON value the second balloon gets none |
| Timeline.RendererCountsOne | src/js/drawChart.js:323-350 | the renderer's pre-scan counts one balloon for measures "98" and "9" |
| Timeline.ChartDemandsTwo | src/js/analyseChart.js:95-109 | convertToTimed hands out two BALLOON values for measures "98" and "9" |
| Statistics.HitIndex | src/js/analyseChart.js:152 | a hit note has an index below 4 in don, kat, donBig, katBig |
| Statistics.Tier | src/js/analyseChart.js:161 | the combo tier is below 5 |
| Statistics.Floor10Bounds | src/js/analyseChart.js:169 | Math.floor(x / 10) * 10 is the largest multiple of ten not above x |
| Statistics.GogoScoreBounds | src/js/analyseChart.js:170 | the go-go score is the largest multiple of ten not above 1.2 times the score |
| Statistics.NoteStep | src/js/analyseChart.js:152-207 | one note keeps every counter list at its length |
| Statistics.Walk | src/js/analyseChart.js:139-208 | the go-go cursor stays in range and the go-go flag is that of the events passed |
| Statistics.GetStatistics | src/js/analyseChart.js:124-223 | the note loop computes StatisticsOf |
| Statistics.CountNote | src/js/analyseChart.js:152-207 | the loop body computes NoteStep |
| Statistics.VisitNote | src/js/analyseChart.js:139-208 | one pass of the note loop advances the go-go cursor and tallies the note as Walk does |
| Statistics.CountHit | src/js/analyseChart.js:152-177 | a hit note is tallied as Hit: count, combo, weight, score, track |
| Statistics.CloseHold | src/js/analyseChart.js:180-207 | a renda, balloon or end note updates the hold records as Close |
| Statistics.AdvanceGogo | src/js/analyseChart.js:142-150 | the go-go cursor moves to Skip and the flag is the go-go state after the events passed |
| Statistics.WalkStep | src/js/analyseChart.js:139-208 | each note is tallied in the go-go state the cursor holds at it |
| Statistics.StepHits | src/js/analyseChart.js:152-158 | one note adds one to the combo and to its type's count exactly when it is a hit |
| Statistics.StepKind | src/js/analyseChart.js:152-157 | one note adds one to count v exactly when it is a hit of type v |
| Statistics.WalkTallies | src/js/analyseChart.js:139-208 | the tally is the fold of the notes with the go-go flags the cursor holds at their beats |
| Statistics.StepHitSum | src/js/analyseChart.js:157 | one note adds one to the type counts exactly when it is a hit |
| Statistics.ComboCounted | src/js/analyseChart.js:158 | totalCombo is the number of hit notes |
| Statistics.HitsAddUp | src/js/analyseChart.js:157 | the type counts add up to the number of hit notes |
| Statistics.KindsCounted | src/js/analyseChart.js:152-157 | count v is the number of hits of type v |
| Statistics.StepWeights | src/js/analyseChart.js:160-162 | one hit adds 2 (big) or 1 to the weight table |
| Statistics.HitWeights | src/js/analyseChart.js:160-162 | the weight table adds up to 2 per big hit and 1 per other hit |
| Statistics.StepTrack | src/js/analyseChart.js:154-155 | a hit moves the end to its time, and the start too when it is the first note |
| Statistics.TrackLength | src/js/analyseChart.js:154-155 | start is the first note's time if that is a hit (else 0), and end the last hit's time |
| Statistics.StepHolds | src/js/analyseChart.js:191-207 | only an end note adds a record, and a balloon record adds one pop and count-1 bonus exactly when it pops |
| Statistics.CloseHolds | src/js/analyseChart.js:191-207 | an end note adds at most one record, and a balloon record adds a pop and count-1 bonus exactly when it pops |
| Statistics.HoldsClosed | src/js/analyseChart.js:191-207 | there are no more renda and balloon records than end notes |
| Statistics.PopsCounted | src/js/analyseChart.js:196-206 | the pops are the balloon records that pop, and the bonus hits are their counts less one |
| Statistics.StatisticsCounted | src/js/analyseChart.js:124-223 | combo, type counts, weight table, track length, hold records and pops of the result, each against the notes alone |
| Statistics.StepPotential | src/js/analyseChart.js:164-173 | one note adds to the potential the score of a hit, by its combo, go-go flag and size, and leaves it alone otherwise |
| Statistics.PotentialCounted | src/js/analyseChart.js:164-173 | the potential score of the walk is Potential: the sum, over the hits in order, of each hit's score by combo tier, go-go flag and size |
| Statistics.PotentialNaN | src/js/analyseChart.js:164-173 | the potential is NaN exactly when there is a hit and scoreInit or scoreDiff is missing, and 0 when there is no hit |
| Statistics.StepCell | src/js/analyseChart.js:157-162 | one note adds its weight to the cell of its go-go slot and combo tier, and to no other |
| Statistics.CellsCounted | src/js/analyseChart.js:157-162 | cell [g][k] of the weight table is Cell: the weighted count of hits in go-go slot g whose combo, counted through the hit, is in tier k |
| Statistics.ScoreCounted | src/js/analyseChart.js:124-173 | the potential score and every cell of the weight table that getStatistics returns, against the notes and the go-go flag of each note |
| Statistics.Pairing | src/js/analyseChart.js:180-207 | the pairing after n notes names only notes before n, each opener before its end note |
| Statistics.HoldsUntouched | src/js/analyseChart.js:180-189 | a note other than an end note records no hold; a renda or balloon note opens a hold of its kind, starting at its time |
| Statistics.CloseBalloon | src/js/analyseChart.js:196-206 | an end note with no truthy renda start and a truthy balloon start records the balloon, and a pop and bonus in the balloon's go-go slot when it pops |
| Statistics.MatchOpen | src/js/analyseChart.js:180-189 | a renda or balloon note keeps the walk in step with the pairing |
| Statistics.MatchCloseRenda | src/js/analyseChart.js:191-194 | an end note closing a renda keeps the walk in step with the pairing |
| Statistics.MatchCloseBalloon | src/js/analyseChart.js:196-206 | an end note closing a balloon keeps the walk in step with the pairing |
| Statistics.MatchStep | src/js/analyseChart.js:180-207 | any note keeps the walk in step with the pairing |
| Statistics.HoldsPaired | src/js/analyseChart.js:180-207 | after n notes the open renda and balloon, the renda spans, the balloon records and the pops and bonus per go-go slot are those of Pairing |
| Statistics.HoldsAll | src/js/analyseChart.js:180-207 | over the whole course the walk's holds are those of the pairing of every note |
| Statistics.HoldsCounted | src/js/analyseChart.js:124-223 | the renda spans, balloon records and per-slot pops and bonus that getStatistics returns are those of the pairing, each pop taken in the go-go slot of its balloon note |
| Statistics.SoundOpen | src/js/analyseChart.js:180-189 | a renda or balloon note keeps the pairing sound |
| Statistics.SoundCloseRenda | src/js/analyseChart.js:191-194 | closing a renda keeps the pairing sound |
| Statistics.SoundCloseBalloon | src/js/analyseChart.js:196-206 | closing a balloon keeps the pairing sound |
| Statistics.PairingSoundStep | src/js/analyseChart.js:180-207 | any note keeps the pairing sound |
| Statistics.PairingMeaning | src/js/analyseChart.js:180-207 | every recorded pair is an opener not at time 0 and a later end note with no opener of its kind between; no end note closes two holds and closes come in order; the open renda or balloon is the latest opener of its kind |
| Statistics.GogoSplit | src/js/analyseChart.js:142-150 | the go-go state after the events at or before a beat is that of the last go-go event up to it |
| Statistics.GogoReached | src/js/analyseChart.js:142-150 | with events in order, the go-go state after the events reached at a beat is the state at that beat |
| Statistics.WalkCursor | src/js/analyseChart.js:142-150 | the go-go cursor stands where pulseToTime's cursor would after the same notes |
| Statistics.FlagAt | src/js/analyseChart.js:142-150 | the flag of note i is the go-go state after the events the cursor passed by note i |
| Statistics.GogoAtBeats | src/js/analyseChart.js:142-150 | with events and beats in order, each note's flag is the go-go state at its beat |
| Statistics.StatisticsByBeat | src/js/analyseChart.js:142-150 | with events and notes in beat order, every note is tallied in the go-go state of its beat |
| Statistics.ScoreExamples | src/js/analyseChart.js:164-171 | with scoreInit 300 and scoreDiff 100: 300, 400, 500, 700, 1100 by tier, 360 in go-go, 720 big in go-go, NaN for a NaN header |
| Statistics.Floor10Monotone | src/js/analyseChart.js:169 | flooring to ten keeps order |
| Statistics.GogoScoreMonotone | src/js/analyseChart.js:170 | the go-go bonus keeps order |
| Statistics.ScoreGrowsWithCombo | src/js/analyseChart.js:164-171 | with a non-negative scoreDiff a longer combo never scores a hit less |
| Statistics.RendaSpan | src/js/analyseChart.js:180-195 | a renda then an end adds their time span, but a renda at time 0 is never closed |
| Statistics.RendaClosesFirst | src/js/analyseChart.js:192-196 | an end note closes an open renda before an open balloon, which stays open |
| Statistics.BalloonSpan | src/js/analyseChart.js:184-206 | a balloon then an end records span and count, and a pop counts in the go-go slot of the balloon's start |
| Graph.Count | src/js/analyseChart.js:248-249 | a hit adds one to its frame |
| Graph.Timeframe | src/js/analyseChart.js:229-231 | a frame lasts a positive time when the last note is after time 0 |
| Graph.GetGraph | src/js/analyseChart.js:225-257 | the two loops compute GraphOf |
| Graph.CloseFrames | src/js/analyseChart.js:240-246 | the inner loop closes frames up to the note's frame, as CatchUp |
| Graph.NextFrameBegun | src/js/analyseChart.js:240 | the guard of the inner loop holds exactly when the note's frame is past the open one |
| Graph.FrameBegun | src/js/analyseChart.js:240 | (k + 1) * timeframe <= time exactly when the time's frame is past k |
| Graph.CatchUpTotal | src/js/analyseChart.js:240-246 | closing frames loses no hit |
| Graph.PlotCounts | src/js/analyseChart.js:235-251 | every hit is in a closed frame or in the open one |
| Graph.PushLargest | src/js/analyseChart.js:241-244 | closing a frame keeps max the size of the largest closed frame |
| Graph.CatchUpLargest | src/js/analyseChart.js:240-246 | so does closing several |
| Graph.PlotLargest | src/js/analyseChart.js:235-251 | max is the size of the largest closed frame |
| Graph.CatchUpLength | src/js/analyseChart.js:240-246 | catching up closes frames up to the target frame and no further |
| Graph.PlotLength | src/js/analyseChart.js:235-251 | the loop closes exactly the frames before the latest frame of a hit |
| Graph.PadShape | src/js/analyseChart.js:253-254 | padding keeps the frames and appends empty ones up to 100 |
| Graph.PadTotal | src/js/analyseChart.js:253-254 | padding adds no hit |
| Graph.QuietPlot | src/js/analyseChart.js:232-251 | without a hit the note loop closes no frame and counts nothing |
| Graph.QuietGraphAgrees | src/js/analyseChart.js:225-257 | the graph of notes without a hit is 100 empty frames, and where the time frame is positive it equals the graph getGraph computes |
| Graph.FrameWithin | src/js/analyseChart.js:229-231 | a time no later than the last note's falls in frame 100 at most |
| Graph.ReachWithin | src/js/analyseChart.js:229-240 | the latest frame of a hit is at most 100 when no hit is after the last note |
| Graph.GraphShape | src/js/analyseChart.js:225-257 | the graph has max(latest hit frame, 100) frames, exactly 100 when no hit is after the last note, and max is its largest frame |
| Graph.FrameMonotone | src/js/analyseChart.js:240 | a later time falls in no earlier frame |
| Graph.FrameNonNegative | src/js/analyseChart.js:240 | a time from 0 on falls in a frame from 0 on |
| Graph.ReachBelow | src/js/analyseChart.js:235-251 | hits up to time t reach no frame past t's |
| Graph.BinBeyondReach | src/js/analyseChart.js:235-251 | no hit falls in a frame past the latest |
| Graph.CatchUpBins | src/js/analyseChart.js:240-246 | catching up keeps the closed frames, stores the open one, then empty ones |
| Graph.CatchUpOpen | src/js/analyseChart.js:240-246 | the open frame is emptied exactly when frames were closed |
| Graph.HitBinned | src/js/analyseChart.js:238-250 | a hit in a frame no earlier than the open one keeps every frame holding its hits |
| Graph.PlotBins | src/js/analyseChart.js:235-251 | with notes in time order and no time negative, every closed frame and the open one hold exactly their hits |
| Graph.GraphBins | src/js/analyseChart.js:225-257 | every frame holds exactly its hits except the latest hit's, which is empty; all hits but that frame's are counted |
| Graph.LastFrameDropped | src/js/analyseChart.js:235-256 | a hit followed by a roll end counts one hit, but the graph shows none |
| Graph.OnlyHitLatest | src/js/analyseChart.js:235-251 | of a hit and a non-hit note, the hit lies in the latest hit's frame, the one never stored |
| Analyse.AnalyseCourse | src/js/analyseChart.js:225-267 | the entry point computes AnalysisOf: statistics and graph of the timed course, 100 empty frames for a course without a hit whatever its time frame, or None where the source throws or never returns |
| Analyse.TimeNotNegative | src/js/analyseChart.js:1-35 | with positive tempos and events in order from beat 0 on, no beat from 0 on gets a negative time |
| Analyse.AnalysisMeaning | src/js/analyseChart.js:259-267 | for a course with well-positioned measures and notes to graph, each note is tallied in the go-go state of its beat, and each graph frame holds the hits of its time frame, except the latest hit's frame |

## Left out

- Floating point: beats, times and tempos are exact reals, and the rounding of JavaScript doubles is not modelled.
- Statistics.GogoScoreBounds: computes Math.floor(s * 1.2 / 10) * 10 in exact arithmetic, where the source rounds s * 1.2 as a double first.
- Scores, counts and parsed integers are unbounded; the 2^53 limit of exact JavaScript integers is not modelled.
- NaN and Infinity as times or tempos are not modelled. Timeline.ConvertToTimed and Analyse.AnalyseCourse require a non-zero divisor and a positive BPM on every BPM event. With a zero divisor, a NaN BPM or a tempo of 0, the source computes NaN or Infinity times.
- Timeline.ConvertToTimed and Analyse.AnalyseCourse: negative tempos are excluded too. With a negative BPM the source computes finite times that run backwards; the monotonicity lemmas (Timing.TimeMonotone, Timing.ClockMonotone) rely on positive tempos.
- TjaChart.CoursesGrouped and TjaChart.ChartCourseIsLastGroup: these require that no BPM header follows the first course line. The source builds each course with the BPM in force when the course is handed over, so with a later BPM header earlier courses keep the older BPM. TjaChart.LateBpmReachesLastCourse states that a BPM header after the last course line reaches the last course and no other.
- Text.ParseFloat does not read "Infinity".
- Text.ToUpper and Text.ToLower map ASCII letters only. Upper-casing only reaches names matched by [A-Z] under the /i flag. Among the non-ASCII characters that lower-case to ASCII letters, none can complete a course name.
- Analyse.AnalysisOf returns None in three cases where the source fails: an unknown course id (the source throws on an undefined course), a course without notes (it throws on the missing last note), and a course with a hit whose last note is at time 0 or before (the frame loop never ends).
- Analyse.AnalyseCourse: with a time frame of zero or less, a course whose every hit is timed before its time frame (so before time 0) has them counted into the open frame without the frame loop running, and the source returns 100 empty frames. The model returns None for every course with a hit and a last note at time 0 or before. No laid-out course has a note before time 0 (Analyse.TimeNotNegative), so for a course read from a chart its hits are all at time 0 and the source never finishes.
- Measure properties: only the #TTBREAK flag is kept, which is the only property the source sets.
- Scroll events keep their speed in the measures. The timeline drops them, as the source does.
- The renderer (src/js/drawChart.js), the page script (src/js/main.js), character-set detection, the canvas helper and the build configuration are not part of this model. The one exception is the renderer's balloon pre-scan, listed under Findings.
- The renderer's splitting of measures into rows (the TTROWBEAT header and #TTBREAK) is not modelled beyond reading the values.
- Objects that the source updates in place are local accumulators of single functions. They are modelled as values that each loop reassigns.

## Findings

| source | as written | input that shows it | evidently intended | confidence | as-written member | corrected member |
|---|---|---|---|---|---|---|
| src/js/drawChart.js:323-350 | the balloon pre-scan walks the measures in order but the characters of each measure from last to first, so a '9' run is opened and closed in the wrong order | measures "98" then "9" with BALLOON:5: the pre-scan counts 1 balloon and passes the check, but convertToTimed hands out 2 and the second balloon gets no count | count the balloons in chart order, as convertToTimed hands out the BALLOON values | medium, not executed | Timeline.RendererUndercounts | Timeline.EnoughBalloons |
