/** The density graph (getGraph in src/js/analyseChart.js): the track, from time 0 to
    the time of the last note, cut into 100 equal time frames, with the don and kat
    hits counted per frame. */
module Graph {
  import opened Timeline
  import opened Statistics

  /** The hits of one time frame, by colour. */
  datatype Bin = Bin(don: nat, kat: nat)

  datatype Graph = Graph(timeframe: real, max: nat, data: seq<Bin>)

  const DataCount: nat := 100

  const Empty := Bin(0, 0)

  function Size(b: Bin): nat {
    b.don + b.kat
  }

  function Max(a: nat, b: nat): nat {
    if a < b then b else a
  }

  /** The frame a time falls in: frame i covers [i * timeframe, (i + 1) * timeframe). */
  function Frame(time: real, timeframe: real): int
    requires timeframe > 0.0
  {
    (time / timeframe).Floor
  }

  /** A hit note counted into a frame: don and big don as don, kat and big kat as kat. */
  function Count(b: Bin, k: NoteKind): (r: Bin)
    requires IsHit(k)
    ensures Size(r) == Size(b) + 1
  {
    if k.Don? || k.DonBig? then b.(don := b.don + 1) else b.(kat := b.kat + 1)
  }

  // ---------------------------------------------------------------------------
  // The note loop

  /** Where the loop stands: the frames closed so far, the open frame, and the largest
      closed frame's size. */
  datatype Plot = Plot(data: seq<Bin>, datum: Bin, max: nat)

  const Start := Plot([], Empty, 0)

  /** The open frame closed, and an empty one opened. */
  function Push(p: Plot): Plot {
    Plot(p.data + [p.datum], Empty, Max(p.max, Size(p.datum)))
  }

  /** Closing frames until the open one is the given frame; a frame at or before the
      open one closes nothing. */
  function CatchUp(p: Plot, frame: int): Plot
    decreases frame - |p.data|
  {
    if |p.data| < frame then CatchUp(Push(p), frame) else p
  }

  function PlotStep(p: Plot, note: Note, timeframe: real): Plot
    requires timeframe > 0.0
  {
    if IsHit(note.kind) then
      var q := CatchUp(p, Frame(note.time, timeframe));
      q.(datum := Count(q.datum, note.kind))
    else p
  }

  function PlotOf(notes: seq<Note>, timeframe: real): Plot
    requires timeframe > 0.0
    decreases |notes|
  {
    if |notes| == 0 then Start
    else PlotStep(PlotOf(notes[..|notes| - 1], timeframe), notes[|notes| - 1], timeframe)
  }

  /** Empty frames appended up to DataCount. */
  function Pad(data: seq<Bin>): seq<Bin>
    decreases DataCount - |data|
  {
    if |data| < DataCount then Pad(data + [Empty]) else data
  }

  /** A graph needs a last note, and the frames a positive length: reading the time of
      the last note of an empty course throws, and with a zero length the frame loop
      never ends once a hit note comes. */
  predicate Graphable(notes: seq<Note>) {
    |notes| > 0 && notes[|notes| - 1].time > 0.0
  }

  function Timeframe(notes: seq<Note>): (tf: real)
    requires Graphable(notes)
    ensures tf > 0.0
  {
    notes[|notes| - 1].time / DataCount as real
  }

  /** getGraph as written: the open frame left after the last hit is never pushed. */
  function GraphOf(notes: seq<Note>): Graph
    requires Graphable(notes)
  {
    var tf := Timeframe(notes);
    var p := PlotOf(notes, tf);
    Graph(tf, p.max, Pad(p.data))
  }

  // ---------------------------------------------------------------------------
  // getGraph

  method GetGraph(notes: seq<Note>) returns (graph: Graph)
    requires Graphable(notes)
    ensures graph == GraphOf(notes)
  {
    var data: seq<Bin> := [];
    var datum := Empty;
    var max: nat := 0;
    var length := notes[|notes| - 1].time;
    var timeframe := length / DataCount as real;
    var i := 0;
    while i < |notes|
      invariant 0 <= i <= |notes|
      invariant Plot(data, datum, max) == PlotOf(notes[..i], timeframe)
    {
      var note := notes[i];
      if IsHit(note.kind) {
        data, datum, max := CloseFrames(data, datum, max, timeframe, note.time);
        if note.kind.Don? || note.kind.DonBig? {
          datum := datum.(don := datum.don + 1);
        } else {
          datum := datum.(kat := datum.kat + 1);
        }
      }
      assert notes[..i + 1][..i] == notes[..i];
      i := i + 1;
    }
    assert notes[..i] == notes;
    ghost var closed := data;
    while |data| < DataCount
      invariant Pad(data) == Pad(closed)
      decreases DataCount - |data|
    {
      data := data + [Empty];
    }
    graph := Graph(timeframe, max, data);
  }

  /** The inner loop: while the frame after the open one has begun by the note's time,
      push the open frame, keeping the largest size seen. */
  method CloseFrames(data: seq<Bin>, datum: Bin, max: nat, timeframe: real, time: real)
    returns (data': seq<Bin>, datum': Bin, max': nat)
    requires timeframe > 0.0
    ensures Plot(data', datum', max') == CatchUp(Plot(data, datum, max), Frame(time, timeframe))
  {
    var frame := Frame(time, timeframe);
    data', datum', max' := data, datum, max;
    var begun := NextFrameBegun(|data'|, timeframe, time);
    while begun
      invariant |data| <= |data'|
      invariant CatchUp(Plot(data', datum', max'), frame) == CatchUp(Plot(data, datum, max), frame)
      invariant begun == (|data'| < frame)
      decreases frame - |data'|
    {
      ghost var before := Plot(data', datum', max');
      var sum := datum'.don + datum'.kat;
      if max' < sum {
        max' := sum;
      }
      data' := data' + [datum'];
      datum' := Empty;
      assert Plot(data', datum', max') == Push(before);
      CatchUpPush(before, frame);
      begun := NextFrameBegun(|data'|, timeframe, time);
    }
  }

  /** Pushing a frame before the target frame is one step of catching up. */
  lemma CatchUpPush(p: Plot, frame: int)
    requires |p.data| < frame
    ensures CatchUp(Push(p), frame) == CatchUp(p, frame)
    ensures |Push(p).data| == |p.data| + 1
  {
  }

  /** The guard of the inner loop: whether frame k + 1 has begun by the given time, that
      is, whether the time's frame is past k. */
  method NextFrameBegun(k: nat, timeframe: real, time: real) returns (begun: bool)
    requires timeframe > 0.0
    ensures begun == (k < Frame(time, timeframe))
  {
    begun := (k + 1) as real * timeframe <= time;
    FrameBegun(k, time, timeframe);
  }

  /** Frame k + 1 has begun by the given time exactly when the time's frame is past k. */
  lemma FrameBegun(k: nat, time: real, timeframe: real)
    requires timeframe > 0.0
    ensures ((k + 1) as real * timeframe <= time) == (k < Frame(time, timeframe))
  {
    var x := time / timeframe;
    assert time == x * timeframe;
    if (k + 1) as real * timeframe <= time {
      assert (k + 1) as real <= x;
    } else {
      assert x < (k + 1) as real;
    }
  }

  // ---------------------------------------------------------------------------
  // Reference definitions

  /** The hits of all frames together. */
  function Total(data: seq<Bin>): nat
    decreases |data|
  {
    if |data| == 0 then 0 else Total(data[..|data| - 1]) + Size(data[|data| - 1])
  }

  /** The latest frame any hit note falls in, 0 when none is later. */
  function Reach(notes: seq<Note>, timeframe: real): nat
    requires timeframe > 0.0
    decreases |notes|
  {
    if |notes| == 0 then 0
    else
      var r := Reach(notes[..|notes| - 1], timeframe);
      var note := notes[|notes| - 1];
      if IsHit(note.kind) && r < Frame(note.time, timeframe) then Frame(note.time, timeframe) else r
  }

  /** The don and kat hits whose time falls in frame i. */
  function BinOf(notes: seq<Note>, i: int, timeframe: real): Bin
    requires timeframe > 0.0
    decreases |notes|
  {
    if |notes| == 0 then Empty
    else
      var b := BinOf(notes[..|notes| - 1], i, timeframe);
      var note := notes[|notes| - 1];
      if IsHit(note.kind) && Frame(note.time, timeframe) == i then Count(b, note.kind) else b
  }

  predicate NonNegativeTimes(notes: seq<Note>) {
    forall i :: 0 <= i < |notes| ==> notes[i].time >= 0.0
  }

  // ---------------------------------------------------------------------------
  // What the loop keeps

  lemma {:induction false} TotalAppend(a: seq<Bin>, b: seq<Bin>)
    ensures Total(a + b) == Total(a) + Total(b)
    decreases |b|
  {
    if |b| > 0 {
      TotalAppend(a, b[..|b| - 1]);
      assert (a + b)[..|a + b| - 1] == a + b[..|b| - 1];
    } else {
      assert a + b == a;
    }
  }

  lemma {:induction false} CatchUpTotal(p: Plot, frame: int)
    ensures Total(CatchUp(p, frame).data) + Size(CatchUp(p, frame).datum) == Total(p.data) + Size(p.datum)
    decreases frame - |p.data|
  {
    if |p.data| < frame {
      var q := Push(p);
      assert CatchUp(p, frame) == CatchUp(q, frame);
      CatchUpTotal(q, frame);
      assert q.data[..|p.data|] == p.data;
      assert Total(q.data) == Total(p.data) + Size(p.datum);
    }
  }

  /** No hit is lost by the loop: each is in a closed frame or in the open one. */
  lemma {:induction false} PlotCounts(notes: seq<Note>, timeframe: real)
    requires timeframe > 0.0
    ensures Total(PlotOf(notes, timeframe).data) + Size(PlotOf(notes, timeframe).datum) == HitCount(notes)
    decreases |notes|
  {
    if |notes| > 0 {
      var n := |notes| - 1;
      PlotCounts(notes[..n], timeframe);
      CatchUpTotal(PlotOf(notes[..n], timeframe), Frame(notes[n].time, timeframe));
    }
  }

  /** max is the size of the largest closed frame, 0 when none holds a hit. */
  predicate Largest(data: seq<Bin>, max: nat) {
    && (forall i :: 0 <= i < |data| ==> Size(data[i]) <= max)
    && (max == 0 || exists i :: 0 <= i < |data| && Size(data[i]) == max)
  }

  lemma PushLargest(p: Plot)
    requires Largest(p.data, p.max)
    ensures Largest(Push(p).data, Push(p).max)
  {
    var q := Push(p);
    var k := |p.data|;
    forall i | 0 <= i < |q.data| ensures Size(q.data[i]) <= q.max {
      if i < k {
        assert q.data[i] == p.data[i];
      }
    }
    assert q.data[k] == p.datum;
    if q.max != 0 && q.max != Size(p.datum) {
      var j :| 0 <= j < k && Size(p.data[j]) == p.max;
      assert q.data[j] == p.data[j];
    }
  }

  lemma {:induction false} CatchUpLargest(p: Plot, frame: int)
    requires Largest(p.data, p.max)
    ensures Largest(CatchUp(p, frame).data, CatchUp(p, frame).max)
    decreases frame - |p.data|
  {
    if |p.data| < frame {
      PushLargest(p);
      CatchUpLargest(Push(p), frame);
    }
  }

  lemma {:induction false} PlotLargest(notes: seq<Note>, timeframe: real)
    requires timeframe > 0.0
    ensures Largest(PlotOf(notes, timeframe).data, PlotOf(notes, timeframe).max)
    decreases |notes|
  {
    if |notes| > 0 {
      var n := |notes| - 1;
      PlotLargest(notes[..n], timeframe);
      CatchUpLargest(PlotOf(notes[..n], timeframe), Frame(notes[n].time, timeframe));
    }
  }

  lemma {:induction false} CatchUpLength(p: Plot, frame: int)
    ensures |CatchUp(p, frame).data| == if |p.data| < frame then frame else |p.data|
    decreases frame - |p.data|
  {
    if |p.data| < frame {
      CatchUpLength(Push(p), frame);
    }
  }

  /** The loop closes exactly the frames before the latest frame of a hit. */
  lemma {:induction false} PlotLength(notes: seq<Note>, timeframe: real)
    requires timeframe > 0.0
    ensures |PlotOf(notes, timeframe).data| == Reach(notes, timeframe)
    decreases |notes|
  {
    if |notes| > 0 {
      var n := |notes| - 1;
      PlotLength(notes[..n], timeframe);
      CatchUpLength(PlotOf(notes[..n], timeframe), Frame(notes[n].time, timeframe));
    }
  }

  // ---------------------------------------------------------------------------
  // Padding and the graph

  /** Padding keeps the frames and appends empty ones up to DataCount. */
  lemma {:induction false} PadShape(data: seq<Bin>)
    ensures |Pad(data)| == Max(|data|, DataCount)
    ensures forall i :: 0 <= i < |Pad(data)| ==> Pad(data)[i] == if i < |data| then data[i] else Empty
    decreases DataCount - |data|
  {
    if |data| < DataCount {
      PadShape(data + [Empty]);
    }
  }

  lemma {:induction false} PadTotal(data: seq<Bin>)
    ensures Total(Pad(data)) == Total(data)
    decreases DataCount - |data|
  {
    if |data| < DataCount {
      PadTotal(data + [Empty]);
      assert (data + [Empty])[..|data|] == data;
    }
  }

  /** getGraph on notes without a hit: the note loop closes no frame, so the graph is
      the time frame (even a zero or negative one), a largest size of 0 and 100 empty
      frames. */
  function QuietGraph(notes: seq<Note>): Graph
    requires |notes| > 0
  {
    Graph(notes[|notes| - 1].time / DataCount as real, 0, Pad([]))
  }

  /** Without a hit the note loop never leaves its starting point. */
  lemma {:induction false} QuietPlot(notes: seq<Note>, timeframe: real)
    requires timeframe > 0.0 && HitCount(notes) == 0
    ensures PlotOf(notes, timeframe) == Start
    decreases |notes|
  {
    if |notes| > 0 {
      QuietPlot(notes[..|notes| - 1], timeframe);
    }
  }

  /** The graph of notes without a hit is 100 empty frames, and where the time frame is
      positive it is the graph getGraph computes for them. */
  lemma QuietGraphAgrees(notes: seq<Note>)
    requires |notes| > 0 && HitCount(notes) == 0
    ensures |QuietGraph(notes).data| == DataCount
    ensures forall i :: 0 <= i < DataCount ==> QuietGraph(notes).data[i] == Empty
    ensures Graphable(notes) ==> GraphOf(notes) == QuietGraph(notes)
  {
    PadShape([]);
    if Graphable(notes) {
      QuietPlot(notes, Timeframe(notes));
    }
  }

  /** A time no later than the last note's falls in a frame no later than DataCount. */
  lemma FrameWithin(time: real, length: real)
    requires length > 0.0 && time <= length
    ensures Frame(time, length / DataCount as real) <= DataCount
  {
    var tf := length / DataCount as real;
    assert time / tf <= 100.0 by {
      assert length / tf == 100.0;
      assert time / tf <= length / tf;
    }
  }

  predicate HitsWithin(notes: seq<Note>, length: real) {
    forall i :: 0 <= i < |notes| && IsHit(notes[i].kind) ==> notes[i].time <= length
  }

  lemma {:induction false} ReachWithin(notes: seq<Note>, length: real)
    requires length > 0.0 && HitsWithin(notes, length)
    ensures Reach(notes, length / DataCount as real) <= DataCount
    decreases |notes|
  {
    if |notes| > 0 {
      var n := |notes| - 1;
      assert HitsWithin(notes[..n], length);
      ReachWithin(notes[..n], length);
      if IsHit(notes[n].kind) {
        FrameWithin(notes[n].time, length);
      }
    }
  }

  /** The graph has at least DataCount frames, one per frame up to the latest hit's;
      exactly DataCount when no hit comes after the last note. Every frame holds at
      most max hits, and max is the size of one of them (or 0). */
  lemma GraphShape(notes: seq<Note>)
    requires Graphable(notes)
    ensures |GraphOf(notes).data| == Max(Reach(notes, Timeframe(notes)), DataCount)
    ensures HitsWithin(notes, notes[|notes| - 1].time) ==> |GraphOf(notes).data| == DataCount
    ensures Largest(GraphOf(notes).data, GraphOf(notes).max)
  {
    var tf := Timeframe(notes);
    var p := PlotOf(notes, tf);
    PlotLength(notes, tf);
    PadShape(p.data);
    if HitsWithin(notes, notes[|notes| - 1].time) {
      ReachWithin(notes, notes[|notes| - 1].time);
    }
    PlotLargest(notes, tf);
    var g := GraphOf(notes);
    forall i | 0 <= i < |g.data| ensures Size(g.data[i]) <= g.max {
      if i < |p.data| {
        assert g.data[i] == p.data[i];
      }
    }
    if g.max != 0 {
      var j :| 0 <= j < |p.data| && Size(p.data[j]) == p.max;
      assert g.data[j] == p.data[j];
    }
  }

  // ---------------------------------------------------------------------------
  // What each frame holds

  lemma FrameMonotone(t1: real, t2: real, timeframe: real)
    requires timeframe > 0.0 && t1 <= t2
    ensures Frame(t1, timeframe) <= Frame(t2, timeframe)
  {
    assert t1 / timeframe <= t2 / timeframe;
  }

  lemma FrameNonNegative(t: real, timeframe: real)
    requires timeframe > 0.0 && t >= 0.0
    ensures Frame(t, timeframe) >= 0
  {
    assert t / timeframe >= 0.0;
  }

  /** Hits no later than a time t >= 0 reach no frame past t's. */
  lemma {:induction false} ReachBelow(notes: seq<Note>, timeframe: real, t: real)
    requires timeframe > 0.0 && t >= 0.0
    requires forall i :: 0 <= i < |notes| ==> notes[i].time <= t
    ensures Reach(notes, timeframe) <= Frame(t, timeframe)
    decreases |notes|
  {
    if |notes| > 0 {
      var n := |notes| - 1;
      ReachBelow(notes[..n], timeframe, t);
      FrameMonotone(notes[n].time, t, timeframe);
    } else {
      FrameNonNegative(t, timeframe);
    }
  }

  /** No hit falls in a frame past the latest. */
  lemma {:induction false} BinBeyondReach(notes: seq<Note>, timeframe: real, i: int)
    requires timeframe > 0.0 && i > Reach(notes, timeframe)
    ensures BinOf(notes, i, timeframe) == Empty
    decreases |notes|
  {
    if |notes| > 0 {
      var n := |notes| - 1;
      assert Reach(notes[..n], timeframe) <= Reach(notes, timeframe);
      assert IsHit(notes[n].kind) ==> Frame(notes[n].time, timeframe) <= Reach(notes, timeframe);
      BinBeyondReach(notes[..n], timeframe, i);
    }
  }

  /** Catching up keeps the closed frames, closes the open one, and fills the frames up
      to the target with empty ones. */
  lemma {:induction false} CatchUpBins(p: Plot, frame: int, i: int)
    requires 0 <= i < |CatchUp(p, frame).data|
    ensures CatchUp(p, frame).data[i] == if i < |p.data| then p.data[i] else if i == |p.data| then p.datum else Empty
    decreases frame - |p.data|
  {
    if |p.data| < frame {
      CatchUpBins(Push(p), frame, i);
    }
  }

  lemma {:induction false} CatchUpOpen(p: Plot, frame: int)
    ensures CatchUp(p, frame).datum == if |p.data| < frame then Empty else p.datum
    decreases frame - |p.data|
  {
    if |p.data| < frame {
      CatchUpOpen(Push(p), frame);
    }
  }

  /** The hits of the frames, as the loop holds them. */
  predicate Binned(p: Plot, notes: seq<Note>, timeframe: real)
    requires timeframe > 0.0
  {
    && (forall i :: 0 <= i < |p.data| ==> p.data[i] == BinOf(notes, i, timeframe))
    && p.datum == BinOf(notes, |p.data|, timeframe)
  }

  /** A hit in a frame no earlier than the open one keeps every frame binned. */
  lemma HitBinned(notes: seq<Note>, timeframe: real)
    requires timeframe > 0.0 && |notes| > 0 && IsHit(notes[|notes| - 1].kind)
    requires Binned(PlotOf(notes[..|notes| - 1], timeframe), notes[..|notes| - 1], timeframe)
    requires |PlotOf(notes[..|notes| - 1], timeframe).data| == Reach(notes[..|notes| - 1], timeframe)
    requires Reach(notes[..|notes| - 1], timeframe) <= Frame(notes[|notes| - 1].time, timeframe)
    ensures Binned(PlotOf(notes, timeframe), notes, timeframe)
  {
    var n := |notes| - 1;
    var prefix := notes[..n];
    var note := notes[n];
    var p := PlotOf(prefix, timeframe);
    var frame := Frame(note.time, timeframe);
    var q := CatchUp(p, frame);
    assert PlotOf(notes, timeframe) == q.(datum := Count(q.datum, note.kind));
    CatchUpLength(p, frame);
    CatchUpOpen(p, frame);
    forall i | 0 <= i < |q.data| ensures q.data[i] == BinOf(notes, i, timeframe) {
      CatchUpBins(p, frame, i);
      assert BinOf(notes, i, timeframe) == BinOf(prefix, i, timeframe);
      if i > |p.data| {
        BinBeyondReach(prefix, timeframe, i);
      }
    }
    if |p.data| < frame {
      BinBeyondReach(prefix, timeframe, frame);
    }
  }

  /** With the notes in time order and no time negative, every closed frame holds
      exactly the hits of its time frame, and so does the open one. */
  lemma {:induction false} PlotBins(notes: seq<Note>, timeframe: real)
    requires timeframe > 0.0 && InTimeOrder(notes) && NonNegativeTimes(notes)
    ensures Binned(PlotOf(notes, timeframe), notes, timeframe)
    decreases |notes|
  {
    if |notes| > 0 {
      var n := |notes| - 1;
      var prefix := notes[..n];
      assert InTimeOrder(prefix) && NonNegativeTimes(prefix);
      PlotBins(prefix, timeframe);
      if IsHit(notes[n].kind) {
        PlotLength(prefix, timeframe);
        ReachBelow(prefix, timeframe, notes[n].time);
        HitBinned(notes, timeframe);
      } else {
        forall i ensures BinOf(notes, i, timeframe) == BinOf(prefix, i, timeframe) { }
      }
    }
  }

  /** With the notes in time order and no time negative, every frame of the graph holds
      exactly the hits of its time frame, except the frame of the latest hit, which is
      left empty: that frame is still open when the note loop ends. The graph so counts
      every hit but those of that frame. */
  lemma GraphBins(notes: seq<Note>)
    requires Graphable(notes) && InTimeOrder(notes) && NonNegativeTimes(notes)
    ensures forall i :: 0 <= i < |GraphOf(notes).data| ==>
              GraphOf(notes).data[i] == if i == Reach(notes, Timeframe(notes)) then Empty else BinOf(notes, i, Timeframe(notes))
    ensures Total(GraphOf(notes).data) + Size(BinOf(notes, Reach(notes, Timeframe(notes)), Timeframe(notes))) == HitCount(notes)
  {
    var tf := Timeframe(notes);
    var p := PlotOf(notes, tf);
    var g := GraphOf(notes);
    PlotBins(notes, tf);
    PlotLength(notes, tf);
    PadShape(p.data);
    forall i | 0 <= i < |g.data| && i > |p.data| ensures BinOf(notes, i, tf) == Empty {
      BinBeyondReach(notes, tf, i);
    }
    PlotCounts(notes, tf);
    PadTotal(p.data);
  }

  /** A hit followed by the end of a roll: the hit's frame is the latest frame of a hit,
      so the graph shows no hit at all, though the course has one. */
  lemma LastFrameDropped(hit: Note, end: Note)
    requires IsHit(hit.kind) && end.kind.End? && 0.0 <= hit.time <= end.time && end.time > 0.0
    ensures HitCount([hit, end]) == 1
    ensures Total(GraphOf([hit, end]).data) == 0
  {
    var notes := [hit, end];
    OnlyHitLatest(notes, Timeframe(notes));
    GraphBins(notes);
  }

  /** The one hit of two notes is in the latest frame of a hit. */
  lemma OnlyHitLatest(notes: seq<Note>, timeframe: real)
    requires |notes| == 2 && IsHit(notes[0].kind) && !IsHit(notes[1].kind)
    requires 0.0 <= notes[0].time && timeframe > 0.0
    ensures HitCount(notes) == 1
    ensures Size(BinOf(notes, Reach(notes, timeframe), timeframe)) == 1
  {
    OnlyHitReach(notes, timeframe);
    OnlyHitBin(notes, timeframe);
    assert notes[..1][..0] == [];
    assert HitCount(notes[..1]) == 1;
  }

  lemma OnlyHitReach(notes: seq<Note>, timeframe: real)
    requires |notes| == 2 && IsHit(notes[0].kind) && !IsHit(notes[1].kind)
    requires 0.0 <= notes[0].time && timeframe > 0.0
    ensures Reach(notes, timeframe) == Frame(notes[0].time, timeframe)
  {
    assert notes[..1][..0] == [];
    FrameNonNegative(notes[0].time, timeframe);
    assert Reach(notes[..1], timeframe) == Frame(notes[0].time, timeframe);
  }

  lemma OnlyHitBin(notes: seq<Note>, timeframe: real)
    requires |notes| == 2 && IsHit(notes[0].kind) && !IsHit(notes[1].kind)
    requires timeframe > 0.0
    ensures Size(BinOf(notes, Frame(notes[0].time, timeframe), timeframe)) == 1
  {
    var f := Frame(notes[0].time, timeframe);
    BinOfNonHit(notes, f, timeframe);
    BinOfFirst(notes[..1], timeframe);
  }

  /** A note that is not a hit adds to no frame. */
  lemma BinOfNonHit(notes: seq<Note>, i: int, timeframe: real)
    requires |notes| > 0 && !IsHit(notes[|notes| - 1].kind) && timeframe > 0.0
    ensures BinOf(notes, i, timeframe) == BinOf(notes[..|notes| - 1], i, timeframe)
  {
  }

  /** A lone hit counts once in its own frame. */
  lemma BinOfFirst(notes: seq<Note>, timeframe: real)
    requires |notes| == 1 && IsHit(notes[0].kind) && timeframe > 0.0
    ensures Size(BinOf(notes, Frame(notes[0].time, timeframe), timeframe)) == 1
  {
    assert notes[..0] == [];
  }
}
