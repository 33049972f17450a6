/** The obstacle spawn policy of the play scene: from the score and the number
    of live segments it chooses a pipe type and its geometry, and turns that
    choice into a column (or two) of 50-pixel segments.

    Every `Phaser.Math.Between(lo, hi)` draw of the source is an explicit
    argument (a `Draws` value) constrained to its closed range by `DrawsOk`,
    so that the policy is a deterministic function of score and draws. */
module Spawn {

  import opened Wrappers
  import opened Pipes

  /** Height of one segment (the emoji size). */
  const SegmentSize: real := 50.0
  /** Every segment is created just right of the visible field. */
  const SpawnX: real := 450.0
  /** The ground line: bottom columns grow up from here. */
  const GroundY: int := 560
  /** The gap-centre draw used when the pipe type is not a double. */
  const DefaultGapY: Span := Span(150, 400)

  datatype PipeType = Top | Bottom | Both

  /** A closed integer range, as passed to `Phaser.Math.Between`. */
  datatype Span = Span(lo: int, hi: int) {
    predicate Contains(v: int) { lo <= v <= hi }
  }

  /** One row of the difficulty table: the upper bound of the pipe-type draw
      (which starts at 0), the gap between the two columns of a double, the
      height range of a single column, and the range of a double's gap
      centre (absent in the easiest tier, which never yields a double). */
  datatype Tier = Tier(kindMax: nat, gapSize: int, minHeight: int, maxHeight: int, gapY: Option<Span>)

  /** The difficulty table, keyed by the score thresholds 3, 5, 8 and 12.
      Every tier offers both single types, a non-empty height range and a
      gap of at least 138 pixels; a gap-centre range exists exactly from
      score 3 on, and it keeps both columns of a double at least 80 pixels
      high. */
  function TierFor(score: nat): (t: Tier)
    ensures 1 <= t.kindMax <= 6
    ensures 138 <= t.gapSize <= 170
    ensures 120 <= t.minHeight < t.maxHeight <= 410
    ensures t.gapY.Some? <==> 3 <= score
    ensures t.gapY.Some? ==>
      && t.gapY.value.lo < t.gapY.value.hi
      && t.gapY.value.lo as real - t.gapSize as real / 2.0 >= 80.0
      && (GroundY - t.gapY.value.hi) as real - t.gapSize as real / 2.0 >= 80.0
  {
    if score < 3 then Tier(1, 170, 120, 220, None)
    else if score < 5 then Tier(2, 160, 140, 260, Some(Span(180, 380)))
    else if score < 8 then Tier(3, 155, 160, 310, Some(Span(170, 390)))
    else if score < 12 then Tier(5, 148, 180, 360, Some(Span(160, 400)))
    else Tier(6, 138, 200, 410, Some(Span(150, 410)))
  }

  /** The first pipe of a session: nothing scored and no segment alive. */
  predicate IsFirstPipe(score: nat, live: nat)
    ensures IsFirstPipe(score, live) ==> TierFor(score).gapY.None?
  {
    score == 0 && live == 0
  }

  /** The pipe type chosen from the type draw `draw`. Within a tier, the
      outcomes 0 .. kindMax-2 give a double, kindMax-1 a top and kindMax a
      bottom pipe; the first pipe is always a bottom pipe. */
  function KindFor(score: nat, live: nat, draw: int): (k: PipeType)
    ensures IsFirstPipe(score, live) ==> k == Bottom
    ensures k == Both ==> 3 <= score
    ensures !IsFirstPipe(score, live) && 0 <= draw <= TierFor(score).kindMax ==>
      && (k == Both <==> draw < TierFor(score).kindMax - 1)
      && (k == Top <==> draw == TierFor(score).kindMax - 1)
      && (k == Bottom <==> draw == TierFor(score).kindMax)
  {
    if IsFirstPipe(score, live) then Bottom
    else if score < 3 then (if draw == 0 then Top else Bottom)
    else if score < 5 then (if draw == 0 then Both else if draw == 1 then Top else Bottom)
    else if score < 8 then (if draw < 2 then Both else if draw == 2 then Top else Bottom)
    else if score < 12 then (if draw < 4 then Both else if draw == 4 then Top else Bottom)
    else (if draw < 5 then Both else if draw == 5 then Top else Bottom)
  }

  /** The height range of a single column: the first pipe overrides the tier. */
  function HeightSpan(score: nat, live: nat): (r: Span)
    ensures IsFirstPipe(score, live) ==> r == Span(120, 180)
    ensures 120 <= r.lo < r.hi <= 410
  {
    if IsFirstPipe(score, live) then Span(120, 180)
    else Span(TierFor(score).minHeight, TierFor(score).maxHeight)
  }

  /** The range of the gap-centre draw, which is made for every pipe type. */
  function GapYSpan(score: nat, kind: PipeType): (r: Span)
    requires kind == Both ==> 3 <= score
    ensures kind != Both ==> r == DefaultGapY
    ensures 150 <= r.lo < r.hi <= 410
  {
    if kind == Both then TierFor(score).gapY.value else DefaultGapY
  }

  /** The values of the random draws of one spawn. */
  datatype Draws = Draws(kind: int, gapY: int, height: int)

  /** Every draw the spawn makes lies in its closed range. The type draw is
      not made for the first pipe and the height draw is not made for a
      double, so those are left free. */
  predicate DrawsOk(score: nat, live: nat, d: Draws)
    ensures DrawsOk(score, live, d) ==>
      && (IsFirstPipe(score, live) || 0 <= d.kind <= 6)
      && 150 <= d.gapY <= 410
      && (KindFor(score, live, d.kind) != Both ==> 120 <= d.height <= 410)
  {
    var kind := KindFor(score, live, d.kind);
    && (IsFirstPipe(score, live) || 0 <= d.kind <= TierFor(score).kindMax)
    && GapYSpan(score, kind).Contains(d.gapY)
    && (kind != Both ==> HeightSpan(score, live).Contains(d.height))
  }

  /** Whatever the score and the number of live segments, the spawn has
      draws to make: the bottom-pipe outcome of the type draw, the lowest
      gap centre and the lowest height. */
  lemma DrawsExist(score: nat, live: nat)
    ensures exists d :: DrawsOk(score, live, d)
  {
    var d := Draws(TierFor(score).kindMax, DefaultGapY.lo, HeightSpan(score, live).lo);
    assert KindFor(score, live, d.kind) == Bottom;
    assert DrawsOk(score, live, d);
  }

  /** What one spawn builds: a single column anchored at the top or at the
      ground with the given height, or two columns around a gap. */
  datatype Instruction =
    | TopPipe(height: int)
    | BottomPipe(height: int)
    | DoublePipe(gapY: int, gapSize: int)

  /** The spawn decision. */
  function Decide(score: nat, live: nat, d: Draws): (i: Instruction)
    requires DrawsOk(score, live, d)
    ensures IsFirstPipe(score, live) ==> i == BottomPipe(d.height) && 120 <= d.height <= 180
    ensures i.DoublePipe? ==>
      && 3 <= score
      && i.gapSize == TierFor(score).gapSize
      && TierFor(score).gapY.Some?
      && TierFor(score).gapY.value.Contains(i.gapY)
    ensures !i.DoublePipe? ==> HeightSpan(score, live).Contains(i.height)
    ensures score < 3 ==> !i.DoublePipe?
    ensures i.DoublePipe? <==> KindFor(score, live, d.kind) == Both
    ensures i.TopPipe? <==> KindFor(score, live, d.kind) == Top
    ensures i.DoublePipe? ==> i.gapY == d.gapY
    ensures !i.DoublePipe? ==> i.height == d.height
  {
    match KindFor(score, live, d.kind)
    case Top => TopPipe(d.height)
    case Bottom => BottomPipe(d.height)
    case Both => DoublePipe(d.gapY, TierFor(score).gapSize)
  }

  /** `Math.ceil` on an exact rational. */
  function Ceil(r: real): (n: int)
    ensures (n - 1) as real < r <= n as real
  {
    -((-r).Floor)
  }

  /** A column of segments covering `extent` pixels from the y position
      `start` downwards: ceil(extent/50) segments, segment i centred at
      start + 50i + 25, all at x = 450. Only the first segment is left
      unscored, and only when `scoreFirst` holds. */
  function Column(start: real, extent: real, scoreFirst: bool): (c: seq<Pipe>)
    ensures extent <= 0.0 ==> c == []
    ensures 0.0 < extent ==> 0 < |c| && (|c| - 1) as real * SegmentSize < extent <= |c| as real * SegmentSize
    ensures forall i :: 0 <= i < |c| ==>
      && c[i].x == SpawnX
      && c[i].y == start + SegmentSize * i as real + SegmentSize / 2.0
      && (c[i].scored <==> !(scoreFirst && i == 0))
  {
    var n := Ceil(extent / SegmentSize);
    seq(if n < 0 then 0 else n, i => Pipe(SpawnX, start + SegmentSize * i as real + SegmentSize / 2.0, !(scoreFirst && i == 0)))
  }

  /** A column holds one unscored segment exactly when it is non-empty and
      its first segment is the one to score. */
  lemma ColumnUnscored(start: real, extent: real, scoreFirst: bool)
    ensures Unscored(Column(start, extent, scoreFirst)) == if scoreFirst && 0.0 < extent then 1 else 0
  {
    var c := Column(start, extent, scoreFirst);
    if c != [] {
      assert c == [c[0]] + c[1..];
      UnscoredAppend([c[0]], c[1..]);
      assert Unscored([c[0]]) == if c[0].scored then 0 else 1 by {
        assert [c[0]][..0] == [];
      }
    }
  }

  /** Height of the top column of a top or double pipe. */
  function TopExtent(i: Instruction): (h: real)
    requires !i.BottomPipe?
    ensures i.TopPipe? ==> h == i.height as real
    ensures i.DoublePipe? ==> i.gapY as real - h == i.gapSize as real / 2.0
  {
    match i
    case TopPipe(h) => h as real
    case DoublePipe(g, s) => g as real - s as real / 2.0
  }

  /** Where the bottom column of a bottom or double pipe starts. */
  function BottomStart(i: Instruction): (y: real)
    requires !i.TopPipe?
    ensures i.BottomPipe? ==> GroundY as real - y == i.height as real
    ensures i.DoublePipe? ==> y - i.gapY as real == i.gapSize as real / 2.0
  {
    match i
    case BottomPipe(h) => (GroundY - h) as real
    case DoublePipe(g, s) => g as real + s as real / 2.0
  }

  /** The segments one spawn adds, top column first, all at x = 450. In a
      double only the top column's first segment is scored; a bottom pipe
      scores its own. */
  function Segments(i: Instruction): (r: seq<Pipe>)
    ensures forall k :: 0 <= k < |r| ==> r[k].x == SpawnX
  {
    TopSegments(i) + BottomSegments(i)
  }

  /** The top column of a top or double pipe: it starts at the top of the
      field, its first segment is the unscored one, and its last segment
      covers the column's height by less than one segment. */
  function TopSegments(i: Instruction): (r: seq<Pipe>)
    ensures i.BottomPipe? ==> r == []
    ensures !i.BottomPipe? && 0.0 < TopExtent(i) ==>
      && r != [] && r[0].y - SegmentSize / 2.0 == 0.0 && !r[0].scored
      && TopExtent(i) <= r[|r| - 1].y + SegmentSize / 2.0 < TopExtent(i) + SegmentSize
  {
    if i.BottomPipe? then [] else Column(0.0, TopExtent(i), true)
  }

  /** The bottom column of a bottom or double pipe: it starts at its start
      line and reaches the ground; only a bottom pipe's first segment is
      unscored. */
  function BottomSegments(i: Instruction): (r: seq<Pipe>)
    ensures i.TopPipe? ==> r == []
    ensures !i.TopPipe? && BottomStart(i) < GroundY as real ==>
      && r != [] && r[0].y - SegmentSize / 2.0 == BottomStart(i) && (r[0].scored <==> i.DoublePipe?)
      && GroundY as real <= r[|r| - 1].y + SegmentSize / 2.0 < GroundY as real + SegmentSize
  {
    if i.TopPipe? then [] else Column(BottomStart(i), GroundY as real - BottomStart(i), i.BottomPipe?)
  }

  /** Both columns of a double are non-empty and exactly `gapSize` apart. */
  lemma DoubleGeometry(score: nat, live: nat, d: Draws)
    requires DrawsOk(score, live, d)
    requires Decide(score, live, d).DoublePipe?
    ensures var i := Decide(score, live, d);
      && 0.0 < TopExtent(i)
      && BottomStart(i) < GroundY as real
      && BottomStart(i) - TopExtent(i) == i.gapSize as real
  {
  }

  /** The segments of a double leave a visible gap between the bottom edge of
      the top column's last segment and the top of the bottom column: at most
      `gapSize` (segments round the top column up to whole segments) and more
      than `gapSize - 50`, so never less than 88 pixels. */
  lemma DoubleVisibleGap(score: nat, live: nat, d: Draws)
    requires DrawsOk(score, live, d)
    requires Decide(score, live, d).DoublePipe?
    ensures var i := Decide(score, live, d);
      var top := TopSegments(i);
      var bottom := BottomSegments(i);
      var topEdge := top[|top| - 1].y + SegmentSize / 2.0;
      && top != [] && bottom != []
      && bottom[0].y - SegmentSize / 2.0 - topEdge <= i.gapSize as real
      && bottom[0].y - SegmentSize / 2.0 - topEdge > i.gapSize as real - SegmentSize
      && bottom[0].y - SegmentSize / 2.0 - topEdge > 88.0
  {
    DoubleGeometry(score, live, d);
  }

  /** Every spawn produces exactly one segment with `scored == false`, and it
      is the first segment: the first top segment of a top or double pipe, the
      first bottom segment of a bottom pipe. */
  lemma SpawnScoresOnce(score: nat, live: nat, d: Draws)
    requires DrawsOk(score, live, d)
    ensures var segs := Segments(Decide(score, live, d));
      && Unscored(segs) == 1
      && segs != [] && !segs[0].scored
      && forall k :: 0 < k < |segs| ==> segs[k].scored
  {
    var i := Decide(score, live, d);
    UnscoredAppend(TopSegments(i), BottomSegments(i));
    if i.DoublePipe? {
      DoubleGeometry(score, live, d);
      ColumnUnscored(0.0, TopExtent(i), true);
      ColumnUnscored(BottomStart(i), GroundY as real - BottomStart(i), false);
    } else if i.TopPipe? {
      ColumnUnscored(0.0, TopExtent(i), true);
    } else {
      ColumnUnscored(BottomStart(i), GroundY as real - BottomStart(i), true);
    }
  }

  /** Appending a spawn to the live segments adds exactly one segment that
      waits to be scored. */
  lemma SpawnAddsOneGate(live: seq<Pipe>, score: nat, n: nat, d: Draws)
    requires DrawsOk(score, n, d)
    ensures Unscored(live + Segments(Decide(score, n, d))) == Unscored(live) + 1
  {
    SpawnScoresOnce(score, n, d);
    UnscoredAppend(live, Segments(Decide(score, n, d)));
  }

  /** Difficulty never eases as the score grows: the gap narrows, single
      columns get taller and the share of doubles among the type-draw
      outcomes grows. */
  lemma TierMonotone(s1: nat, s2: nat)
    requires s1 <= s2
    ensures TierFor(s2).gapSize <= TierFor(s1).gapSize
    ensures TierFor(s1).minHeight <= TierFor(s2).minHeight
    ensures TierFor(s1).maxHeight <= TierFor(s2).maxHeight
    ensures TierFor(s1).kindMax <= TierFor(s2).kindMax
    ensures (TierFor(s1).kindMax - 1) * (TierFor(s2).kindMax + 1) <= (TierFor(s2).kindMax - 1) * (TierFor(s1).kindMax + 1)
  {
  }

  /** Across a tier boundary the change is strict. */
  lemma TierStrict(s1: nat, s2: nat)
    requires s1 <= s2 && TierFor(s1) != TierFor(s2)
    ensures TierFor(s2).gapSize < TierFor(s1).gapSize
    ensures TierFor(s1).minHeight < TierFor(s2).minHeight
    ensures TierFor(s1).maxHeight < TierFor(s2).maxHeight
  {
  }
}
