/** The per-frame step over the live segments: scroll every segment left,
    score the unscored segments the bird has passed, and drop the segments
    that have left the field. These functions specify the loops of the play
    scene's `Update`. */
module Frame {

  import opened Pipes

  /** Pixels every segment moves left per frame. */
  const ScrollStep: real := 1.5
  /** Segments whose x falls below this are destroyed. */
  const OffscreenX: real := -50.0

  /** Every segment moved left by one step: the same segments in the same
      order, each x lower by exactly 1.5 and its y and flag kept. */
  function Scrolled(ps: seq<Pipe>): (r: seq<Pipe>)
    ensures |r| == |ps|
    ensures forall k :: 0 <= k < |ps| ==>
      r[k].x == ps[k].x - ScrollStep && r[k].y == ps[k].y && r[k].scored == ps[k].scored
  {
    seq(|ps|, k requires 0 <= k < |ps| => ps[k].(x := ps[k].x - ScrollStep))
  }

  /** A segment that scores now: behind the bird and not yet scored. */
  predicate Scorable(p: Pipe, birdX: real)
    ensures Scorable(p, birdX) ==> !p.scored
  {
    p.x < birdX && !p.scored
  }

  /** A segment after the scoring test. */
  function Mark(p: Pipe, birdX: real): (m: Pipe)
    ensures m.x == p.x && m.y == p.y
    ensures m.scored <==> p.scored || p.x < birdX
    ensures !Scorable(m, birdX)
  {
    if Scorable(p, birdX) then p.(scored := true) else p
  }

  /** The scoring pass over all segments: one marked segment per segment. */
  function ScorePass(ps: seq<Pipe>, birdX: real): (r: seq<Pipe>)
    ensures |r| == |ps|
  {
    if ps == [] then []
    else ScorePass(ps[..|ps| - 1], birdX) + [Mark(ps[|ps| - 1], birdX)]
  }

  /** The points the scoring pass awards: one per scorable segment, so none
      exactly when no segment is scorable. */
  function Gained(ps: seq<Pipe>, birdX: real): (g: nat)
    ensures g <= |ps|
    ensures g == 0 <==> forall k :: 0 <= k < |ps| ==> !Scorable(ps[k], birdX)
  {
    if ps == [] then 0
    else Gained(ps[..|ps| - 1], birdX) + (if Scorable(ps[|ps| - 1], birdX) then 1 else 0)
  }

  /** The segments kept by the cleanup, in their order; none of them lies
      left of x = -50. */
  function OnScreen(ps: seq<Pipe>): (r: seq<Pipe>)
    ensures |r| <= |ps|
    ensures forall k :: 0 <= k < |r| ==> OffscreenX <= r[k].x
  {
    if ps == [] then []
    else OnScreen(ps[..|ps| - 1]) + (if ps[|ps| - 1].x < OffscreenX then [] else [ps[|ps| - 1]])
  }

  /** Scrolling leaves the number of segments waiting to be scored alone. */
  lemma {:induction false} ScrolledUnscored(ps: seq<Pipe>)
    ensures Unscored(Scrolled(ps)) == Unscored(ps)
  {
    if ps != [] {
      var n := |ps| - 1;
      assert Scrolled(ps)[..n] == Scrolled(ps[..n]);
      ScrolledUnscored(ps[..n]);
    }
  }

  /** A pass over segments none of which is scorable changes nothing and
      awards nothing. */
  lemma {:induction false} ScorePassQuiet(ps: seq<Pipe>, birdX: real)
    requires forall k :: 0 <= k < |ps| ==> !Scorable(ps[k], birdX)
    ensures ScorePass(ps, birdX) == ps && Gained(ps, birdX) == 0
  {
    if ps != [] {
      var n := |ps| - 1;
      ScorePassQuiet(ps[..n], birdX);
      assert ps == ps[..n] + [ps[n]];
    }
  }

  /** The scoring pass touches each segment on its own: segment k is scored
      afterwards exactly when it was scored or lay behind the bird, and its
      position is unchanged. */
  lemma {:induction false} ScorePassAt(ps: seq<Pipe>, birdX: real, k: nat)
    requires k < |ps|
    ensures ScorePass(ps, birdX)[k] == ps[k].(scored := ps[k].scored || ps[k].x < birdX)
  {
    var n := |ps| - 1;
    if k < n {
      ScorePassAt(ps[..n], birdX, k);
    }
  }

  /** After the pass no segment behind the bird is left unscored. */
  lemma ScorePassLeavesNoneBehind(ps: seq<Pipe>, birdX: real)
    ensures forall k :: 0 <= k < |ScorePass(ps, birdX)| && ScorePass(ps, birdX)[k].x < birdX ==> ScorePass(ps, birdX)[k].scored
  {
    forall k | 0 <= k < |ps|
      ensures ScorePass(ps, birdX)[k].x < birdX ==> ScorePass(ps, birdX)[k].scored
    {
      ScorePassAt(ps, birdX, k);
    }
  }

  /** Count-once scoring: the points awarded are exactly the flags the pass
      turns from false to true, so score plus waiting segments is
      conserved. */
  lemma {:induction false} ScorePassConserves(ps: seq<Pipe>, birdX: real)
    ensures Unscored(ScorePass(ps, birdX)) + Gained(ps, birdX) == Unscored(ps)
  {
    if ps != [] {
      var n := |ps| - 1;
      ScorePassConserves(ps[..n], birdX);
      var q := ScorePass(ps, birdX);
      assert q[..|q| - 1] == ScorePass(ps[..n], birdX);
    }
  }

  /** A second pass with unchanged positions changes nothing and awards
      nothing: already-scored segments never score again. */
  lemma {:induction false} ScorePassIdempotent(ps: seq<Pipe>, birdX: real)
    ensures ScorePass(ScorePass(ps, birdX), birdX) == ScorePass(ps, birdX)
    ensures Gained(ScorePass(ps, birdX), birdX) == 0
  {
    if ps != [] {
      var n := |ps| - 1;
      ScorePassIdempotent(ps[..n], birdX);
      var q := ScorePass(ps, birdX);
      assert q[..|q| - 1] == ScorePass(ps[..n], birdX);
    }
  }

  /** The cleanup keeps exactly the segments at or right of x = -50. */
  lemma {:induction false} OnScreenMembers(ps: seq<Pipe>)
    ensures forall p :: p in OnScreen(ps) <==> p in ps && OffscreenX <= p.x
  {
    if ps != [] {
      var n := |ps| - 1;
      OnScreenMembers(ps[..n]);
      assert ps == ps[..n] + [ps[n]];
    }
  }

  /** The cleanup keeps every copy of a segment at or right of x = -50 and
      no copy of any other. */
  lemma {:induction false} OnScreenCounts(ps: seq<Pipe>)
    ensures forall p :: multiset(OnScreen(ps))[p] == if OffscreenX <= p.x then multiset(ps)[p] else 0
  {
    if ps != [] {
      var n := |ps| - 1;
      OnScreenCounts(ps[..n]);
      assert ps == ps[..n] + [ps[n]];
    }
  }

  /** The cleanup leaves a field with nothing off screen unchanged. */
  lemma {:induction false} OnScreenKeepsAll(ps: seq<Pipe>)
    requires forall k :: 0 <= k < |ps| ==> OffscreenX <= ps[k].x
    ensures OnScreen(ps) == ps
  {
    if ps != [] {
      var n := |ps| - 1;
      OnScreenKeepsAll(ps[..n]);
      assert ps == ps[..n] + [ps[n]];
    }
  }

  /** The cleanup drops no segment that still waits to be scored when every
      segment off screen is already scored. */
  lemma {:induction false} OnScreenKeepsUnscored(ps: seq<Pipe>)
    requires forall k :: 0 <= k < |ps| && ps[k].x < OffscreenX ==> ps[k].scored
    ensures Unscored(OnScreen(ps)) == Unscored(ps)
  {
    if ps != [] {
      var n := |ps| - 1;
      OnScreenKeepsUnscored(ps[..n]);
      var tail := if ps[n].x < OffscreenX then [] else [ps[n]];
      UnscoredAppend(OnScreen(ps[..n]), tail);
      assert Unscored(tail) == (if ps[n].scored then 0 else 1) by {
        if tail != [] { assert tail[..0] == []; }
      }
    }
  }

  /** One step of the frame's scoring-and-cleanup walk: the next segment is
      marked, scores when it was scorable, and is kept when on screen. */
  lemma WalkStep(ps: seq<Pipe>, birdX: real, i: nat)
    requires i < |ps|
    ensures OnScreen(ScorePass(ps[..i + 1], birdX)) ==
      OnScreen(ScorePass(ps[..i], birdX)) + (if Mark(ps[i], birdX).x < OffscreenX then [] else [Mark(ps[i], birdX)])
    ensures Gained(ps[..i + 1], birdX) == Gained(ps[..i], birdX) + (if Scorable(ps[i], birdX) then 1 else 0)
  {
    assert ps[..i + 1][..i] == ps[..i];
    var q := ScorePass(ps[..i + 1], birdX);
    assert q == ScorePass(ps[..i], birdX) + [Mark(ps[i], birdX)];
    assert q[..|q| - 1] == ScorePass(ps[..i], birdX);
  }

  /** With the bird at or right of the cleanup line, the frame's scoring pass
      followed by the cleanup loses no point: score plus waiting segments is
      the same before and after. */
  lemma FrameConserves(ps: seq<Pipe>, birdX: real)
    requires OffscreenX <= birdX
    ensures Unscored(OnScreen(ScorePass(ps, birdX))) + Gained(ps, birdX) == Unscored(ps)
  {
    ScorePassLeavesNoneBehind(ps, birdX);
    OnScreenKeepsUnscored(ScorePass(ps, birdX));
    ScorePassConserves(ps, birdX);
  }
}
