/** The obstacle segments of the play field: each tree emoji the play scene
    adds to its pipes group is one `Pipe`. */
module Pipes {

  /** One 50-pixel segment: its centre and whether it still waits to be
      scored. Only the leading segment of a spawn starts unscored; every other
      segment is created already scored, so it never counts. */
  datatype Pipe = Pipe(x: real, y: real, scored: bool)

  /** The number of segments still waiting to be scored. */
  function Unscored(ps: seq<Pipe>): (n: nat)
    ensures n <= |ps|
    ensures n == 0 <==> forall k :: 0 <= k < |ps| ==> ps[k].scored
  {
    if ps == [] then 0
    else Unscored(ps[..|ps| - 1]) + (if ps[|ps| - 1].scored then 0 else 1)
  }

  /** Counting unscored segments distributes over concatenation. */
  lemma {:induction false} UnscoredAppend(a: seq<Pipe>, b: seq<Pipe>)
    ensures Unscored(a + b) == Unscored(a) + Unscored(b)
  {
    if b != [] {
      var last := |b| - 1;
      assert (a + b)[..|a + b| - 1] == a + b[..last];
      UnscoredAppend(a, b[..last]);
    } else {
      assert a + b == a;
    }
  }
}
