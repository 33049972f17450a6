/** The play scene: the session flags, the live segments and the score, and
    the methods that change them (flap, spawn, per-frame update, game end,
    pause and resume, and the high-score slot). */
module Play {

  import opened Wrappers
  import opened Pipes
  import opened Spawn
  import opened Frame
  import HighScore

  /** The bird is created at x = 100 and its horizontal velocity is never
      other than 0, so its x stays 100. */
  const BirdX: real := 100.0
  /** The top of the field: a bird at or above it ends the game. */
  const CeilingY: real := 0.0

  /** The browser storage slot that holds the high score. */
  class HighScoreStore {
    var saved: Option<int>

    constructor (saved: Option<int>)
      ensures this.saved == saved
    {
      this.saved := saved;
    }
  }

  class PlayScene {
    var score: nat
    var gameStarted: bool
    var gameOver: bool
    var isPaused: bool
    /** Whether the repeating spawn timer exists and has not been destroyed. */
    var timerActive: bool
    /** The live segments of the pipes group, in the group's order. */
    var pipes: seq<Pipe>
    const store: HighScoreStore
    /** The number of spawns so far: each spawn is one scoring gate. */
    ghost var spawned: nat

    /** The session invariant. Before the first flap nothing exists; the
        spawn timer runs exactly while the session is started and not over;
        a paused session is not over; and every gate spawned so far has been
        counted once or is still waiting to be scored. */
    ghost predicate Valid()
      reads this
    {
      && (!gameStarted ==> pipes == [] && score == 0 && spawned == 0 && !isPaused && !gameOver)
      && (timerActive <==> gameStarted && !gameOver)
      && (isPaused ==> !gameOver)
      && score + Unscored(pipes) == spawned
    }

    /** The scene's create(): a fresh session that has not started. */
    constructor (store: HighScoreStore)
      ensures Valid()
      ensures this.store == store
      ensures score == 0 && pipes == []
      ensures !gameStarted && !gameOver && !isPaused && !timerActive
    {
      this.store := store;
      score := 0;
      gameStarted := false;
      gameOver := false;
      isPaused := false;
      timerActive := false;
      pipes := [];
      spawned := 0;
    }

    /** getHighScore. */
    function GetHighScore(): (h: int)
      reads store
      ensures store.saved == None ==> h == 0
    {
      HighScore.Read(store.saved)
    }

    /** saveHighScore: true exactly when the score beats the stored one. */
    method SaveHighScore(s: int) returns (isNew: bool)
      modifies store
      ensures isNew == (s > old(GetHighScore()))
      ensures store.saved == HighScore.AfterSave(old(store.saved), s)
      ensures GetHighScore() == if isNew then s else old(GetHighScore())
    {
      var currentHigh := GetHighScore();
      if s > currentHigh {
        store.saved := Some(s);
        return true;
      }
      return false;
    }

    /** resetHighScore, with the player's answer to the confirmation. */
    method ResetHighScore(confirmed: bool)
      modifies store
      ensures confirmed ==> store.saved == None && GetHighScore() == 0
      ensures !confirmed ==> store.saved == old(store.saved)
    {
      if confirmed {
        store.saved := None;
      }
    }

    /** flap: ignored once the game is over; the first flap starts the
        session and the spawn timer and spawns the first pipe at once, which
        is always a bottom pipe 120 to 180 pixels high. */
    method Flap(d: Draws)
      requires Valid()
      requires !gameOver && !gameStarted ==> DrawsOk(0, 0, d)
      modifies this
      ensures Valid()
      ensures old(gameOver) || old(gameStarted) ==> unchanged(this)
      ensures !old(gameOver) && !old(gameStarted) ==>
        && gameStarted && timerActive && !gameOver && !isPaused && score == 0
        && pipes == Segments(BottomPipe(d.height)) && 120 <= d.height <= 180
        && Unscored(pipes) == 1
    {
      if gameOver {
        return;
      }
      if !gameStarted {
        gameStarted := true;
        timerActive := true;
        SpawnPipe(d);
        SpawnScoresOnce(0, 0, d);
      }
    }

    /** The pointer and space-bar handlers: flap unless paused. */
    method OnFlapInput(d: Draws)
      requires Valid()
      requires !isPaused && !gameOver && !gameStarted ==> DrawsOk(0, 0, d)
      modifies this
      ensures Valid()
      ensures old(isPaused || gameOver || gameStarted) ==> unchanged(this)
      ensures !old(isPaused || gameOver || gameStarted) ==>
        && gameStarted && timerActive && !gameOver && !isPaused && score == 0
        && pipes == Segments(BottomPipe(d.height))
    {
      if !isPaused {
        Flap(d);
      }
    }

    /** One firing of the repeating spawn timer. */
    method TimerTick(d: Draws)
      requires Valid()
      requires timerActive ==> DrawsOk(score, |pipes|, d)
      modifies this`pipes, this`spawned
      ensures Valid()
      ensures !old(timerActive) ==> unchanged(this)
      ensures old(timerActive) ==> pipes == old(pipes) + Segments(Decide(old(score), |old(pipes)|, d))
    {
      if timerActive {
        SpawnPipe(d);
      }
    }

    /** spawnPipe: nothing once the game is over; otherwise the segments of
        the chosen pipe are appended to the group, top column first. */
    method SpawnPipe(d: Draws)
      requires Valid() && gameStarted
      requires !gameOver ==> DrawsOk(score, |pipes|, d)
      modifies this`pipes, this`spawned
      ensures Valid()
      ensures old(gameOver) ==> pipes == old(pipes) && spawned == old(spawned)
      ensures !old(gameOver) ==> pipes == old(pipes) + Segments(Decide(score, |old(pipes)|, d))
    {
      if gameOver {
        return;
      }
      var live := |pipes|;
      ghost var before := pipes;
      ghost var instr := Decide(score, live, d);
      var pipeType := KindFor(score, live, d.kind);
      var gapSize := TierFor(score).gapSize;
      var gapY := d.gapY;
      CreatePipes(pipeType, gapSize, gapY, d.height, instr);
      SpawnAddsOneGate(before, score, live, d);
      spawned := spawned + 1;
    }

    /** The two creation steps of spawnPipe: the top column for a top or
        double pipe, then the bottom column for a bottom or double pipe.
        `height` is the single column's height draw. */
    method CreatePipes(pipeType: PipeType, gapSize: int, gapY: int, height: int, ghost instr: Instruction)
      requires instr == match pipeType
        case Top => TopPipe(height)
        case Bottom => BottomPipe(height)
        case Both => DoublePipe(gapY, gapSize)
      modifies this`pipes
      ensures pipes == old(pipes) + Segments(instr)
    {
      AddTopColumn(pipeType, gapSize, gapY, height, instr);
      AddBottomColumn(pipeType, gapSize, gapY, height, instr);
      assert pipes == old(pipes) + (TopSegments(instr) + BottomSegments(instr));
    }

    /** The first creation step of spawnPipe: for a top or double pipe, a
        column from the top of the field down to the top pipe's height. */
    method AddTopColumn(pipeType: PipeType, gapSize: int, gapY: int, height: int, ghost instr: Instruction)
      requires instr == match pipeType
        case Top => TopPipe(height)
        case Bottom => BottomPipe(height)
        case Both => DoublePipe(gapY, gapSize)
      modifies this`pipes
      ensures pipes == old(pipes) + TopSegments(instr)
    {
      if pipeType == Top || pipeType == Both {
        var topPipeHeight: real := if pipeType == Both then gapY as real - gapSize as real / 2.0 else height as real;
        AddColumn(0.0, topPipeHeight, true);
      }
    }

    /** The second creation step of spawnPipe: for a bottom or double pipe,
        a column from its start line down to the ground. */
    method AddBottomColumn(pipeType: PipeType, gapSize: int, gapY: int, height: int, ghost instr: Instruction)
      requires instr == match pipeType
        case Top => TopPipe(height)
        case Bottom => BottomPipe(height)
        case Both => DoublePipe(gapY, gapSize)
      modifies this`pipes
      ensures pipes == old(pipes) + BottomSegments(instr)
    {
      if pipeType == Bottom || pipeType == Both {
        var bottomPipeStart: real;
        if pipeType == Both {
          bottomPipeStart := gapY as real + gapSize as real / 2.0;
        } else {
          bottomPipeStart := (GroundY - height) as real;
        }
        AddColumn(bottomPipeStart, GroundY as real - bottomPipeStart, pipeType == Bottom);
      }
    }

    /** One segment loop of spawnPipe: ceil(extent/50) segments appended
        from the y position `start` down, only the first of them unscored
        and only when `scoreFirst` holds. */
    method AddColumn(start: real, extent: real, scoreFirst: bool)
      modifies this`pipes
      ensures pipes == old(pipes) + Column(start, extent, scoreFirst)
    {
      var count := Ceil(extent / SegmentSize);
      ghost var column := Column(start, extent, scoreFirst);
      var i := 0;
      while i < count
        invariant 0 <= i <= |column|
        invariant pipes == old(pipes) + column[..i]
      {
        pipes := pipes + [Pipe(SpawnX, start + i as real * SegmentSize + 25.0, !(scoreFirst && i == 0))];
        assert column[..i + 1] == column[..i] + [column[i]];
        i := i + 1;
      }
      assert column[..i] == column;
    }

    /** update: one frame. Nothing happens when the game is over or paused,
        nor before the first flap. Otherwise every segment scrolls left, a
        collision or a bird at the ground or above the top ends the game,
        and then the segments behind the bird are scored and the ones off
        screen destroyed. That last step runs even in the frame that ended
        the game, after the high score was already saved. */
    method Update(birdY: real, collided: bool)
      requires Valid()
      modifies this, store
      ensures Valid()
      ensures score >= old(score)
      ensures old(gameOver || isPaused || !gameStarted) ==> unchanged(this) && unchanged(store)
      ensures old(!gameOver && !isPaused && gameStarted) ==>
        var moved := Scrolled(old(pipes));
        var ends := collided || birdY >= GroundY as real || birdY <= CeilingY;
        && pipes == OnScreen(ScorePass(moved, BirdX))
        && score == old(score) + Gained(moved, BirdX)
        && gameStarted && !isPaused && gameOver == ends && timerActive == !ends
        && store.saved == if ends then HighScore.AfterSave(old(store.saved), old(score)) else old(store.saved)
    {
      if gameOver || isPaused {
        return;
      }
      if gameStarted {
        ScrollAndCheck(birdY, collided);
        ScoreAndCleanup();
      }
    }

    /** update as evidently intended: the frame that ends the game scores
        nothing more, so the saved high score covers the final score. */
    method UpdateCorrected(birdY: real, collided: bool)
      requires Valid()
      modifies this, store
      ensures Valid()
      ensures score >= old(score)
      ensures old(gameOver || isPaused || !gameStarted) ==> unchanged(this) && unchanged(store)
      ensures old(!gameOver && !isPaused && gameStarted) ==>
        var moved := Scrolled(old(pipes));
        var ends := collided || birdY >= GroundY as real || birdY <= CeilingY;
        && gameStarted && !isPaused && gameOver == ends && timerActive == !ends
        && (ends ==> pipes == moved && score == old(score))
        && (!ends ==> pipes == OnScreen(ScorePass(moved, BirdX)) && score == old(score) + Gained(moved, BirdX))
        && store.saved == if ends then HighScore.AfterSave(old(store.saved), old(score)) else old(store.saved)
      ensures gameOver && !old(gameOver) ==> GetHighScore() >= score
    {
      if gameOver || isPaused {
        return;
      }
      if gameStarted {
        ScrollAndCheck(birdY, collided);
        if !gameOver {
          ScoreAndCleanup();
        }
      }
    }

    /** The first two steps of a running frame of update: every segment
        scrolls left, then a collision or a bird at the ground or above the
        top ends the game and saves the score reached so far. */
    method ScrollAndCheck(birdY: real, collided: bool)
      requires Valid() && gameStarted && !gameOver && !isPaused
      modifies this`pipes, this`gameOver, this`timerActive, store
      ensures Valid()
      ensures var ends := collided || birdY >= GroundY as real || birdY <= CeilingY;
        && pipes == Scrolled(old(pipes))
        && gameOver == ends && timerActive == !ends
        && store.saved == if ends then HighScore.AfterSave(old(store.saved), score) else old(store.saved)
    {
      ScrollPipes();
      CheckEnd(birdY, collided);
    }

    /** The collision and bird-bounds checks of update. */
    method CheckEnd(birdY: real, collided: bool)
      requires Valid() && gameStarted && !isPaused
      modifies this`gameOver, this`timerActive, store
      ensures Valid()
      ensures var ends := collided || birdY >= GroundY as real || birdY <= CeilingY;
        && gameOver == (old(gameOver) || ends)
        && store.saved == if ends && !old(gameOver) then HighScore.AfterSave(old(store.saved), score) else old(store.saved)
    {
      if collided {
        var _ := EndGame();
      }
      if birdY >= GroundY as real {
        var _ := EndGame();
      }
      if birdY <= CeilingY {
        var _ := EndGame();
      }
    }

    /** The scrolling loop of update. */
    method ScrollPipes()
      requires Valid()
      modifies this`pipes
      ensures Valid()
      ensures pipes == Scrolled(old(pipes))
    {
      var i := 0;
      while i < |pipes|
        invariant 0 <= i <= |pipes| == |old(pipes)|
        invariant forall k :: 0 <= k < i ==> pipes[k] == old(pipes)[k].(x := old(pipes)[k].x - ScrollStep)
        invariant forall k :: i <= k < |pipes| ==> pipes[k] == old(pipes)[k]
      {
        pipes := pipes[i := pipes[i].(x := pipes[i].x - ScrollStep)];
        i := i + 1;
      }
      assert pipes == Scrolled(old(pipes));
      ScrolledUnscored(old(pipes));
    }

    /** The scoring and cleanup step of update; it keeps the count-once
        invariant because the points it awards are the flags it sets and it
        only destroys segments that are already scored. */
    method ScoreAndCleanup()
      requires Valid()
      modifies this`pipes, this`score
      ensures Valid()
      ensures pipes == OnScreen(ScorePass(old(pipes), BirdX))
      ensures score == old(score) + Gained(old(pipes), BirdX)
    {
      ghost var ps := pipes;
      WalkPipes();
      FrameConserves(ps, BirdX);
    }

    /** The loop of update's scoring and cleanup: each unscored segment
        behind the bird is marked and scores one point, then each segment
        left of x = -50 is destroyed. */
    method WalkPipes()
      modifies this`pipes, this`score
      ensures pipes == OnScreen(ScorePass(old(pipes), BirdX))
      ensures score == old(score) + Gained(old(pipes), BirdX)
    {
      ghost var ps := pipes;
      var kept: seq<Pipe> := [];
      var i := 0;
      while i < |pipes|
        invariant 0 <= i <= |ps| && pipes == ps
        invariant kept == OnScreen(ScorePass(ps[..i], BirdX))
        invariant score == old(score) + Gained(ps[..i], BirdX)
      {
        var pipe := pipes[i];
        WalkStep(ps, BirdX, i);
        if pipe.x < BirdX && !pipe.scored {
          pipe := pipe.(scored := true);
          score := score + 1;
        }
        assert pipe == Mark(ps[i], BirdX);
        if !(pipe.x < OffscreenX) {
          kept := kept + [pipe];
        }
        assert kept == OnScreen(ScorePass(ps[..i + 1], BirdX));
        i := i + 1;
      }
      assert ps[..i] == ps;
      pipes := kept;
    }

    /** endGame: idempotent; the first call ends the session, stops the
        spawn timer and saves the score as high score when it beats it. The
        result is the new-high-score flag handed to the game-over screen. */
    method EndGame() returns (isNewHighScore: bool)
      requires Valid() && gameStarted && !isPaused
      modifies this`gameOver, this`timerActive, store
      ensures Valid()
      ensures gameOver && !timerActive
      ensures old(gameOver) ==> store.saved == old(store.saved) && !isNewHighScore
      ensures !old(gameOver) ==>
        && store.saved == HighScore.AfterSave(old(store.saved), score)
        && isNewHighScore == (score > old(GetHighScore()))
    {
      if gameOver {
        return false;
      }
      gameOver := true;
      timerActive := false;
      isNewHighScore := SaveHighScore(score);
    }

    /** showPauseMenu: only a started session that is not over or already
        paused pauses. */
    method ShowPauseMenu()
      requires Valid()
      modifies this`isPaused
      ensures Valid()
      ensures isPaused == (old(isPaused) || (gameStarted && !gameOver))
    {
      if !gameStarted || gameOver || isPaused {
        return;
      }
      isPaused := true;
    }

    /** resumeGame: only a paused session resumes. */
    method ResumeGame()
      requires Valid()
      modifies this`isPaused
      ensures Valid()
      ensures !isPaused
    {
      if !isPaused {
        return;
      }
      isPaused := false;
    }

    /** The ESC handler: in a started session that is not over, toggles
        the pause. */
    method OnEscape()
      requires Valid()
      modifies this`isPaused
      ensures Valid()
      ensures isPaused == if old(gameStarted && !gameOver) then !old(isPaused) else old(isPaused)
    {
      if gameStarted && !gameOver {
        if isPaused {
          ResumeGame();
        } else {
          ShowPauseMenu();
        }
      }
    }
  }

  /** The first pipe of a session with a 120-pixel height draw, once it has
      scrolled to `x`: three segments, the leading one unscored. */
  function FirstPipeAt(x: real): (ps: seq<Pipe>)
  {
    [Pipe(x, 465.0, false), Pipe(x, 515.0, true), Pipe(x, 565.0, true)]
  }

  lemma FirstPipeSegments()
    ensures Segments(BottomPipe(120)) == FirstPipeAt(SpawnX)
  {
    var c := Column(440.0, 120.0, true);
    assert |c| == 3;
    assert BottomSegments(BottomPipe(120)) == c;
  }

  /** A frame in which the first pipe stays right of the bird. */
  lemma QuietFrame(x: real)
    requires BirdX + ScrollStep <= x
    ensures OnScreen(ScorePass(Scrolled(FirstPipeAt(x)), BirdX)) == FirstPipeAt(x - ScrollStep)
    ensures Gained(Scrolled(FirstPipeAt(x)), BirdX) == 0
  {
    assert Scrolled(FirstPipeAt(x)) == FirstPipeAt(x - ScrollStep);
    ScorePassQuiet(FirstPipeAt(x - ScrollStep), BirdX);
    OnScreenKeepsAll(FirstPipeAt(x - ScrollStep));
  }

  /** The frame in which the leading segment passes the bird. */
  lemma PassingFrame()
    ensures Gained(Scrolled(FirstPipeAt(100.5)), BirdX) == 1
  {
    var ps := FirstPipeAt(99.0);
    assert Scrolled(FirstPipeAt(100.5)) == ps;
    assert ps[..1][..0] == [];
    assert Gained(ps[..1], BirdX) == 1;
    assert ps[..2][..1] == ps[..1];
    assert Gained(ps[..2], BirdX) == 1;
    assert ps[..2] == ps[..|ps| - 1];
  }

  /** One frame of the example session in which the first pipe, at `x`,
      stays right of the bird and the bird is in the air. */
  method QuietStep(scene: PlayScene, x: real)
    requires scene.Valid() && scene.gameStarted && !scene.gameOver && !scene.isPaused
    requires scene.pipes == FirstPipeAt(x) && BirdX + ScrollStep <= x
    modifies scene, scene.store
    ensures scene.Valid() && scene.gameStarted && !scene.gameOver && !scene.isPaused
    ensures scene.score == old(scene.score) && scene.store.saved == old(scene.store.saved)
    ensures scene.pipes == FirstPipeAt(x - ScrollStep)
  {
    QuietFrame(x);
    scene.Update(300.0, false);
  }

  /** The frame in which the bird reaches the ground just as the leading
      segment of the first pipe passes it: the game ends with the score 0
      saved, and then the segment still scores. */
  method GroundStep(scene: PlayScene)
    requires scene.Valid() && scene.gameStarted && !scene.gameOver && !scene.isPaused
    requires scene.pipes == FirstPipeAt(100.5) && scene.score == 0 && scene.store.saved == None
    modifies scene, scene.store
    ensures scene.gameOver && scene.score == 1 && scene.store.saved == None
  {
    PassingFrame();
    scene.Update(GroundY as real, false);
  }

  /** A session that reaches the frame in which the bird hits the ground just
      as the leading segment of the first pipe passes it. The game ends and
      the high score is saved with the score 0; the same frame then scores
      the pipe, so the session finishes with score 1 while the stored high
      score stays 0. This is an input the model accepts rather than a full run
      of the game: the spawn timer's firings are left out, and one frame
      takes the bird from y = 300 to the ground. Neither changes the ending
      frame, which is what shows the late score. */
  method LateScoreExample() returns (finalScore: nat, highScore: int)
    ensures finalScore == 1 && highScore == 0
  {
    var store := new HighScoreStore(None);
    var scene := new PlayScene(store);
    scene.Flap(Draws(0, 150, 120));
    FirstPipeSegments();
    var frame := 0;
    while frame < 233
      invariant 0 <= frame <= 233
      invariant scene.Valid() && scene.store == store
      invariant scene.gameStarted && !scene.gameOver && !scene.isPaused
      invariant scene.score == 0 && store.saved == None
      invariant scene.pipes == FirstPipeAt(SpawnX - ScrollStep * frame as real)
    {
      QuietStep(scene, SpawnX - ScrollStep * frame as real);
      frame := frame + 1;
    }
    GroundStep(scene);
    finalScore := scene.score;
    highScore := scene.GetHighScore();
  }
}
