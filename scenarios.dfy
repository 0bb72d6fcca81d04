/** Verified scenarios: client methods checked against concrete states of
    the movement model and the level table. The tile lookup used here is an
    ASSUMPTION: the body of `Map::GetTileAt` is not part of this model, and
    these scenarios read `x` as the column, `z` as the row and every
    coordinate outside the table as Void. */
module Scenarios {
  import opened Grid
  import opened Movement

  /** A grounded player stays grounded through one frame of input, movement
      and update, whatever the lookup, the keys and the arrival outcome. */
  method FrameKeepsGrounded(p: Player, tileAt: TileLookup, keys: bv32, arrived: bool)
    requires p.Grounded(tileAt)
    modifies p
    ensures p.Grounded(tileAt)
  {
    p.HandleInput(keys);
    p.Move(tileAt);
    p.Update(arrived);
  }

  /** Assumed reading of the level table (see the module comment). */
  function AssumedTileAt(x: int, z: int): Tile {
    TableShape();
    if 0 <= z < Rows && 0 <= x < Columns then Tiles[z][x] else Void
  }

  /** A player idle at (1, 1) pressing left faces left and walks. */
  method PressLeft()
  {
    var p := new Player();
    p.tileX, p.tileZ, p.targetX, p.targetZ := 1, 1, 1, 1;

    p.HandleInput(KeyLeft);
    ChoiceByPriority(KeyLeft, false, Down);
    assert p.facing == Left && p.walking;
  }

  /** Walking left from (1, 1) bumps into the wall: the target is rolled back
      and `walking` cleared. */
  method BumpIntoWall()
  {
    var p := new Player();
    p.tileX, p.tileZ, p.targetX, p.targetZ := 1, 1, 1, 1;
    p.facing, p.walking := Left, true;

    assert AssumedTileAt(0, 1) == Wall;
    p.Move(AssumedTileAt);
    assert p.TargetCell() == Cell(1, 1) && !p.walking;
  }

  /** Walking right from (1, 1) gets the floor cell (2, 1) as target; the
      cell itself is left alone. */
  method StepRight()
  {
    var p := new Player();
    p.tileX, p.tileZ, p.targetX, p.targetZ := 1, 1, 1, 1;
    p.facing, p.walking := Right, true;

    assert AssumedTileAt(2, 1) == Floor;
    p.Move(AssumedTileAt);
    assert p.TargetCell() == Cell(2, 1) && p.walking && p.CurrentCell() == Cell(1, 1);
  }

  /** Mid-step from (1, 1) to (2, 1) the key is released: `walking` is cleared
      although the target still differs from the cell, and Move keeps the
      target. */
  method ReleaseMidStep()
  {
    var p := new Player();
    p.tileX, p.tileZ, p.targetX, p.targetZ := 1, 1, 2, 1;
    p.facing, p.walking := Right, true;

    p.HandleInput(0);
    NoDirectionHeld(0, true, Right);
    assert !p.walking && p.Moving();
    p.Move(AssumedTileAt);
    assert p.TargetCell() == Cell(2, 1);
  }

  /** The released step still completes on arrival, not before, and only once. */
  method ArriveAfterRelease()
  {
    var p := new Player();
    p.tileX, p.tileZ, p.targetX, p.targetZ := 1, 1, 2, 1;
    p.facing, p.walking, p.lyingDown := Right, false, false;

    p.Update(false);
    assert p.CurrentCell() == Cell(1, 1);
    p.Update(true);
    assert p.CurrentCell() == Cell(2, 1) && !p.Moving();
    p.Update(true);
    assert p.CurrentCell() == Cell(2, 1);
  }

  /** Several held directions while idle: the last one in scan order wins. */
  method HeldTogetherIdle()
  {
    var p := new Player();
    p.tileX, p.tileZ, p.targetX, p.targetZ := 4, 6, 4, 6;

    p.HandleInput(KeyLeft | KeyDown | KeyRight);
    ChoiceByPriority(KeyLeft | KeyDown | KeyRight, false, Down);
    assert p.facing == Right && p.walking;
  }

  /** Mid-step, held directions other than the facing are ignored. */
  method HeldTogetherMidStep()
  {
    var p := new Player();
    p.tileX, p.tileZ, p.targetX, p.targetZ := 4, 6, 5, 6;
    p.facing := Right;

    p.HandleInput(KeyUp | KeyLeft);
    MidStepContinues(KeyUp | KeyLeft, Right);
    assert p.facing == Right && !p.walking;
  }

  /** Lying down mid-step turns the player to face down while the target is
      still the cell to the right. */
  method LyingDownMidStep()
  {
    var p := new Player();
    p.tileX, p.tileZ, p.targetX, p.targetZ := 2, 1, 3, 1;
    p.facing, p.walking := Right, true;

    p.SetLyingDown(true);
    assert p.facing == Down && p.TargetCell() == Cell(3, 1);
    assert !p.OnCourse();
  }

  /** From that state a held down key is accepted, since it is the facing. */
  method DownAfterLyingDown()
  {
    var p := new Player();
    p.tileX, p.tileZ, p.targetX, p.targetZ := 2, 1, 3, 1;
    p.facing, p.lyingDown := Down, true;

    p.HandleInput(KeyDown);
    MidStepContinues(KeyDown, Down);
    assert p.walking && p.facing == Down;
  }

  /** Move then proposes, and accepts, the diagonal cell (3, 0). */
  method DiagonalAfterLyingDown()
  {
    var p := new Player();
    p.tileX, p.tileZ, p.targetX, p.targetZ := 2, 1, 3, 1;
    p.facing, p.walking, p.lyingDown := Down, true, true;

    assert AssumedTileAt(3, 0) == Floor;
    p.Move(AssumedTileAt);
    assert p.TargetCell() == Cell(3, 0);
  }

  /** While lying down, arrival does not move the player; frames are counted. */
  method LyingDownFrozen()
  {
    var p := new Player();
    p.tileX, p.tileZ, p.targetX, p.targetZ := 2, 1, 3, 0;
    p.SetLyingDown(true);
    var frames := p.lyingDownFrames;
    p.Update(true);
    assert p.CurrentCell() == Cell(2, 1) && p.lyingDownFrames == frames + 1;
  }
}
