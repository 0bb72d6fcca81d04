/** Discrete grid movement of the player character (class Player in
    source/player.h and source/player.cpp): input resolution, the collision
    check against the tile grid, the cell snap and the lying-down state. */
module Movement {
  import opened Grid

  /** The four axis-aligned directions the player can face. */
  datatype Direction = Left | Down | Right | Up

  datatype Option<T> = None | Some(value: T)

  /** A logical grid cell: `x` is the tileX/targetX axis, `z` the tileZ/targetZ axis. */
  datatype Cell = Cell(x: int, z: int)

  // Bits of the console's digital key-state word (KEY_RIGHT, KEY_LEFT,
  // KEY_UP and KEY_DOWN of the libnds input header, bits 4 to 7).
  const KeyRight: bv32 := 0x10
  const KeyLeft: bv32 := 0x20
  const KeyUp: bv32 := 0x40
  const KeyDown: bv32 := 0x80

  /** All four direction bits together. */
  const DirectionKeys: bv32 := 0xF0

  function KeyOf(d: Direction): bv32 {
    match d
    case Left => KeyLeft
    case Down => KeyDown
    case Right => KeyRight
    case Up => KeyUp
  }

  /** `keys & KEY_<d>` is non-zero. */
  predicate Held(keys: bv32, d: Direction) {
    keys & KeyOf(d) != 0
  }

  /** The order in which HandleInput tests the directions. */
  const ScanOrder: seq<Direction> := [Left, Down, Right, Up]

  /** The position of a direction in `ScanOrder`. */
  function Rank(d: Direction): (i: nat)
    ensures i < |ScanOrder| && ScanOrder[i] == d
  {
    match d
    case Left => 0
    case Down => 1
    case Right => 2
    case Up => 3
  }

  /** The condition HandleInput tests for direction `d`: the key is held and
      either no step is in progress or `d` is the direction already faced.
      `facing` is the facing on entry to HandleInput. */
  predicate Qualifies(keys: bv32, moving: bool, facing: Direction, d: Direction) {
    Held(keys, d) && (!moving || facing == d)
  }

  /** Declarative reading of an if-chain in which each satisfied test
      overwrites the previous choice: the position in `ds` of the LAST
      direction satisfying `q`, or None when none does. */
  function LastSatisfying(ds: seq<Direction>, q: Direction -> bool): (r: Option<nat>)
    ensures r.None? <==> forall i | 0 <= i < |ds| :: !q(ds[i])
    ensures r.Some? ==>
      r.value < |ds| && q(ds[r.value]) &&
      forall j | r.value < j < |ds| :: !q(ds[j])
    decreases |ds|
  {
    if ds == [] then None
    else if q(ds[|ds| - 1]) then Some(|ds| - 1)
    else
      var front := ds[..|ds| - 1];
      assert forall i | 0 <= i < |front| :: front[i] == ds[i];
      LastSatisfying(front, q)
  }

  /** The position in `ScanOrder` of the direction HandleInput settles on. */
  function Chosen(keys: bv32, moving: bool, facing: Direction): Option<nat> {
    LastSatisfying(ScanOrder, d => Qualifies(keys, moving, facing, d))
  }

  /** The walking flag HandleInput leaves: some direction qualifies. */
  function InputWalking(keys: bv32, moving: bool, facing: Direction): (w: bool)
    ensures w <==> exists d :: Qualifies(keys, moving, facing, d)
  {
    var r := Chosen(keys, moving, facing);
    assert forall d :: Qualifies(keys, moving, facing, d) ==> ScanOrder[Rank(d)] == d;
    r.Some?
  }

  /** The facing HandleInput leaves: the qualifying direction that comes last
      in `ScanOrder`, or the old facing when none qualifies. */
  function InputFacing(keys: bv32, moving: bool, facing: Direction): (f: Direction)
    ensures InputWalking(keys, moving, facing) ==>
      Qualifies(keys, moving, facing, f) &&
      forall d :: Qualifies(keys, moving, facing, d) ==> Rank(d) <= Rank(f)
    ensures !InputWalking(keys, moving, facing) ==> f == facing
    ensures moving ==> f == facing
  {
    match Chosen(keys, moving, facing)
    case Some(i) =>
      assert Rank(ScanOrder[i]) == i;
      assert forall e :: Qualifies(keys, moving, facing, e) ==> Rank(e) <= i by {
        forall e | Qualifies(keys, moving, facing, e) ensures Rank(e) <= i {
          assert ScanOrder[Rank(e)] == e;
        }
      }
      ScanOrder[i]
    case None => facing
  }

  /** Whether a direction is held can be read off the direction bits alone. */
  lemma HeldThroughMask(keys: bv32, d: Direction)
    ensures Held(keys, d) == (keys & DirectionKeys & KeyOf(d) != 0)
  {
  }

  /** Only the four direction bits of the key word influence input handling. */
  lemma DirectionBitsOnly(keys: bv32, other: bv32, moving: bool, facing: Direction)
    requires keys & DirectionKeys == other & DirectionKeys
    ensures InputWalking(keys, moving, facing) == InputWalking(other, moving, facing)
    ensures InputFacing(keys, moving, facing) == InputFacing(other, moving, facing)
  {
    forall d ensures Held(keys, d) == Held(other, d) {
      HeldThroughMask(keys, d);
      HeldThroughMask(other, d);
    }
    LastSatisfyingAgree(ScanOrder, d => Qualifies(keys, moving, facing, d), d => Qualifies(other, moving, facing, d));
  }

  /** Two tests that agree on every element of `ds` pick the same position
      (the contract of `LastSatisfying` determines the result). */
  lemma LastSatisfyingAgree(ds: seq<Direction>, p: Direction -> bool, q: Direction -> bool)
    requires forall i | 0 <= i < |ds| :: p(ds[i]) == q(ds[i])
    ensures LastSatisfying(ds, p) == LastSatisfying(ds, q)
  {
  }

  /** The declarative choice agrees with testing the directions from the
      back of `ScanOrder`: the first success from Up backwards wins. */
  lemma ChoiceByPriority(keys: bv32, moving: bool, facing: Direction)
    ensures InputWalking(keys, moving, facing) ==
      (Qualifies(keys, moving, facing, Left) || Qualifies(keys, moving, facing, Down) ||
       Qualifies(keys, moving, facing, Right) || Qualifies(keys, moving, facing, Up))
    ensures InputFacing(keys, moving, facing) ==
      if Qualifies(keys, moving, facing, Up) then Up
      else if Qualifies(keys, moving, facing, Right) then Right
      else if Qualifies(keys, moving, facing, Down) then Down
      else if Qualifies(keys, moving, facing, Left) then Left
      else facing
  {
    var f := InputFacing(keys, moving, facing);
    if InputWalking(keys, moving, facing) {
      assert Qualifies(keys, moving, facing, f);
    }
  }

  /** Mid-step, the player keeps walking exactly when the key of the
      direction it already faces is held. */
  lemma MidStepContinues(keys: bv32, facing: Direction)
    ensures InputWalking(keys, true, facing) == Held(keys, facing)
    ensures InputFacing(keys, true, facing) == facing
  {
    ChoiceByPriority(keys, true, facing);
  }

  /** With no direction key held the player stops and keeps its facing. */
  lemma NoDirectionHeld(keys: bv32, moving: bool, facing: Direction)
    requires keys & DirectionKeys == 0
    ensures !InputWalking(keys, moving, facing)
    ensures InputFacing(keys, moving, facing) == facing
  {
  }

  /** The cell one step from `c` in direction `d`. */
  function Neighbour(c: Cell, d: Direction): (n: Cell)
    ensures Distance(c, n) == 1
    ensures (d == Left || d == Right) <==> n.z == c.z
  {
    match d
    case Left => Cell(c.x - 1, c.z)
    case Down => Cell(c.x, c.z - 1)
    case Right => Cell(c.x + 1, c.z)
    case Up => Cell(c.x, c.z + 1)
  }

  /** Manhattan distance between two cells. */
  function Distance(a: Cell, b: Cell): nat {
    (if a.x < b.x then b.x - a.x else a.x - b.x) + (if a.z < b.z then b.z - a.z else a.z - b.z)
  }

  /** The candidate target Move writes before checking it: the coordinate
      along `facing` becomes the current cell's plus or minus one, the other
      target coordinate is left as it was. */
  function Propose(tile: Cell, target: Cell, facing: Direction): (c: Cell)
    ensures facing == Left || facing == Right ==> c == Cell(Neighbour(tile, facing).x, target.z)
    ensures facing == Down || facing == Up ==> c == Cell(target.x, Neighbour(tile, facing).z)
    ensures target == tile || target == Neighbour(tile, facing) ==> c == Neighbour(tile, facing)
  {
    match facing
    case Left => Cell(tile.x - 1, target.z)
    case Down => Cell(target.x, tile.z - 1)
    case Right => Cell(tile.x + 1, target.z)
    case Up => Cell(target.x, tile.z + 1)
  }

  class Player {
    var canMove: bool
    var facing: Direction
    var walking: bool

    var tileX: int
    var tileZ: int
    var targetX: int
    var targetZ: int

    var lyingDown: bool
    var lyingDownFrames: int

    function CurrentCell(): Cell
      reads this
    {
      Cell(tileX, tileZ)
    }

    function TargetCell(): Cell
      reads this
    {
      Cell(targetX, targetZ)
    }

    /** A step is in progress: the target differs from the current cell. */
    predicate Moving()
      reads this
    {
      targetX != tileX || targetZ != tileZ
    }

    /** The target is the current cell or the one step ahead along `facing`. */
    predicate OnCourse()
      reads this
    {
      TargetCell() == CurrentCell() || TargetCell() == Neighbour(CurrentCell(), facing)
    }

    /** Both the current cell and the target are floor under `tileAt`. */
    predicate Grounded(tileAt: TileLookup)
      reads this
    {
      tileAt(tileX, tileZ) == Floor && tileAt(targetX, targetZ) == Floor
    }

    /** Default member values; the cell, target and lying-down fields have no
        initialiser and stay unspecified. */
    constructor ()
      ensures canMove && facing == Down && !walking
    {
      canMove := true;
      facing := Down;
      walking := false;
    }

    /** Sets `facing` and `walking` from the key-state word. The directions
        are tested in `ScanOrder` and each one that qualifies overwrites the
        previous choice, so the last one wins. */
    method HandleInput(keys: bv32)
      modifies this`facing, this`walking
      ensures facing == InputFacing(keys, old(Moving()), old(facing))
      ensures walking == InputWalking(keys, old(Moving()), old(facing))
      ensures old(Moving()) ==> facing == old(facing)
      ensures CurrentCell() == old(CurrentCell()) && TargetCell() == old(TargetCell())
      ensures old(OnCourse()) ==> OnCourse()
    {
      // The four key tests of the chain, read once from the unchanging key word.
      var left, down, right, up := Held(keys, Left), Held(keys, Down), Held(keys, Right), Held(keys, Up);
      var moving := targetX != tileX || targetZ != tileZ;
      ghost var before := facing;
      walking := false;
      if left && (!moving || facing == Left) {
        facing := Left;
        walking := true;
      }
      if down && (!moving || facing == Down) {
        facing := Down;
        walking := true;
      }
      if right && (!moving || facing == Right) {
        facing := Right;
        walking := true;
      }
      if up && (!moving || facing == Up) {
        facing := Up;
        walking := true;
      }
      ChoiceByPriority(keys, moving, before);
    }

    /** Proposes the next cell along `facing` and rolls it back when the grid
        says it is a wall or outside the level. */
    method Move(tileAt: TileLookup)
      modifies this`targetX, this`targetZ, this`walking
      ensures !old(walking) ==> TargetCell() == old(TargetCell()) && !walking
      ensures old(walking) ==>
        var c := Propose(CurrentCell(), old(TargetCell()), facing);
        if tileAt(c.x, c.z) == Wall || tileAt(c.x, c.z) == Void
        then TargetCell() == CurrentCell() && !walking
        else TargetCell() == c && walking
      ensures old(OnCourse()) ==> OnCourse()
      ensures old(walking) && tileAt(tileX, tileZ) == Floor ==> Grounded(tileAt)
      ensures old(Grounded(tileAt)) ==> Grounded(tileAt)
    {
      if !walking {
        return;
      }
      match facing {
        case Left => targetX := tileX - 1;
        case Down => targetZ := tileZ - 1;
        case Right => targetX := tileX + 1;
        case Up => targetZ := tileZ + 1;
      }

      var target := tileAt(targetX, targetZ);
      if target == Wall || target == Void {
        targetX := tileX;
        targetZ := tileZ;
        walking := false;
        return;
      }
    }

    /** The discrete part of a frame update. `arrived` stands for the outcome
        of the continuous-position test: true exactly when the world position
        is within the tolerance of the target cell's projection on both axes. */
    method Update(arrived: bool)
      modifies this`tileX, this`tileZ, this`lyingDownFrames
      ensures lyingDown ==>
        lyingDownFrames == old(lyingDownFrames) + 1 && CurrentCell() == old(CurrentCell())
      ensures !lyingDown ==> lyingDownFrames == old(lyingDownFrames)
      ensures !lyingDown && arrived ==> CurrentCell() == TargetCell()
      ensures !lyingDown && !arrived ==> CurrentCell() == old(CurrentCell())
      ensures CurrentCell() == old(CurrentCell()) || CurrentCell() == old(TargetCell())
      ensures TargetCell() == old(TargetCell())
      ensures old(OnCourse()) ==> OnCourse()
    {
      if lyingDown {
        lyingDownFrames := lyingDownFrames + 1;
        return;
      }
      if arrived {
        tileX := targetX;
        tileZ := targetZ;
      }
    }

    /** The tile under the player's current cell. */
    function GetPlayerTile(tileAt: TileLookup): (t: Tile)
      reads this
      ensures Grounded(tileAt) ==> t == Floor
    {
      tileAt(tileX, tileZ)
    }

    /** Enters or leaves the lying-down state; the player turns to face down. */
    method SetLyingDown(lyingDown: bool)
      modifies this`lyingDown, this`facing
      ensures this.lyingDown == lyingDown && facing == Down
      ensures CurrentCell() == old(CurrentCell()) && TargetCell() == old(TargetCell())
      ensures old(OnCourse()) && (old(facing) == Down || !Moving()) ==> OnCourse()
    {
      this.lyingDown := lyingDown;
      facing := Down;
    }
  }
}
