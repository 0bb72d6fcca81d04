/** The level's tile grid (class Map in source/map.h): a constant table of
    tile kinds and the lookup signature that player movement consults. */
module Grid {

  /** What a cell of the level is made of. */
  datatype Tile = Floor | Wall | Void

  const Rows: nat := 9
  const Columns: nat := 10

  /** The level as declared: 9 rows of 10 entries, row-major. It is a `const`,
      so no operation of the model can change an entry. */
  const Tiles: seq<seq<Tile>> := [
    [Floor, Floor, Floor, Floor, Floor, Floor, Floor, Floor, Floor, Floor],
    [Wall,  Floor, Floor, Floor, Floor, Floor, Floor, Floor, Floor, Wall],
    [Wall,  Floor, Floor, Wall,  Wall,  Wall,  Floor, Floor, Floor, Wall],
    [Wall,  Floor, Floor, Wall,  Wall,  Wall,  Wall,  Floor, Floor, Wall],
    [Wall,  Floor, Floor, Wall,  Wall,  Wall,  Wall,  Floor, Floor, Wall],
    [Wall,  Floor, Floor, Floor, Floor, Floor, Floor, Floor, Floor, Wall],
    [Wall,  Floor, Floor, Floor, Floor, Floor, Floor, Floor, Floor, Wall],
    [Wall,  Wall,  Floor, Floor, Floor, Floor, Floor, Wall,  Wall,  Wall],
    [Wall,  Wall,  Wall,  Wall,  Wall,  Wall,  Wall,  Wall,  Wall,  Wall]
  ]

  /** The shape of `Map::GetTileAt(int x, int z)`: any pair of integers, in or
      out of the grid, yields a tile kind. Its body is not part of this model,
      so movement takes the lookup as a parameter of this total type. */
  type TileLookup = (int, int) -> Tile

  /** The table is rectangular: exactly `Rows` rows of `Columns` entries. */
  lemma TableShape()
    ensures |Tiles| == Rows
    ensures forall r | 0 <= r < Rows :: |Tiles[r]| == Columns
  {
  }

  /** The first row (row 0) is open floor and the last row (row 8) is solid wall. */
  lemma TableEdgeRows()
    ensures |Tiles| == Rows
    ensures |Tiles[0]| == Columns && forall c | 0 <= c < Columns :: Tiles[0][c] == Floor
    ensures |Tiles[8]| == Columns && forall c | 0 <= c < Columns :: Tiles[8][c] == Wall
  {
  }

  /** Every row strictly between the first and the last is closed by a wall
      at its first and its last column. */
  lemma TableSideWalls()
    ensures |Tiles| == Rows
    ensures forall r | 1 <= r < Rows - 1 ::
      |Tiles[r]| == Columns && Tiles[r][0] == Wall && Tiles[r][Columns - 1] == Wall
  {
  }
}
