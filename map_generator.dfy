/**
  The tile grid of MapGenerator.js: a `width` x `height` array of tiles,
  indexed `tiles[x][y]`, that starts as all grass and is edited one cell at a
  time by `setTerrain` and `placeObject`.
 */
module MapGenerator {
  import opened Wrappers

  /** A tile; `objectType` (the source's `object` field) is `None` where the source keeps `null`. */
  datatype Tile = Tile(x: int, y: int, terrainType: string, objectType: Option<string>)

  /** Columns of tiles: `g[x][y]` is the tile at column x, row y. */
  type Grid = seq<seq<Tile>>

  const Grass := "grass"

  /** Number of iterations of a `for (i = 0; i < n; i++)` loop. */
  function Extent(n: int): (k: nat)
    ensures n <= 0 ==> k == 0
    ensures n >= 0 ==> k == n
  {
    if n < 0 then 0 else n
  }

  /** `g` has `width` columns, each holding `height` tiles. */
  ghost predicate HasShape(g: Grid, width: int, height: int) {
    |g| == Extent(width) && forall i :: 0 <= i < |g| ==> |g[i]| == Extent(height)
  }

  /** `g[x][y]` exists. */
  predicate InGrid(g: Grid, x: int, y: int) {
    0 <= x < |g| && 0 <= y < |g[x]|
  }

  /** Every tile knows its own position. */
  ghost predicate CoordinatesMatch(g: Grid) {
    forall i, j :: InGrid(g, i, j) ==> g[i][j].x == i && g[i][j].y == j
  }

  /** The grid the constructor builds. */
  ghost predicate IsFreshGrid(g: Grid, width: int, height: int) {
    && HasShape(g, width, height)
    && forall i, j :: InGrid(g, i, j) ==> g[i][j] == Tile(i, j, Grass, None)
  }

  /** Two grids of the same shape. */
  ghost predicate SameShape(g: Grid, h: Grid) {
    |g| == |h| && forall i :: 0 <= i < |g| ==> |g[i]| == |h[i]|
  }

  /** The grid after `setTerrain(x, y, terrainType)`. */
  function WithTerrain(g: Grid, x: int, y: int, terrainType: string): (r: Grid)
    ensures SameShape(r, g)
    ensures forall i, j :: InGrid(g, i, j) ==>
      && r[i][j].x == g[i][j].x && r[i][j].y == g[i][j].y
      && r[i][j].objectType == g[i][j].objectType
      && r[i][j].terrainType == (if i == x && j == y then terrainType else g[i][j].terrainType)
    ensures !InGrid(g, x, y) ==> r == g
  {
    if InGrid(g, x, y) then g[x := g[x][y := g[x][y].(terrainType := terrainType)]] else g
  }

  /** The grid after `placeObject(x, y, objectType)`. */
  function WithObject(g: Grid, x: int, y: int, objectType: Option<string>): (r: Grid)
    ensures SameShape(r, g)
    ensures forall i, j :: InGrid(g, i, j) ==>
      && r[i][j].x == g[i][j].x && r[i][j].y == g[i][j].y
      && r[i][j].terrainType == g[i][j].terrainType
      && r[i][j].objectType == (if i == x && j == y then objectType else g[i][j].objectType)
    ensures !InGrid(g, x, y) ==> r == g
  {
    if InGrid(g, x, y) then g[x := g[x][y := g[x][y].(objectType := objectType)]] else g
  }

  /** Setting the same terrain twice is the same as setting it once. */
  lemma WithTerrainIdempotent(g: Grid, x: int, y: int, terrainType: string)
    ensures WithTerrain(WithTerrain(g, x, y, terrainType), x, y, terrainType) == WithTerrain(g, x, y, terrainType)
  {
    var once := WithTerrain(g, x, y, terrainType);
    if InGrid(g, x, y) {
      assert InGrid(once, x, y) && once[x][y].(terrainType := terrainType) == once[x][y];
      assert once[x][y := once[x][y]] == once[x];
      assert once[x := once[x]] == once;
    }
  }

  /** Placing the same object twice is the same as placing it once. */
  lemma WithObjectIdempotent(g: Grid, x: int, y: int, objectType: Option<string>)
    ensures WithObject(WithObject(g, x, y, objectType), x, y, objectType) == WithObject(g, x, y, objectType)
  {
    var once := WithObject(g, x, y, objectType);
    if InGrid(g, x, y) {
      assert InGrid(once, x, y) && once[x][y].(objectType := objectType) == once[x][y];
      assert once[x][y := once[x][y]] == once[x];
      assert once[x := once[x]] == once;
    }
  }

  /** Terrain and objects are independent fields: the two edits commute. */
  lemma TerrainAndObjectCommute(g: Grid, x: int, y: int, terrainType: string, x': int, y': int, objectType: Option<string>)
    ensures WithObject(WithTerrain(g, x, y, terrainType), x', y', objectType)
         == WithTerrain(WithObject(g, x', y', objectType), x, y, terrainType)
  {
    var a := WithObject(WithTerrain(g, x, y, terrainType), x', y', objectType);
    var b := WithTerrain(WithObject(g, x', y', objectType), x, y, terrainType);
    assert SameShape(a, b);
    forall i | 0 <= i < |a|
      ensures a[i] == b[i]
    {
      forall j | 0 <= j < |a[i]|
        ensures a[i][j] == b[i][j]
      {
        assert InGrid(g, i, j);
      }
    }
  }

  /** The map of MapGenerator.js. */
  class Map {
    const width: int
    const height: int
    var tiles: Grid

    /** The grid keeps its dimensions, and every tile its own coordinates. */
    ghost predicate Valid()
      reads this
    {
      HasShape(tiles, width, height) && CoordinatesMatch(tiles)
    }

    /** Fills every cell with grass and no object, column by column. */
    constructor (width: int, height: int)
      ensures this.width == width && this.height == height
      ensures Valid()
      ensures IsFreshGrid(tiles, width, height)
    {
      this.width := width;
      this.height := height;
      new;
      tiles := [];
      var x := 0;
      while x < width
        invariant 0 <= x <= Extent(width)
        invariant |tiles| == x
        invariant forall i :: 0 <= i < x ==> |tiles[i]| == Extent(height)
        invariant forall i, j :: InGrid(tiles, i, j) ==> tiles[i][j] == Tile(i, j, Grass, None)
      {
        tiles := tiles + [[]];
        var y := 0;
        while y < height
          invariant 0 <= y <= Extent(height)
          invariant |tiles| == x + 1 && |tiles[x]| == y
          invariant forall i :: 0 <= i < x ==> |tiles[i]| == Extent(height)
          invariant forall i, j :: InGrid(tiles, i, j) ==> tiles[i][j] == Tile(i, j, Grass, None)
        {
          tiles := tiles[x := tiles[x] + [Tile(x, y, Grass, None)]];
          y := y + 1;
        }
        x := x + 1;
      }
    }

    /** Whether (x, y) names a tile of this map. */
    function IsValidTile(x: int, y: int): (valid: bool)
      reads this
      ensures Valid() ==> (valid <==> InGrid(tiles, x, y))
    {
      x >= 0 && x < width && y >= 0 && y < height
    }

    method SetTerrain(x: int, y: int, terrainType: string)
      requires Valid()
      modifies this
      ensures Valid()
      ensures tiles == WithTerrain(old(tiles), x, y, terrainType)
    {
      if IsValidTile(x, y) {
        tiles := tiles[x := tiles[x][y := tiles[x][y].(terrainType := terrainType)]];
      }
    }

    method PlaceObject(x: int, y: int, objectType: Option<string>)
      requires Valid()
      modifies this
      ensures Valid()
      ensures tiles == WithObject(old(tiles), x, y, objectType)
    {
      if IsValidTile(x, y) {
        tiles := tiles[x := tiles[x][y := tiles[x][y].(objectType := objectType)]];
      }
    }
  }
}
