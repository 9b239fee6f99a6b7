/** The optional result of a lookup, as `Array.prototype.find` returns a value or `undefined`. */
module Wrappers {
  datatype Option<+T> = None | Some(value: T)
}

/**
 The tile map of the island scene: the canvas is covered by 32x32 tiles, one list entry per
 tile, each classified by how far its top-left corner lies from the canvas centre.
 */
module TileMap {
  import opened Wrappers

  const CanvasWidth := 800
  const CanvasHeight := 600
  const TileSize := 32

  /** The generator's loops visit x = 0, 32, ..., 768 and y = 0, 32, ..., 576. */
  const Columns := 25
  const Rows := 19
  const TileCount := Columns * Rows

  const CenterX := CanvasWidth / 2
  const CenterY := CanvasHeight / 2

  /** The distance thresholds 250, 280 and 80, compared on squared distances. */
  const GrassRadiusSq := 250 * 250
  const SandRadiusSq := 280 * 280
  const TreeClearRadiusSq := 80 * 80

  datatype Terrain = Water | Sand | Grass | Tree

  datatype Tile = Tile(x: int, y: int, terrain: Terrain)

  function SquaredDistance(x1: int, y1: int, x2: int, y2: int): int
  {
    (x1 - x2) * (x1 - x2) + (y1 - y2) * (y1 - y2)
  }

  function CentreDistanceSq(x: int, y: int): int
  {
    SquaredDistance(x, y, CenterX, CenterY)
  }

  /** Whether the tile with this origin is inside the grass radius, where a random draw is made. */
  predicate InGrassBand(x: int, y: int)
  {
    CentreDistanceSq(x, y) < GrassRadiusSq
  }

  /**
   The terrain of a tile whose origin has squared distance `d` from the centre;
   `draw` tells whether the random number drawn for it was below 0.1.
   */
  function TerrainFor(d: int, draw: bool): (r: Terrain)
    ensures r == Water <==> d >= SandRadiusSq
    ensures r == Sand <==> GrassRadiusSq <= d < SandRadiusSq
    ensures r == Tree <==> draw && TreeClearRadiusSq < d < GrassRadiusSq
    ensures r == Grass <==> d < GrassRadiusSq && !(draw && d > TreeClearRadiusSq)
  {
    if d < GrassRadiusSq then
      if draw && d > TreeClearRadiusSq then Tree else Grass
    else if d < SandRadiusSq then Sand
    else Water
  }

  /** Column-major layout: tile `i` lies in column i / Rows and row i % Rows. */
  function OriginX(i: int): int { (i / Rows) * TileSize }
  function OriginY(i: int): int { (i % Rows) * TileSize }

  /** The number of random draws made while generating the tiles before tile `i`. */
  function DrawsBefore(i: nat): nat
  {
    if i == 0 then 0
    else DrawsBefore(i - 1) + (if InGrassBand(OriginX(i - 1), OriginY(i - 1)) then 1 else 0)
  }

  /**
   The `i`-th generated tile. `coin(k)` says whether the k-th call of the random source
   returned a number below 0.1; tile `i` uses draw number DrawsBefore(i) when it is in the
   grass band and no draw otherwise.
   */
  function IslandTile(coin: nat -> bool, i: nat): (t: Tile)
    ensures Covers(t, OriginX(i), OriginY(i))
    ensures t.terrain == Water <==> CentreDistanceSq(t.x, t.y) >= SandRadiusSq
    ensures !InGrassBand(t.x, t.y) ==> t.terrain == TerrainFor(CentreDistanceSq(t.x, t.y), false)
  {
    var x, y := OriginX(i), OriginY(i);
    GridMultiple(i / Rows);
    GridMultiple(i % Rows);
    Tile(x, y, TerrainFor(CentreDistanceSq(x, y), coin(DrawsBefore(i))))
  }

  /** The first `n` tiles of the generated map, in the order the generator pushes them. */
  function IslandPrefix(coin: nat -> bool, n: nat): seq<Tile>
  {
    seq(n, i requires 0 <= i < n => IslandTile(coin, i))
  }

  /** The whole generated map. */
  function IslandMap(coin: nat -> bool): (m: seq<Tile>)
    ensures |m| == TileCount
    ensures forall i :: 0 <= i < |m| ==> m[i] == IslandTile(coin, i) && Covers(m[i], OriginX(i), OriginY(i))
  {
    IslandPrefix(coin, TileCount)
  }

  /** Whether a tile covers the point: its origin is on the tile grid and the point is inside its square. */
  predicate Covers(t: Tile, x: int, y: int)
  {
    t.x % TileSize == 0 && t.y % TileSize == 0 &&
    t.x <= x < t.x + TileSize && t.y <= y < t.y + TileSize
  }

  /** The first tile whose origin is (tx, ty), as `find` returns it. */
  function Find(tiles: seq<Tile>, tx: int, ty: int): (r: Option<Tile>)
    ensures r.Some? ==>
      exists k :: 0 <= k < |tiles| && tiles[k] == r.value && r.value.x == tx && r.value.y == ty &&
                  forall j :: 0 <= j < k ==> !(tiles[j].x == tx && tiles[j].y == ty)
    ensures r.None? <==> forall k :: 0 <= k < |tiles| ==> !(tiles[k].x == tx && tiles[k].y == ty)
  {
    if tiles == [] then None
    else if tiles[0].x == tx && tiles[0].y == ty then Some(tiles[0])
    else
      var r := Find(tiles[1..], tx, ty);
      assert forall k :: 1 <= k < |tiles| ==> tiles[k] == tiles[1..][k - 1];
      r
  }

  /** The origin of the grid square containing `v`; Dafny's `/` by a positive divisor is floor division. */
  function GridOrigin(v: int): int
  {
    (v / TileSize) * TileSize
  }

  lemma GridOriginCovers(v: int, o: int)
    requires o % TileSize == 0
    ensures (o <= v < o + TileSize) <==> o == GridOrigin(v)
  {
    var q := v / TileSize;
    assert v == q * TileSize + v % TileSize;
    var p := o / TileSize;
    assert o == p * TileSize;
  }

  /** The tile containing the point (x, y), if the list has one. */
  function GetTileAt(tiles: seq<Tile>, x: int, y: int): (r: Option<Tile>)
    ensures r.Some? ==> r.value in tiles && Covers(r.value, x, y)
    ensures r.Some? ==>
      exists k :: 0 <= k < |tiles| && tiles[k] == r.value && forall j :: 0 <= j < k ==> !Covers(tiles[j], x, y)
    ensures r.None? <==> forall t :: t in tiles ==> !Covers(t, x, y)
  {
    var r := Find(tiles, GridOrigin(x), GridOrigin(y));
    forall t | t in tiles
      ensures Covers(t, x, y) <==> t.x == GridOrigin(x) && t.y == GridOrigin(y)
    {
      if t.x % TileSize == 0 && t.y % TileSize == 0 {
        GridOriginCovers(x, t.x);
        GridOriginCovers(y, t.y);
      }
    }
    r
  }

  // ---------------------------------------------------------------------------
  // Properties of the generated map
  // ---------------------------------------------------------------------------

  lemma DivModOrder(i: int, j: int)
    requires 0 <= i < j
    ensures i / Rows < j / Rows || (i / Rows == j / Rows && i % Rows < j % Rows)
  {
  }

  lemma IndexOf(col: int, row: int)
    requires 0 <= col && 0 <= row < Rows
    ensures (col * Rows + row) / Rows == col && (col * Rows + row) % Rows == row
  {
  }

  /** Appending the tile of grid square (col, row) extends the prefix by one and counts its draw. */
  lemma NextTile(coin: nat -> bool, col: int, row: int)
    requires 0 <= col && 0 <= row < Rows
    ensures var i := col * Rows + row; var x, y := col * TileSize, row * TileSize;
      IslandTile(coin, i) == Tile(x, y, TerrainFor(CentreDistanceSq(x, y), coin(DrawsBefore(i)))) &&
      DrawsBefore(i + 1) == DrawsBefore(i) + (if InGrassBand(x, y) then 1 else 0) &&
      IslandPrefix(coin, i + 1) == IslandPrefix(coin, i) + [IslandTile(coin, i)]
  {
    IndexOf(col, row);
  }

  /** The map has 25 x 19 tiles, each with its origin on the grid inside the canvas columns and rows. */
  lemma IslandMapShape(coin: nat -> bool, i: int)
    requires 0 <= i < TileCount
    ensures |IslandMap(coin)| == TileCount == 475
    ensures var t := IslandMap(coin)[i];
      t.x == OriginX(i) && t.y == OriginY(i) &&
      t.x % TileSize == 0 && t.y % TileSize == 0 &&
      0 <= t.x < CanvasWidth && 0 <= t.y < CanvasHeight
  {
    var q, r := i / Rows, i % Rows;
    assert 0 <= q < Columns && 0 <= r < Rows;
    GridMultiple(q);
    GridMultiple(r);
  }

  lemma GridMultiple(q: int)
    ensures (q * TileSize) % TileSize == 0 && (q * TileSize) / TileSize == q
  {
  }

  /** Tiles are listed column-major: x outer, y inner, both increasing. */
  lemma {:induction false} ColumnMajor(coin: nat -> bool, i: int, j: int)
    requires 0 <= i < j < TileCount
    ensures var m := IslandMap(coin);
      m[i].x < m[j].x || (m[i].x == m[j].x && m[i].y < m[j].y)
  {
    DivModOrder(i, j);
  }

  /** No two tiles share an origin. */
  lemma OriginsUnique(coin: nat -> bool, i: int, j: int)
    requires 0 <= i < TileCount && 0 <= j < TileCount && i != j
    ensures var m := IslandMap(coin);
      (m[i].x, m[i].y) != (m[j].x, m[j].y)
  {
    if i < j { ColumnMajor(coin, i, j); } else { ColumnMajor(coin, j, i); }
  }

  /** No two entries of the list share an origin. */
  predicate UniqueOrigins(tiles: seq<Tile>)
  {
    forall i, j :: 0 <= i < |tiles| && 0 <= j < |tiles| && i != j ==>
      tiles[i].x != tiles[j].x || tiles[i].y != tiles[j].y
  }

  lemma IslandUniqueOrigins(coin: nat -> bool)
    ensures UniqueOrigins(IslandMap(coin))
  {
    var m := IslandMap(coin);
    forall i, j | 0 <= i < |m| && 0 <= j < |m| && i != j
      ensures m[i].x != m[j].x || m[i].y != m[j].y
    {
      OriginsUnique(coin, i, j);
    }
  }

  /** Every grid origin in the canvas columns and rows has its tile, at index col * 19 + row. */
  lemma OriginCovered(coin: nat -> bool, col: int, row: int)
    requires 0 <= col < Columns && 0 <= row < Rows
    ensures var m := IslandMap(coin); var i := col * Rows + row;
      0 <= i < |m| && m[i].x == col * TileSize && m[i].y == row * TileSize
  {
    IndexOf(col, row);
  }

  /** Each tile's terrain follows the distance bands of its origin. */
  lemma IslandBands(coin: nat -> bool, i: int)
    requires 0 <= i < TileCount
    ensures var t := IslandMap(coin)[i]; var d := CentreDistanceSq(t.x, t.y);
      (t.terrain == Water <==> d >= SandRadiusSq) &&
      (t.terrain == Sand <==> GrassRadiusSq <= d < SandRadiusSq) &&
      (t.terrain == Tree <==> TreeClearRadiusSq < d < GrassRadiusSq && coin(DrawsBefore(i))) &&
      (t.terrain == Grass ==> d < GrassRadiusSq)
  {
  }

  /** A tile whose origin lies at or beyond the sand radius is water, whatever the random source gives. */
  lemma WaterBeyondSand(coin: nat -> bool, i: int)
    requires 0 <= i < TileCount
    requires CentreDistanceSq(OriginX(i), OriginY(i)) >= SandRadiusSq
    ensures IslandMap(coin)[i].terrain == Water
  {
  }

  lemma {:induction false} DrawsMonotone(i: nat, j: nat)
    requires i <= j
    ensures DrawsBefore(i) <= DrawsBefore(j)
    ensures i < j && InGrassBand(OriginX(i), OriginY(i)) ==> DrawsBefore(i) < DrawsBefore(j)
    decreases j - i
  {
    if i < j {
      DrawsMonotone(i, j - 1);
    }
  }

  /** Two tiles that both consult the random source consult different draws. */
  lemma DrawsDistinct(i: nat, j: nat)
    requires i < j
    requires InGrassBand(OriginX(i), OriginY(i)) && InGrassBand(OriginX(j), OriginY(j))
    ensures DrawsBefore(i) < DrawsBefore(j)
  {
    DrawsMonotone(i, j);
  }

  lemma GetTileAtInGrid(coin: nat -> bool, x: int, y: int)
    requires 0 <= x < Columns * TileSize && 0 <= y < Rows * TileSize
    ensures var m := IslandMap(coin);
      GetTileAt(m, x, y) == Some(m[(x / TileSize) * Rows + y / TileSize])
  {
    var m := IslandMap(coin);
    var col, row := x / TileSize, y / TileSize;
    OriginCovered(coin, col, row);
    var i := col * Rows + row;
    var tx, ty := GridOrigin(x), GridOrigin(y);
    assert m[i].x == tx && m[i].y == ty;
    var r := Find(m, tx, ty);
    assert r.Some?;
    var k :| 0 <= k < |m| && m[k] == r.value && r.value.x == tx && r.value.y == ty;
    if k != i {
      OriginsUnique(coin, k, i);
    }
  }

  lemma GetTileAtOffGrid(coin: nat -> bool, x: int, y: int)
    requires !(0 <= x < Columns * TileSize && 0 <= y < Rows * TileSize)
    ensures GetTileAt(IslandMap(coin), x, y) == None
  {
    var m := IslandMap(coin);
    var tx, ty := GridOrigin(x), GridOrigin(y);
    forall k | 0 <= k < |m|
      ensures !(m[k].x == tx && m[k].y == ty)
    {
      IslandMapShape(coin, k);
      OffGridOrigin(k, x, y);
    }
  }

  lemma OffGridOrigin(k: int, x: int, y: int)
    requires 0 <= k < TileCount
    requires !(0 <= x < Columns * TileSize && 0 <= y < Rows * TileSize)
    ensures OriginX(k) != GridOrigin(x) || OriginY(k) != GridOrigin(y)
  {
  }

  /**
   Looking up a point in the generated map yields the tile at index col * 19 + row when the
   point's grid square is one of the 25 x 19 generated squares, and nothing otherwise.
   */
  lemma GetTileAtIsland(coin: nat -> bool, x: int, y: int)
    ensures var m := IslandMap(coin);
      GetTileAt(m, x, y) ==
        if 0 <= x < Columns * TileSize && 0 <= y < Rows * TileSize
        then Some(m[(x / TileSize) * Rows + y / TileSize])
        else None
  {
    if 0 <= x < Columns * TileSize && 0 <= y < Rows * TileSize {
      GetTileAtInGrid(coin, x, y);
    } else {
      GetTileAtOffGrid(coin, x, y);
    }
  }
}
