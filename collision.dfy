/**
 Position validity: a box is a valid player position when it lies inside the canvas and
 none of its four corners falls on a water or tree tile. A corner with no tile under it
 does not block.
 */
module Collision {
  import opened Wrappers
  import opened TileMap

  predicate InCanvas(x: int, y: int, size: int)
  {
    0 <= x && 0 <= y && x + size <= CanvasWidth && y + size <= CanvasHeight
  }

  /** A found tile blocks when it is water or a tree; no tile blocks nothing. */
  predicate Blocks(tile: Option<Tile>)
  {
    tile.Some? && (tile.value.terrain == Water || tile.value.terrain == Tree)
  }

  /** The corners tested: top-left, top-right, bottom-left, bottom-right, as `isValidPosition` lists them. */
  function Corners(x: int, y: int, size: int): seq<(int, int)>
  {
    [(x, y), (x + size, y), (x, y + size), (x + size, y + size)]
  }

  predicate CornerBlocked(tiles: seq<Tile>, c: (int, int))
  {
    Blocks(GetTileAt(tiles, c.0, c.1))
  }

  /** The reference meaning of a valid position. */
  predicate ValidPosition(tiles: seq<Tile>, x: int, y: int, size: int): (ok: bool)
    ensures ok ==> 0 <= x && 0 <= y && x + size <= CanvasWidth && y + size <= CanvasHeight
    ensures ok ==> !CornerBlocked(tiles, (x, y)) && !CornerBlocked(tiles, (x + size, y)) &&
                   !CornerBlocked(tiles, (x, y + size)) && !CornerBlocked(tiles, (x + size, y + size))
  {
    var cs := Corners(x, y, size);
    assert cs[0] == (x, y) && cs[1] == (x + size, y) && cs[2] == (x, y + size) && cs[3] == (x + size, y + size);
    InCanvas(x, y, size) &&
    forall j :: 0 <= j < 4 ==> !CornerBlocked(tiles, Corners(x, y, size)[j])
  }

  /** The bounds check followed by the loop over the four corners, returning at the first blocked one. */
  method IsValidPosition(tiles: seq<Tile>, x: int, y: int, size: int) returns (ok: bool)
    ensures ok == ValidPosition(tiles, x, y, size)
  {
    if x < 0 || y < 0 || x + size > CanvasWidth || y + size > CanvasHeight {
      return false;
    }
    var corners := Corners(x, y, size);
    for i := 0 to |corners|
      invariant forall j :: 0 <= j < i ==> !CornerBlocked(tiles, corners[j])
    {
      var tile := GetTileAt(tiles, corners[i].0, corners[i].1);
      if tile.Some? && (tile.value.terrain == Water || tile.value.terrain == Tree) {
        return false;
      }
    }
    return true;
  }

  /** A box outside the canvas is never valid, whatever the tiles. */
  lemma OutOfCanvasInvalid(tiles: seq<Tile>, x: int, y: int, size: int)
    requires x < 0 || y < 0 || x + size > CanvasWidth || y + size > CanvasHeight
    ensures !ValidPosition(tiles, x, y, size)
  {
  }

  /**
   Validity in terms of the tiles themselves: an in-canvas box is valid exactly when, for each
   corner, every tile covering it is sand or grass (so a corner that no tile covers passes).
   */
  lemma ValidIffCornersOnLand(tiles: seq<Tile>, x: int, y: int, size: int)
    requires UniqueOrigins(tiles) && InCanvas(x, y, size)
    ensures ValidPosition(tiles, x, y, size) <==>
      forall j, t :: 0 <= j < 4 && t in tiles && Covers(t, Corners(x, y, size)[j].0, Corners(x, y, size)[j].1) ==>
        t.terrain == Sand || t.terrain == Grass
  {
    var cs := Corners(x, y, size);
    if ValidPosition(tiles, x, y, size) {
      forall j, t | 0 <= j < 4 && t in tiles && Covers(t, cs[j].0, cs[j].1)
        ensures t.terrain == Sand || t.terrain == Grass
      {
        CoveringTileUnique(tiles, t, cs[j].0, cs[j].1);
      }
    } else {
      var j :| 0 <= j < 4 && CornerBlocked(tiles, cs[j]);
      var r := GetTileAt(tiles, cs[j].0, cs[j].1);
      assert r.value in tiles && Covers(r.value, cs[j].0, cs[j].1);
    }
  }

  /** When origins are unique, the tile GetTileAt finds is the only tile covering the point. */
  lemma CoveringTileUnique(tiles: seq<Tile>, t: Tile, x: int, y: int)
    requires UniqueOrigins(tiles)
    requires t in tiles && Covers(t, x, y)
    ensures GetTileAt(tiles, x, y) == Some(t)
  {
    var r := GetTileAt(tiles, x, y);
    GridOriginCovers(x, t.x);
    GridOriginCovers(y, t.y);
    GridOriginCovers(x, r.value.x);
    GridOriginCovers(y, r.value.y);
    var i :| 0 <= i < |tiles| && tiles[i] == t;
    var k :| 0 <= k < |tiles| && tiles[k] == r.value;
    assert i == k;
  }

  /** On the generated map a corner on the canvas's right edge (x = 800) has no tile, so it never blocks. */
  lemma RightEdgeNeverBlocks(coin: nat -> bool, y: int)
    ensures GetTileAt(IslandMap(coin), CanvasWidth, y) == None
    ensures !CornerBlocked(IslandMap(coin), (CanvasWidth, y))
  {
    GetTileAtIsland(coin, CanvasWidth, y);
  }
}
