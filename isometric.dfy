/**
 * IsometricUtils: conversions between world coordinates, isometric screen
 * coordinates and the tile grid (tiles are 64 by 32).
 */
module Isometric {
  import opened Geometry

  const TileWidth: real := 64.0
  const TileHeight: real := 32.0

  /** A cell of the tile grid (sf::Vector2i). */
  datatype Tile = Tile(x: int, y: int)

  /** Rotate by 45 degrees and squash: half a tile across per unit of x - y. */
  function WorldToScreen(worldX: real, worldY: real): Vec2 {
    Vec2((worldX - worldY) * (TileWidth / 2.0), (worldX + worldY) * (TileHeight / 2.0))
  }

  /** The inverse projection: projecting its result gives back the screen point. */
  function ScreenToWorld(screenX: real, screenY: real): (w: Vec2)
    ensures WorldToScreen(w.x, w.y) == Vec2(screenX, screenY)
  {
    Vec2((screenX / (TileWidth / 2.0) + screenY / (TileHeight / 2.0)) / 2.0,
         (screenY / (TileHeight / 2.0) - screenX / (TileWidth / 2.0)) / 2.0)
  }

  /** Unprojecting a projected world point gives the point back. */
  lemma ScreenToWorldInvertsWorldToScreen(worldX: real, worldY: real)
    ensures var s := WorldToScreen(worldX, worldY); ScreenToWorld(s.x, s.y) == Vec2(worldX, worldY)
  {
  }

  /** The tile containing a world point: the point lies in the half-open cell of the tile. */
  function WorldToTile(worldX: real, worldY: real): (t: Tile)
    ensures t.x as real * TileWidth <= worldX < (t.x + 1) as real * TileWidth
    ensures t.y as real * TileHeight <= worldY < (t.y + 1) as real * TileHeight
  {
    Tile((worldX / TileWidth).Floor, (worldY / TileHeight).Floor)
  }

  /** The world coordinates of the centre of a tile. */
  function TileToWorld(tileX: int, tileY: int): Vec2 {
    Vec2(tileX as real * TileWidth + TileWidth / 2.0, tileY as real * TileHeight + TileHeight / 2.0)
  }

  /** The centre of a tile lies in that tile. */
  lemma TileOfTileCentre(tileX: int, tileY: int)
    ensures var w := TileToWorld(tileX, tileY); WorldToTile(w.x, w.y) == Tile(tileX, tileY)
  {
    var w := TileToWorld(tileX, tileY);
    var t := WorldToTile(w.x, w.y);
    assert (t.x - tileX) as real * TileWidth < TileWidth / 2.0 + TileWidth;
  }
}
