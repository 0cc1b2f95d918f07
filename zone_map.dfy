/**
 * The zone map (src/zone/map.rs): the tile-id grid of a zone, rows of
 * possibly different lengths, with its width (longest row) and height
 * (number of rows), an in-place cell replacement and a bounds-checked read.
 */
module ZoneMapGrid {

  import opened Wrappers
  import opened Ints

  /** `ZoneMapTiles`: rows of tile ids. */
  type Grid = seq<seq<string>>

  /** No Rust `Vec` is longer than `isize::MAX`: the grid and each of its rows. */
  predicate VecSized(tiles: Grid)
  {
    |tiles| <= VEC_MAX_LEN && forall i | 0 <= i < |tiles| :: |tiles[i]| <= VEC_MAX_LEN
  }

  /** The longest row length: `tiles.iter().map(|row| row.len()).max()`. */
  function MaxRowLength(tiles: Grid): (r: nat)
    requires |tiles| > 0
    ensures forall i | 0 <= i < |tiles| :: |tiles[i]| <= r
    ensures exists i | 0 <= i < |tiles| :: |tiles[i]| == r
    decreases |tiles|
  {
    if |tiles| == 1 then |tiles[0]|
    else
      var rest := MaxRowLength(tiles[1..]);
      assert forall i | 1 <= i < |tiles| :: tiles[i] == tiles[1..][i - 1];
      if |tiles[0]| >= rest then |tiles[0]| else rest
  }

  /** The panic message of `ZoneMap::new` when the grid has no row. */
  const WIDTH_PANIC := "Unable to determine zone width count"

  /** `.max()` over the row lengths: the longest row, and nothing for a grid without rows. */
  function WidthCount(tiles: Grid): (r: Option<nat>)
    ensures r.None? <==> |tiles| == 0
    ensures r.Some? ==> forall i | 0 <= i < |tiles| :: |tiles[i]| <= r.value
    ensures r.Some? ==> exists i | 0 <= i < |tiles| :: |tiles[i]| == r.value
  {
    if |tiles| == 0 then None else Some(MaxRowLength(tiles))
  }

  /** Two grids with the same row lengths have the same width. */
  lemma {:induction false} MaxRowLengthOnlyLengths(a: Grid, b: Grid)
    requires |a| == |b| > 0
    requires forall i | 0 <= i < |a| :: |a[i]| == |b[i]|
    ensures MaxRowLength(a) == MaxRowLength(b)
  {
    var wa := MaxRowLength(a);
    var wb := MaxRowLength(b);
    var ia :| 0 <= ia < |a| && |a[ia]| == wa;
    var ib :| 0 <= ib < |b| && |b[ib]| == wb;
    assert wa <= wb by { assert |b[ia]| <= wb; }
    assert wb <= wa by { assert |a[ib]| <= wa; }
  }

  /** `tile_id`: the cell, when the row exists and the column is inside that row. */
  function TileIdOf(tiles: Grid, row: nat, col: nat): (r: Option<string>)
  {
    if row < |tiles| && col < |tiles[row]| then Some(tiles[row][col]) else None
  }

  /** The grid after `replace_tile`: the one cell, if it exists, holds the new id. */
  function ReplacedCell(tiles: Grid, row: nat, col: nat, tileId: string): Grid
  {
    if row < |tiles| && col < |tiles[row]| then tiles[row := tiles[row][col := tileId]] else tiles
  }

  /**
   * Reading back after a replacement: the replaced cell holds the new id,
   * every other cell reads as before, and no row changes length.
   */
  lemma ReplaceThenRead(tiles: Grid, row: nat, col: nat, tileId: string, r: nat, c: nat)
    ensures |ReplacedCell(tiles, row, col, tileId)| == |tiles|
    ensures forall i | 0 <= i < |tiles| :: |ReplacedCell(tiles, row, col, tileId)[i]| == |tiles[i]|
    ensures TileIdOf(ReplacedCell(tiles, row, col, tileId), r, c) ==
      if (r, c) == (row, col) && TileIdOf(tiles, r, c).Some? then Some(tileId) else TileIdOf(tiles, r, c)
  {
  }

  class ZoneMap<Definition> {
    var tilesDefinitions: seq<Definition>
    var tiles: Grid
    var backgroundTileId: string
    var width: nat
    var height: nat
    /** `width * tiles_width` and `height * tiles_height`, as reals. */
    var concreteWidth: real
    var concreteHeight: real

    /** width is the longest row, height the number of rows. */
    ghost predicate Valid()
      reads this
    {
      |tiles| > 0 && VecSized(tiles) && width == MaxRowLength(tiles) && height == |tiles|
    }

    /**
     * `ZoneMap::new`: the `expect` on the width count panics with
     * WIDTH_PANIC exactly when the grid has no row; otherwise the map is
     * built as the constructor below builds it.
     */
    static method New(tilesDefinitions: seq<Definition>, tiles: Grid, backgroundTileId: string,
                      tilesWidth: real, tilesHeight: real) returns (r: Result<ZoneMap<Definition>>)
      requires VecSized(tiles)
      ensures r.Err? <==> |tiles| == 0
      ensures r.Err? ==> r.error == WIDTH_PANIC
      ensures r.Ok? ==> fresh(r.value) && r.value.Valid()
      ensures r.Ok? ==> r.value.tilesDefinitions == tilesDefinitions && r.value.tiles == tiles
      ensures r.Ok? ==> r.value.backgroundTileId == backgroundTileId
      ensures r.Ok? ==> r.value.concreteWidth == r.value.width as real * tilesWidth
      ensures r.Ok? ==> r.value.concreteHeight == r.value.height as real * tilesHeight
    {
      var widthCount := WidthCount(tiles);
      if widthCount.None? {
        return Err(WIDTH_PANIC);
      }
      var zoneMap := new ZoneMap(tilesDefinitions, tiles, backgroundTileId, tilesWidth, tilesHeight);
      return Ok(zoneMap);
    }

    /** `ZoneMap::new` past its `expect`: the grid has a row, so the width count exists. */
    constructor (tilesDefinitions: seq<Definition>, tiles: Grid, backgroundTileId: string,
                 tilesWidth: real, tilesHeight: real)
      requires |tiles| > 0 && VecSized(tiles)
      ensures Valid()
      ensures this.tilesDefinitions == tilesDefinitions && this.tiles == tiles
      ensures this.backgroundTileId == backgroundTileId
      ensures concreteWidth == width as real * tilesWidth && concreteHeight == height as real * tilesHeight
    {
      var widthCount := MaxRowLength(tiles);
      var heightCount := |tiles|;
      this.tilesDefinitions := tilesDefinitions;
      this.tiles := tiles;
      this.backgroundTileId := backgroundTileId;
      this.width := widthCount;
      this.height := heightCount;
      this.concreteWidth := widthCount as real * tilesWidth;
      this.concreteHeight := heightCount as real * tilesHeight;
    }

    /**
     * `replace_tile(row_i, col_i, new_tile_id)`: both indices are `i16`
     * cast to `usize`, so a negative one is far out of range; an index out
     * of range is a silent no-op. Nothing but the one cell changes.
     */
    method ReplaceTile(rowI: int, colI: int, newTileId: string)
      requires IsI16(rowI) && IsI16(colI)
      requires Valid()
      modifies this
      ensures Valid()
      ensures tiles == ReplacedCell(old(tiles), I16AsUsize(rowI), I16AsUsize(colI), newTileId)
      ensures rowI < 0 || colI < 0 ==> tiles == old(tiles)
      ensures TileIdOf(old(tiles), I16AsUsize(rowI), I16AsUsize(colI)).Some? ==>
        TileId(I16AsUsize(rowI), I16AsUsize(colI)) == Some(newTileId)
      ensures width == old(width) && height == old(height)
      ensures backgroundTileId == old(backgroundTileId) && tilesDefinitions == old(tilesDefinitions)
      ensures concreteWidth == old(concreteWidth) && concreteHeight == old(concreteHeight)
    {
      var row := I16AsUsize(rowI);
      var col := I16AsUsize(colI);
      if row < |tiles| {
        if col < |tiles[row]| {
          var before := tiles;
          tiles := tiles[row := tiles[row][col := newTileId]];
          MaxRowLengthOnlyLengths(before, tiles);
        }
      }
    }

    /** `tile_id(row_i, col_i)`. */
    function TileId(row: nat, col: nat): (r: Option<string>)
      reads this
      ensures r.Some? <==> row < |tiles| && col < |tiles[row]|
      ensures r.Some? ==> r.value == tiles[row][col]
    {
      TileIdOf(tiles, row, col)
    }
  }
}
