/**
 * The client's graphics registry (src/graphics/mod.rs): the tile mapping
 * loaded with the tileset, one image per entry of the built-in tiles list,
 * the avatars downloaded so far, and the lookup that picks a tile id from
 * an entity's classes.
 *
 * Images are not modelled: the image of a tile is represented by the
 * (row, column) of the tileset cell it is cropped from. `Source` is the
 * tile mapping's value type and `Texture` the texture type; neither is
 * looked into.
 */
module Graphics {

  import Hardcoded
  import Keyed

  const UNKNOWN_TILE_ID: string := "UNKNOWN"

  /** Where the image of a tiles-list entry is cropped from. */
  function CropCell(e: Hardcoded.TileEntry): (int, int)
  {
    (e.row, e.col)
  }

  function EntryId(e: Hardcoded.TileEntry): string
  {
    e.id
  }

  /**
   * What `find_tile_id_from_classes` answers for `classes` against a mapping
   * with keys `keys`: the last class that is a key, else "UNKNOWN".
   */
  function TileIdFromClasses(classes: seq<string>, keys: set<string>): string
    decreases |classes|
  {
    if classes == [] then UNKNOWN_TILE_ID
    else if classes[|classes| - 1] in keys then classes[|classes| - 1]
    else TileIdFromClasses(classes[..|classes| - 1], keys)
  }

  /**
   * The answer is a class that is a key with no later class a key, or it is
   * "UNKNOWN" and no class is a key (in particular for no classes at all).
   */
  lemma {:induction false} TileIdFromClassesIsLastKnown(classes: seq<string>, keys: set<string>)
    ensures var r := TileIdFromClasses(classes, keys);
      || (exists i | 0 <= i < |classes| :: classes[i] == r && r in keys &&
            forall j | i < j < |classes| :: classes[j] !in keys)
      || (r == UNKNOWN_TILE_ID && forall i | 0 <= i < |classes| :: classes[i] !in keys)
    ensures (exists i | 0 <= i < |classes| :: classes[i] in keys) ==> TileIdFromClasses(classes, keys) in keys
    ensures TileIdFromClasses(classes, keys) in classes || TileIdFromClasses(classes, keys) == UNKNOWN_TILE_ID
    decreases |classes|
  {
    if classes != [] {
      var n := |classes| - 1;
      if classes[n] !in keys {
        var init := classes[..n];
        TileIdFromClassesIsLastKnown(init, keys);
        assert forall i | 0 <= i < n :: init[i] == classes[i];
      }
    }
  }

  /** The ids of the tiles list are exactly the keys `tiles_data` gets. */
  lemma TileIdsAreIndexKeys()
    ensures Hardcoded.TileIds() ==
      set i | 0 <= i < |Hardcoded.TilesList()| :: EntryId(Hardcoded.TilesList()[i])
  {
    var l := Hardcoded.TilesList();
    forall k | k in Hardcoded.TileIds()
      ensures k in set i | 0 <= i < |l| :: EntryId(l[i])
    {
      var e :| e in l && e.id == k;
      var i :| 0 <= i < |l| && l[i] == e;
      assert EntryId(l[i]) == k;
    }
  }

  /** The loop of `Graphics::new` over the tiles list: insert each entry's image under its id. */
  method TilesData(list: seq<Hardcoded.TileEntry>) returns (data: map<string, (int, int)>)
    ensures data == Keyed.IndexBy(list, EntryId, CropCell)
  {
    data := map[];
    for i := 0 to |list|
      invariant data == Keyed.InsertAll(map[], list[..i], EntryId, CropCell)
    {
      assert list[..i + 1][..i] == list[..i];
      data := data[list[i].id := (list[i].row, list[i].col)];
    }
    assert list[..|list|] == list;
  }

  class Graphics<Source, Texture> {
    var tilesetTexture: Texture
    var tilesMapping: map<string, Source>
    /** For each tile id, the tileset cell its image was cropped from. */
    var tilesData: map<string, (int, int)>
    var tileWidth: real
    var tileHeight: real
    var avatars: map<string, Texture>

    /**
     * `Graphics::new`: one image per tiles-list entry, inserted under the
     * entry's id in list order, so a repeated id keeps its last entry.
     */
    constructor (tilesetTexture: Texture, tilesMapping: map<string, Source>, tileWidth: real, tileHeight: real)
      ensures this.tilesetTexture == tilesetTexture && this.tilesMapping == tilesMapping
      ensures this.tileWidth == tileWidth && this.tileHeight == tileHeight
      ensures tilesData == Keyed.IndexBy(Hardcoded.TilesList(), EntryId, CropCell)
      ensures avatars == map[]
    {
      var data := TilesData(Hardcoded.TilesList());
      this.tilesetTexture := tilesetTexture;
      this.tilesMapping := tilesMapping;
      this.tilesData := data;
      this.tileWidth := tileWidth;
      this.tileHeight := tileHeight;
      this.avatars := map[];
    }

    /** `find_tile_id_from_classes`: walk the classes from the last one back, answer the first mapped one. */
    method FindTileIdFromClasses(classes: seq<string>) returns (r: string)
      ensures r == TileIdFromClasses(classes, tilesMapping.Keys)
    {
      var i := |classes|;
      assert classes[..i] == classes;
      while i > 0
        invariant 0 <= i <= |classes|
        invariant TileIdFromClasses(classes, tilesMapping.Keys) == TileIdFromClasses(classes[..i], tilesMapping.Keys)
      {
        var candidate := classes[i - 1];
        assert classes[..i][..i - 1] == classes[..i - 1];
        if candidate in tilesMapping {
          return candidate;
        }
        i := i - 1;
      }
      return UNKNOWN_TILE_ID;
    }

    /** `add_avatar_texture`: the uuid now maps to the texture, replacing any earlier one. */
    method AddAvatarTexture(avatarUuid: string, texture: Texture)
      modifies this
      ensures avatars == old(avatars)[avatarUuid := texture]
      ensures tilesMapping == old(tilesMapping) && tilesData == old(tilesData)
      ensures tilesetTexture == old(tilesetTexture)
      ensures tileWidth == old(tileWidth) && tileHeight == old(tileHeight)
    {
      avatars := avatars[avatarUuid := texture];
    }
  }

  /** `tiles_data` has an image for every tile id of the tiles list and for nothing else. */
  lemma TilesDataCoversTilesList()
    ensures Keyed.IndexBy(Hardcoded.TilesList(), EntryId, CropCell).Keys == Hardcoded.TileIds()
  {
    Keyed.IndexByLastWins(Hardcoded.TilesList(), EntryId, CropCell);
    TileIdsAreIndexKeys();
  }

  /** "BREAD", listed twice, keeps the image of its second entry. */
  lemma TilesDataKeepsLastBread()
    ensures "BREAD" in Keyed.IndexBy(Hardcoded.TilesList(), EntryId, CropCell)
    ensures Keyed.IndexBy(Hardcoded.TilesList(), EntryId, CropCell)["BREAD"] ==
      (Hardcoded.TilesList()[124].row, Hardcoded.TilesList()[124].col)
  {
    var l := Hardcoded.TilesList();
    Hardcoded.TilesListRepeatsBread();
    Hardcoded.BreadNotAfterSecond();
    Keyed.InsertAllLastWins(map[], l, EntryId, CropCell, 124);
  }

  /** The fallback of the lookup names a tile that has an image. */
  lemma UnknownHasImage()
    ensures UNKNOWN_TILE_ID in Keyed.IndexBy(Hardcoded.TilesList(), EntryId, CropCell)
  {
    TilesDataCoversTilesList();
    Hardcoded.TilesListNamesUnknown();
  }
}
