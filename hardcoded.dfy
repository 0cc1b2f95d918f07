/**
 * The client's built-in tables (src/hardcoded.rs): the tile list (tile id,
 * row and column in the tileset image, number of animation sprites), the
 * built-in zone map source and the background tile of each world zone type.
 */
module Hardcoded {

  import opened Wrappers
  import Strings

  /** One entry of `get_tiles_list`: `(tile id, row, column, sprites count)`. */
  datatype TileEntry = TileEntry(id: string, row: int, col: int, spritesCount: int)

  const TILES_COUNT: nat := 168

  /** Entry `i` of `get_tiles_list()`. */
  function TileAt(i: nat): TileEntry
    requires i < TILES_COUNT
  {
    match i
    case 0 => TileEntry("UNKNOWN", 0, 0, 1)
    case 1 => TileEntry("SEA", 7, 0, 1)
    case 2 => TileEntry("JUNGLE", 7, 4, 1)
    case 3 => TileEntry("PLAIN", 7, 2, 1)
    case 4 => TileEntry("HILL", 7, 5, 1)
    case 5 => TileEntry("MOUNTAIN", 7, 6, 1)
    case 6 => TileEntry("BEACH", 7, 1, 1)
    case 7 => TileEntry("BACK_BEACH", 0, 3, 1)
    case 8 => TileEntry("BACK_PLAIN", 0, 6, 1)
    case 9 => TileEntry("BACK_JUNGLE", 0, 4, 1)
    case 10 => TileEntry("BACK_HILL", 0, 4, 1)
    case 11 => TileEntry("BACK_MOUNTAIN", 0, 5, 1)
    case 12 => TileEntry("BACK_SEA", 0, 2, 1)
    case 13 => TileEntry("SAND", 0, 3, 1)
    case 14 => TileEntry("DRY_BUSH", 2, 8, 1)
    case 15 => TileEntry("ROCK", 2, 9, 1)
    case 16 => TileEntry("SEA_WATER", 14, 0, 6)
    case 17 => TileEntry("FRESH_WATER_TILE", 13, 0, 6)
    case 18 => TileEntry("SHORT_GRASS", 1, 0, 1)
    case 19 => TileEntry("HIGH_GRASS", 15, 0, 6)
    case 20 => TileEntry("ROCKY_GROUND", 0, 0, 1)
    case 21 => TileEntry("DIRT", 0, 10, 1)
    case 22 => TileEntry("LEAF_TREE", 1, 7, 1)
    case 23 => TileEntry("TROPICAL_TREE", 1, 8, 1)
    case 24 => TileEntry("DEAD_TREE", 1, 9, 1)
    case 25 => TileEntry("CHARACTER", 16, 0, 1)
    case 26 => TileEntry("CHARACTER_RUNNING_TOP", 17, 0, 6)
    case 27 => TileEntry("CHARACTER_RUNNING_DOWN", 18, 0, 6)
    case 28 => TileEntry("CHARACTER_RUNNING_RIGHT", 19, 0, 6)
    case 29 => TileEntry("CHARACTER_RUNNING_LEFT", 20, 0, 6)
    case 30 => TileEntry("STONE_WALL", 4, 3, 1)
    case 31 => TileEntry("DOOR", 4, 12, 1)
    case 32 => TileEntry("RAW_CLAY_FLOOR", 0, 6, 1)
    case 33 => TileEntry("PLAYER", 6, 0, 1)
    case 34 => TileEntry("PLAYER_LEFT", 6, 1, 1)
    case 35 => TileEntry("STUFF_GENERIC", 3, 0, 1)
    case 36 => TileEntry("BOTTLE", 3, 1, 1)
    case 37 => TileEntry("BAG", 3, 2, 1)
    case 38 => TileEntry("COAT", 3, 3, 1)
    case 39 => TileEntry("ARMOR", 3, 4, 1)
    case 40 => TileEntry("WEAPON", 3, 6, 1)
    case 41 => TileEntry("CORPSE", 3, 11, 1)
    case 42 => TileEntry("ANIMAL", 3, 9, 1)
    case 43 => TileEntry("CRAFT", 3, 10, 1)
    case 44 => TileEntry("RESOURCE_GENERIC", 5, 0, 1)
    case 45 => TileEntry("COPPER_DEPOSIT", 0, 7, 1)
    case 46 => TileEntry("TIN_DEPOSIT", 0, 8, 1)
    case 47 => TileEntry("IRON_DEPOSIT", 0, 9, 1)
    case 48 => TileEntry("FRESH_WATER", 5, 10, 1)
    case 49 => TileEntry("SALTED_WATER", 5, 10, 1)
    case 50 => TileEntry("BEACH_SAND", 5, 11, 1)
    case 51 => TileEntry("SOIL", 5, 9, 1)
    case 52 => TileEntry("WET_SOIL", 5, 9, 1)
    case 53 => TileEntry("WOOD", 5, 6, 1)
    case 54 => TileEntry("VEGETAL_FOOD_FRESH", 5, 3, 1)
    case 55 => TileEntry("SHELLFISH_FRESH", 5, 1, 1)
    case 56 => TileEntry("FISH_FRESH", 5, 1, 1)
    case 57 => TileEntry("RAW_MEAT", 5, 4, 1)
    case 58 => TileEntry("COOKED_MEAT", 5, 5, 1)
    case 59 => TileEntry("SMOKED_MEAT", 5, 5, 1)
    case 60 => TileEntry("ANIMAL_SKIN", 5, 8, 1)
    case 61 => TileEntry("GRAMINEAE", 5, 13, 1)
    case 62 => TileEntry("BREAD", 5, 14, 1)
    case 63 => TileEntry("RAW_STONE", 5, 12, 1)
    case 64 => TileEntry("LEATHER_PIECE", 5, 7, 1)
    case 65 => TileEntry("BUILD_GENERIC", 4, 1, 1)
    case 66 => TileEntry("CAMPFIRE__OFF", 9, 0, 1)
    case 67 => TileEntry("CAMPFIRE", 9, 1, 6)
    case 68 => TileEntry("CAMP_FIRE__OFF", 9, 0, 1)
    case 69 => TileEntry("CAMP_FIRE", 9, 1, 6)
    case 70 => TileEntry("WALL", 4, 2, 1)
    case 71 => TileEntry("WOOD_FENCE", 4, 2, 1)
    case 72 => TileEntry("LOOM", 4, 6, 1)
    case 73 => TileEntry("BRUSHWOOD_EDGE", 4, 4, 1)
    case 74 => TileEntry("SOIL_WALL", 4, 5, 1)
    case 75 => TileEntry("BASKETRY_BAG", 3, 12, 1)
    case 76 => TileEntry("SKIN_BAG", 3, 14, 1)
    case 77 => TileEntry("LEATHER_BAG", 3, 13, 1)
    case 78 => TileEntry("TRAVOIS", 3, 20, 1)
    case 79 => TileEntry("CLOTH_BAG", 3, 15, 1)
    case 80 => TileEntry("ANIMAL_SKIN_CLOTHES", 3, 17, 1)
    case 81 => TileEntry("LEATHER_CLOTHES", 3, 16, 1)
    case 82 => TileEntry("LEATHER_BRIGANDINE", 3, 19, 1)
    case 83 => TileEntry("HARE", 3, 26, 1)
    case 84 => TileEntry("PIG", 3, 25, 1)
    case 85 => TileEntry("GOAT", 3, 24, 1)
    case 86 => TileEntry("MOORHEN", 3, 23, 1)
    case 87 => TileEntry("CRAB", 3, 22, 1)
    case 88 => TileEntry("RAW_BRICK", 3, 27, 1)
    case 89 => TileEntry("FIRED_BRICK", 3, 28, 1)
    case 90 => TileEntry("RAW_BRICK_WALL", 4, 7, 1)
    case 91 => TileEntry("FIRED_BRICK_WALL", 4, 8, 1)
    case 92 => TileEntry("TOTEM", 4, 9, 1)
    case 93 => TileEntry("COMPASS", 4, 10, 1)
    case 94 => TileEntry("SOIL_KILN__OFF", 10, 0, 1)
    case 95 => TileEntry("SOIL_KILN", 10, 1, 2)
    case 96 => TileEntry("RAW_BRICK_KILN__OFF", 11, 0, 1)
    case 97 => TileEntry("RAW_BRICK_KILN", 11, 1, 2)
    case 98 => TileEntry("FIRED_BRICK_KILN__OFF", 12, 0, 1)
    case 99 => TileEntry("FIRED_BRICK_KILN", 12, 1, 2)
    case 100 => TileEntry("RAW_COPPER", 5, 15, 1)
    case 101 => TileEntry("RAW_TIN", 5, 16, 1)
    case 102 => TileEntry("RAW_IRON", 5, 17, 1)
    case 103 => TileEntry("COPPER", 5, 18, 1)
    case 104 => TileEntry("TIN", 5, 19, 1)
    case 105 => TileEntry("IRON", 5, 20, 1)
    case 106 => TileEntry("BRONZE", 4, 18, 1)
    case 107 => TileEntry("VEGETAL_FIBER", 5, 21, 1)
    case 108 => TileEntry("CLOTH", 5, 22, 1)
    case 109 => TileEntry("GROUND", 0, 10, 1)
    case 110 => TileEntry("PLOUGHED_LAND", 0, 11, 1)
    case 111 => TileEntry("SEEDS", 1, 10, 1)
    case 112 => TileEntry("CEREAL", 5, 13, 1)
    case 113 => TileEntry("GROW_PROGRESS_0", 8, 0, 1)
    case 114 => TileEntry("GROW_PROGRESS_1", 8, 1, 1)
    case 115 => TileEntry("GROW_PROGRESS_2", 8, 2, 1)
    case 116 => TileEntry("GROW_PROGRESS_3", 8, 3, 1)
    case 117 => TileEntry("GROW_PROGRESS_4", 8, 4, 1)
    case 118 => TileEntry("GROW_PROGRESS_CEREAL_0", 8, 0, 1)
    case 119 => TileEntry("GROW_PROGRESS_CEREAL_1", 8, 1, 1)
    case 120 => TileEntry("GROW_PROGRESS_CEREAL_2", 8, 2, 1)
    case 121 => TileEntry("GROW_PROGRESS_CEREAL_3", 8, 3, 1)
    case 122 => TileEntry("GROW_PROGRESS_CEREAL_4", 8, 4, 1)
    case 123 => TileEntry("FLOOR", 5, 23, 1)
    case 124 => TileEntry("BREAD", 5, 24, 1)
    case 125 => TileEntry("WOOL", 5, 25, 1)
    case 126 => TileEntry("MORTIER_PILON", 5, 26, 1)
    case 127 => TileEntry("CHARCOAL", 5, 27, 1)
    case 128 => TileEntry("ROUET", 5, 28, 1)
    case 129 => TileEntry("SPINDLE", 3, 29, 6)
    case 130 => TileEntry("LITTLE_FISHING_NET", 5, 29, 1)
    case 131 => TileEntry("STONE_ANVIL", 5, 30, 1)
    case 132 => TileEntry("IRON_ANVIL", 5, 31, 1)
    case 133 => TileEntry("COLLECT", 2, 10, 1)
    case 134 => TileEntry("HARVEST", 2, 11, 1)
    case 135 => TileEntry("ON", 2, 12, 1)
    case 136 => TileEntry("OFF", 2, 13, 1)
    case 137 => TileEntry("LOOK", 2, 18, 1)
    case 138 => TileEntry("DRINK", 2, 14, 1)
    case 139 => TileEntry("TAKE", 2, 16, 1)
    case 140 => TileEntry("BOW", 3, 30, 1)
    case 141 => TileEntry("RAW_CLAY_JAR", 5, 32, 1)
    case 142 => TileEntry("CLAY_JAR", 5, 33, 1)
    case 143 => TileEntry("CLAY", 2, 15, 1)
    case 144 => TileEntry("SPEAR", 7, 14, 1)
    case 145 => TileEntry("COPPER_SPEAR", 7, 15, 1)
    case 146 => TileEntry("BRONZE_SPEAR", 7, 16, 1)
    case 147 => TileEntry("IRON_SPEAR", 7, 17, 1)
    case 148 => TileEntry("DAGGER", 8, 14, 1)
    case 149 => TileEntry("COPPER_DAGGER", 8, 15, 1)
    case 150 => TileEntry("BRONZE_DAGGER", 8, 16, 1)
    case 151 => TileEntry("IRON_DAGGER", 8, 17, 1)
    case 152 => TileEntry("HAXE", 9, 14, 1)
    case 153 => TileEntry("COPPER_HAXE", 9, 15, 1)
    case 154 => TileEntry("BRONZE_HAXE", 9, 16, 1)
    case 155 => TileEntry("IRON_HAXE", 9, 17, 1)
    case 156 => TileEntry("MACE", 6, 13, 1)
    case 157 => TileEntry("SHIELD", 10, 13, 1)
    case 158 => TileEntry("PRIMITIVE_WOOD_SHIELD", 10, 13, 1)
    case 159 => TileEntry("LEATHER_SHIELD", 10, 14, 1)
    case 160 => TileEntry("COPPER_SHIELD", 10, 16, 1)
    case 161 => TileEntry("BRONZE_SHIELD", 10, 17, 1)
    case 162 => TileEntry("IRON_SHIELD_HEATER", 10, 18, 1)
    case 163 => TileEntry("TILE_SELECTION", 6, 0, 6)
    case 164 => TileEntry("TILE_HOVER", 6, 6, 1)
    case 165 => TileEntry("WIP", 2, 17, 1)
    case 166 => TileEntry("LITTLE_SHOVEL", 21, 0, 6)
    case _ /* 167 */ => TileEntry("DO_BUILD_WORK", 6, 8, 1)
  }

  /** `get_tiles_list()`, in the source's order. */
  function TilesList(): (r: seq<TileEntry>)
    ensures |r| == TILES_COUNT && forall i | 0 <= i < TILES_COUNT :: r[i] == TileAt(i)
  {
    seq(TILES_COUNT, i requires 0 <= i < TILES_COUNT => TileAt(i))
  }

  /** The tile ids the list names, as a set. */
  function TileIds(): set<string>
  {
    set e | e in TilesList() :: e.id
  }

  /** The id of the entry at position `i` is one of the list's ids. */
  lemma TileAtIsListed(i: nat)
    requires i < TILES_COUNT
    ensures TileAt(i).id in TileIds()
  {
    assert TilesList()[i] in TilesList();
  }

  /** The list has 168 entries, and "UNKNOWN", the fallback tile id, is the first. */
  lemma TilesListNamesUnknown()
    ensures |TilesList()| == 168
    ensures TilesList()[0].id == "UNKNOWN"
    ensures "UNKNOWN" in TileIds()
  {
    assert TilesList()[0] in TilesList();
  }

  /** "BREAD" is listed twice, at two different places in the tileset. */
  lemma TilesListRepeatsBread()
    ensures TilesList()[62].id == "BREAD" && TilesList()[124].id == "BREAD"
    ensures (TilesList()[62].row, TilesList()[62].col) != (TilesList()[124].row, TilesList()[124].col)
  {
  }

  /** No entry after the second "BREAD" is named "BREAD". */
  lemma BreadNotAfterSecond()
    ensures forall j | 124 < j < TILES_COUNT :: TileAt(j).id != "BREAD"
  {
    forall j | 124 < j < TILES_COUNT
      ensures TileAt(j).id != "BREAD"
    {
    }
  }

  /** Every tile has at least one sprite. */
  lemma SpritesCountsPositive()
    ensures forall i | 0 <= i < |TilesList()| :: TilesList()[i].spritesCount >= 1
  {
  }

  /** `get_map_source()`: the built-in zone, tagged "::GEO". */
  function MapSource(): string
  {
    "::GEO\n" + MapRows()
  }

  /** The rows of the built-in zone, one line per map row. */
  function MapRows(): string
  {
      "    ⁖⁖ፆፆፆፆ⁖⁖⁖⁖ፆ߉          \n"
      + "   ⁖⁖ፆ⁖߉⁖⁖⁖ፆ⁖ፆፆ⁖⁖         \n"
      + "  ⁖ፆ؛⁖⁖⁖⁖⁖⁖ፆ⁖؛⁖⁖ፆፆ        \n"
      + " ؛؛⁖ፆ⁖ፆ⁖⁖⁖⁖؛⁖⁖⁖⁖⁖ፆፆ       \n"
      + "⁖؛⁖ፆ⁖⁖⁖؛⁖؛؛ፆ⁖؛ፆ⁖⁖⁖ፆፆ      \n"
      + "߉⁖⁖؛ፆ⁖ፆፆ؛⁖ፆ⁖⁖⁖ፆ⁖⁖⁖⁖⁖⁖⁖     \n"
      + "ፆ⁖؛؛⁖⁖⁖ፆፆፆ؛⁖⁖⁖⁖⁖ፆ⁖ፆፆፆ⁖⁖؛    \n"
      + "؛⁖⁖؛؛⁖⁖⁖؛ፆ⁖ፆ⁖⁖؛⁖؛ፆፆ؛؛؛⁖ፆ߉⁖   \n"
      + "⁖⁖⁖⁖؛⁖⁖⁖ፆ⁖⁖⁖؛؛⁖ፆ؛⁖⁖⁖؛⁖⁖⁖⁖⁖⁖⁖  \n"
      + "⁖؛߉ፆፆፆ⁖⁖؛ፆ؛⁖⁖ፆ⁖ፆ⁖⁖ፆ⁖⁖⁖⁖؛ፆ⁖⁖⁖⁖⁖ \n"
      + "⁖ፆ؛⁖⁖⁖⁖ፆ⁖⁖ፆፆ⁖⁖⁖ፆ؛ፆ؛⁖ፆ⁖ፆ⁖؛⁖⁖⁖؛ፆ⁖ፆ\n"
      + "؛ፆ⁖ፆ؛ፆ⁖߉߉؛؛⁖⁖؛ፆ⁖⁖⁖؛؛⁖ፆ⁖⁖⁖⁖⁖ፆ⁖؛⁖⁖\n"
      + "ፆ⁖؛ፆ⁖⁖߉⁖؛؛⁖ፆ⁖ፆ߉⁖⁖⁖⁖؛⁖ፆ⁖؛߉ፆ⁖⁖⁖ፆፆ⁖\n"
      + "؛ፆፆ⁖⁖⁖⁖⁖ፆ؛؛ፆ؛ፆ߉⁖ፆ⁖؛ፆ؛؛ፆ⁖؛⁖⁖⁖ፆፆፆ⁖\n"
      + "⁖⁖⁖⁖⁖ፆ⁖ፆፆ⁖߉ፆፆ؛⁖ፆፆ⁖⁖⁖ፆ⁖⁖؛؛⁖߉ፆ⁖⁖⁖ፆ\n"
      + "ፆፆ؛ፆ⁖⁖⁖⁖߉⁖⁖⁖⁖؛⁖߉ፆ⁖؛⁖⁖؛⁖؛߉⁖⁖ፆ⁖⁖⁖߉\n"
      + "ፆ؛ፆ؛؛ፆ⁖ፆፆፆፆ⁖߉⁖؛⁖⁖⁖⁖⁖⁖ፆፆፆ⁖؛⁖߉⁖؛⁖⁖\n"
      + "⁖ፆ؛ፆ⁖⁖⁖؛⁖⁖ፆ⁖؛؛߉ፆ؛⁖ፆ⁖⁖⁖ፆ؛ፆፆፆፆፆፆ؛⁖\n"
      + "ፆፆ⁖؛ፆ؛⁖⁖⁖ፆፆ⁖߉⁖ፆ⁖⁖⁖⁖ፆ⁖⁖ፆ؛؛ፆ؛ፆፆ⁖ፆ⁖\n"
      + "⁖ፆፆ؛⁖⁖⁖⁖؛ፆ⁖⁖ፆ⁖⁖؛⁖⁖⁖⁖؛⁖ፆ߉ፆ⁖⁖߉؛ፆ⁖⁖\n"
      + "⁖⁖⁖⁖⁖⁖߉؛⁖ፆፆ⁖⁖ፆፆ⁖؛⁖ፆፆፆ؛⁖⁖⁖⁖؛⁖⁖؛⁖⁖\n"
      + "؛؛߉⁖⁖؛؛⁖⁖⁖⁖⁖⁖⁖⁖ፆ؛ፆ⁖⁖⁖؛ፆፆ؛ፆ⁖⁖ፆፆ⁖⁖\n"
      + "⁖⁖⁖⁖ፆ؛؛ፆፆ؛ፆ⁖⁖⁖⁖ፆ؛⁖ፆ⁖⁖⁖⁖؛⁖⁖⁖⁖؛⁖ \n"
      + "؛⁖⁖ፆ؛⁖⁖⁖؛⁖⁖⁖؛⁖⁖⁖ፆ؛؛؛⁖⁖ፆ⁖⁖⁖⁖⁖  \n"
      + "ፆ⁖؛ፆ⁖ፆ⁖؛؛ፆ⁖؛⁖⁖⁖؛ፆ؛⁖؛⁖⁖ፆ؛⁖⁖   \n"
      + "⁖⁖⁖⁖؛⁖⁖⁖⁖ፆ⁖⁖߉⁖ፆ⁖ፆ⁖⁖⁖⁖ፆ؛⁖    \n"
      + "⁖؛⁖ፆ⁖߉؛ፆ⁖؛؛⁖⁖ፆ؛؛؛⁖⁖߉ፆ⁖     \n"
      + "⁖⁖ፆፆ⁖⁖⁖ፆ⁖؛؛⁖⁖؛ፆ⁖⁖߉؛⁖      \n"
      + " ⁖⁖⁖⁖؛߉⁖⁖⁖ፆ⁖؛ፆ؛ፆ⁖ፆ⁖       \n"
      + "  ؛⁖⁖߉⁖⁖؛⁖؛⁖؛⁖؛⁖⁖ፆ        \n"
      + "   ߉߉ፆ⁖ፆ⁖⁖ፆ⁖⁖⁖؛؛߉         \n"
      + "    ⁖؛⁖؛ፆ⁖⁖⁖⁖⁖؛⁖          "
  }

  /** The built-in source starts with the very tag the zone loader looks for. */
  lemma MapSourceHasGeoHeader()
    ensures Strings.StartsWith(MapSource(), "::GEO\n")
  {
    assert MapSource()[..6] == "::GEO\n";
  }

  /** `get_default_tile_id_for_zone_type_id`. */
  function DefaultTileIdForZoneType(zoneTypeId: string): (r: Option<string>)
  {
    match zoneTypeId
    case "JUNGLE" => Some("DIRT")
    case "SEA" => Some("SALTED_WATER")
    case "MOUNTAIN" => Some("ROCKY_GROUND")
    case "HILL" => Some("DIRT")
    case "BEACH" => Some("SAND")
    case "PLAIN" => Some("DIRT")
    case _ => None
  }

  /**
   * The six known zone types get their background tile, which is always a
   * listed tile; every other zone type gets none.
   */
  lemma DefaultTileIds(z: string)
    ensures z in {"JUNGLE", "HILL", "PLAIN"} ==> DefaultTileIdForZoneType(z) == Some("DIRT")
    ensures z == "SEA" ==> DefaultTileIdForZoneType(z) == Some("SALTED_WATER")
    ensures z == "MOUNTAIN" ==> DefaultTileIdForZoneType(z) == Some("ROCKY_GROUND")
    ensures z == "BEACH" ==> DefaultTileIdForZoneType(z) == Some("SAND")
    ensures z !in {"JUNGLE", "SEA", "MOUNTAIN", "HILL", "BEACH", "PLAIN"} <==> DefaultTileIdForZoneType(z).None?
    ensures DefaultTileIdForZoneType(z).Some? ==> DefaultTileIdForZoneType(z).value in TileIds()
  {
    assert TilesList()[21].id == "DIRT" && TilesList()[21] in TilesList();
    assert TilesList()[49].id == "SALTED_WATER" && TilesList()[49] in TilesList();
    assert TilesList()[20].id == "ROCKY_GROUND" && TilesList()[20] in TilesList();
    assert TilesList()[13].id == "SAND" && TilesList()[13] in TilesList();
  }
}
