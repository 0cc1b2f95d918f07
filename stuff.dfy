/**
 * Objects lying on the zone floor (src/entity/stuff.rs): their position and
 * the class list the tile lookup is run on.
 */
module Stuff {

  import Graphics

  const STUFF_GENERIC: string := "STUFF_GENERIC"

  datatype Stuff = Stuff(id: int, stuffId: string, zoneRowI: int, zoneColI: int, classes: seq<string>)
  {
    /** `position`: the (row, column) of the stuff. */
    function Position(): (r: (int, int))
      ensures r.0 == zoneRowI && r.1 == zoneColI
    {
      (zoneRowI, zoneColI)
    }

    /** `get_classes`: the generic class first, then the stuff's own classes in order, then its stuff id. */
    function GetClasses(): (r: seq<string>)
      ensures |r| == |classes| + 2
      ensures r[0] == STUFF_GENERIC && r[|r| - 1] == stuffId
      ensures r[1..|r| - 1] == classes
    {
      [STUFF_GENERIC] + classes + [stuffId]
    }
  }

  /**
   * The tile drawn for a stuff, since the lookup answers the last mapped
   * class: its stuff id when that is mapped; otherwise its last mapped own
   * class; otherwise the generic stuff tile when that is mapped; otherwise
   * "UNKNOWN".
   */
  lemma StuffTileId(s: Stuff, keys: set<string>)
    ensures s.stuffId in keys ==> Graphics.TileIdFromClasses(s.GetClasses(), keys) == s.stuffId
    ensures s.stuffId !in keys && (exists i | 0 <= i < |s.classes| :: s.classes[i] in keys) ==>
      Graphics.TileIdFromClasses(s.GetClasses(), keys) == Graphics.TileIdFromClasses(s.classes, keys)
    ensures s.stuffId !in keys && (forall i | 0 <= i < |s.classes| :: s.classes[i] !in keys) ==>
      Graphics.TileIdFromClasses(s.GetClasses(), keys) ==
        if STUFF_GENERIC in keys then STUFF_GENERIC else Graphics.UNKNOWN_TILE_ID
  {
    var all := s.GetClasses();
    if s.stuffId !in keys {
      assert all[..|all| - 1] == [STUFF_GENERIC] + s.classes;
      GenericThenOwn(s.classes, keys);
    }
  }

  /** The lookup on the generic class followed by `classes`. */
  lemma {:induction false} GenericThenOwn(classes: seq<string>, keys: set<string>)
    ensures (exists i | 0 <= i < |classes| :: classes[i] in keys) ==>
      Graphics.TileIdFromClasses([STUFF_GENERIC] + classes, keys) == Graphics.TileIdFromClasses(classes, keys)
    ensures (forall i | 0 <= i < |classes| :: classes[i] !in keys) ==>
      Graphics.TileIdFromClasses([STUFF_GENERIC] + classes, keys) ==
        if STUFF_GENERIC in keys then STUFF_GENERIC else Graphics.UNKNOWN_TILE_ID
    decreases |classes|
  {
    if classes == [] {
      assert ([STUFF_GENERIC] + classes)[..0] == [];
    } else {
      var n := |classes| - 1;
      assert ([STUFF_GENERIC] + classes)[..n + 1] == [STUFF_GENERIC] + classes[..n];
      assert forall i | 0 <= i < n :: classes[..n][i] == classes[i];
      GenericThenOwn(classes[..n], keys);
    }
  }
}
