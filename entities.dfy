/**
 * The plain records the zone state is built from: resources lying on the
 * ground, characters and builds, each at a (row, column) of the zone.
 */
module Entities {

  import opened Wrappers

  /** `entity::resource::Resource`. */
  datatype Resource = Resource(id: string, zoneRowI: int, zoneColI: int)
  {
    function Position(): (int, int)
    {
      (zoneRowI, zoneColI)
    }
  }

  /** `entity::character::Character`. */
  datatype Character = Character(
    id: string,
    zoneRowI: int,
    zoneColI: int,
    avatarUuid: Option<string>,
    avatarIsValidated: bool)

  /**
   * `entity::build::Build`, with the fields the NEW_BUILD event fills in;
   * `traversable` maps a transport mode name to whether it can cross the build.
   */
  datatype Build = Build(
    id: int,
    buildId: string,
    rowI: int,
    colI: int,
    classes: seq<string>,
    traversable: map<string, bool>,
    isFloor: bool,
    underConstruction: bool)
  {
    function Position(): (int, int)
    {
      (rowI, colI)
    }
  }
}
