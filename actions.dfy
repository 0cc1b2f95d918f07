/**
 * The actions a player can run on the zone (src/action/mod.rs,
 * src/action/quick.rs): the quick actions the server offers and the action
 * currently armed for a click.
 */
module Actions {

  import opened Wrappers

  /** A tile an action can be applied to. */
  datatype ExploitableTile = ExploitableTile(zoneRowI: int, zoneColI: int, classes: seq<string>)

  /** `QuickAction`, as the server describes it. */
  datatype QuickAction = QuickAction(
    uuid: string,
    name: string,
    baseUrl: string,
    classes1: seq<string>,
    classes2: seq<string>,
    exploitableTiles: seq<ExploitableTile>,
    allTilesAtOnce: bool,
    directAction: bool,
    quickActionKey: Option<char>,
    forceOpenDescription: bool)

  /** `Action`: the request a click on a tile posts to. */
  datatype Action = Action(
    postUrl: string,
    cursorClass: Option<string>,
    exploitableTiles: seq<ExploitableTile>,
    allTilesAtOnce: bool)
}
