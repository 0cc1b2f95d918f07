/**
 * The state of a zone being played (src/engine/zone/state.rs): the map, the
 * characters keyed by id, the player, the stuffs keyed by id, the resources
 * grouped by position and the builds keyed by position.
 */
module ZoneState {

  import opened Wrappers
  import Keyed
  import Entities
  import Stuff
  import ZoneMapGrid

  /**
   * `CharacterDisplay`: where the player is drawn, its velocity, and the run
   * it is on if any (`Running` is the run type, which is not looked into).
   */
  datatype CharacterDisplay<Running> = CharacterDisplay(
    position: (real, real),
    velocity: (real, real),
    running: Option<Running>)

  /** `CharacterDisplay::default()`: at the origin, not moving, not running. */
  function DefaultDisplay<Running>(): (d: CharacterDisplay<Running>)
    ensures d.velocity == (0.0, 0.0) && d.position == (0.0, 0.0)
    ensures d.running.None?
  {
    CharacterDisplay((0.0, 0.0), (0.0, 0.0), None)
  }

  function BuildPosition(b: Entities.Build): (int, int) { b.Position() }
  function StuffId(s: Stuff.Stuff): int { s.id }
  function ResourcePosition(r: Entities.Resource): (int, int) { r.Position() }
  function CharacterId(c: Entities.Character): string { c.id }

  /** The builds loop: `builds_.insert((build.row_i, build.col_i), build)` for each build in order. */
  method IndexBuilds(builds: seq<Entities.Build>) returns (m: map<(int, int), Entities.Build>)
    ensures m == Keyed.IndexBy(builds, BuildPosition, Keyed.Itself)
  {
    m := map[];
    for i := 0 to |builds|
      invariant m == Keyed.InsertAll(map[], builds[..i], BuildPosition, Keyed.Itself)
    {
      assert builds[..i + 1][..i] == builds[..i];
      m := m[(builds[i].rowI, builds[i].colI) := builds[i]];
    }
    assert builds[..|builds|] == builds;
  }

  /** The stuffs loop: `stuffs_.insert(stuff.id, stuff)` for each stuff in order. */
  method IndexStuffs(stuffs: seq<Stuff.Stuff>) returns (m: map<int, Stuff.Stuff>)
    ensures m == Keyed.IndexBy(stuffs, StuffId, Keyed.Itself)
  {
    m := map[];
    for i := 0 to |stuffs|
      invariant m == Keyed.InsertAll(map[], stuffs[..i], StuffId, Keyed.Itself)
    {
      assert stuffs[..i + 1][..i] == stuffs[..i];
      m := m[stuffs[i].id := stuffs[i]];
    }
    assert stuffs[..|stuffs|] == stuffs;
  }

  /** The resources loop: push each resource onto the vector of its position, creating it if missing. */
  method GroupResources(resources: seq<Entities.Resource>) returns (m: map<(int, int), seq<Entities.Resource>>)
    ensures m == Keyed.GroupBy(resources, ResourcePosition)
  {
    m := map[];
    for i := 0 to |resources|
      invariant m == Keyed.GroupBy(resources[..i], ResourcePosition)
    {
      assert resources[..i + 1][..i] == resources[..i];
      var position := (resources[i].zoneRowI, resources[i].zoneColI);
      var group := if position in m then m[position] else [];
      m := m[position := group + [resources[i]]];
    }
    assert resources[..|resources|] == resources;
  }

  /** The builds are keyed by position: every position is a key, holding the last build there. */
  lemma BuildsIndex(builds: seq<Entities.Build>)
    ensures Keyed.IndexBy(builds, BuildPosition, Keyed.Itself).Keys == set i | 0 <= i < |builds| :: builds[i].Position()
    ensures forall i | 0 <= i < |builds| && (forall j | i < j < |builds| :: builds[j].Position() != builds[i].Position()) ::
      Keyed.IndexBy(builds, BuildPosition, Keyed.Itself)[builds[i].Position()] == builds[i]
  {
    Keyed.IndexByLastWins(builds, BuildPosition, Keyed.Itself);
    assert (set i | 0 <= i < |builds| :: builds[i].Position()) == (set i | 0 <= i < |builds| :: BuildPosition(builds[i]));
  }

  /** The stuffs are keyed by id: every id is a key, holding the last stuff with it. */
  lemma StuffsIndex(stuffs: seq<Stuff.Stuff>)
    ensures Keyed.IndexBy(stuffs, StuffId, Keyed.Itself).Keys == set i | 0 <= i < |stuffs| :: stuffs[i].id
    ensures forall i | 0 <= i < |stuffs| && (forall j | i < j < |stuffs| :: stuffs[j].id != stuffs[i].id) ::
      Keyed.IndexBy(stuffs, StuffId, Keyed.Itself)[stuffs[i].id] == stuffs[i]
  {
    Keyed.IndexByLastWins(stuffs, StuffId, Keyed.Itself);
    assert (set i | 0 <= i < |stuffs| :: stuffs[i].id) == (set i | 0 <= i < |stuffs| :: StuffId(stuffs[i]));
  }

  /** The resources are grouped by position: each group is the resources there, in input order, and is not empty. */
  lemma ResourcesGrouped(resources: seq<Entities.Resource>)
    ensures Keyed.GroupBy(resources, ResourcePosition).Keys == set i | 0 <= i < |resources| :: resources[i].Position()
    ensures forall p | p in Keyed.GroupBy(resources, ResourcePosition) ::
      Keyed.GroupBy(resources, ResourcePosition)[p] == Keyed.WithKey(resources, ResourcePosition, p) &&
      |Keyed.GroupBy(resources, ResourcePosition)[p]| > 0
  {
    Keyed.GroupByIsFilter(resources, ResourcePosition);
    assert (set i | 0 <= i < |resources| :: resources[i].Position()) ==
      (set i | 0 <= i < |resources| :: ResourcePosition(resources[i]));
  }

  /** The characters are keyed by id: every id is a key, holding the last character with it. */
  lemma CharactersIndex(characters: seq<Entities.Character>)
    ensures Keyed.IndexBy(characters, CharacterId, Keyed.Itself).Keys == set i | 0 <= i < |characters| :: characters[i].id
    ensures forall i | 0 <= i < |characters| && (forall j | i < j < |characters| :: characters[j].id != characters[i].id) ::
      Keyed.IndexBy(characters, CharacterId, Keyed.Itself)[characters[i].id] == characters[i]
  {
    Keyed.IndexByLastWins(characters, CharacterId, Keyed.Itself);
    assert (set i | 0 <= i < |characters| :: characters[i].id) ==
      (set i | 0 <= i < |characters| :: CharacterId(characters[i]));
  }

  /** Every resource is in exactly one group: listing the positions once each, the group sizes add up to the input. */
  lemma ResourceGroupsAddUp(resources: seq<Entities.Resource>, positions: seq<(int, int)>)
    requires Keyed.Distinct(positions)
    requires forall p :: p in positions <==> p in Keyed.GroupBy(resources, ResourcePosition)
    ensures Keyed.SizeOfGroups(resources, ResourcePosition, positions) == |resources|
  {
    Keyed.GroupByIsFilter(resources, ResourcePosition);
    forall i | 0 <= i < |resources|
      ensures ResourcePosition(resources[i]) in positions
    {
      assert ResourcePosition(resources[i]) in Keyed.GroupBy(resources, ResourcePosition).Keys;
    }
    Keyed.GroupSizesSum(resources, ResourcePosition, positions);
  }

  class ZoneState<Definition, Running> {
    var zoneMap: ZoneMapGrid.ZoneMap<Definition>
    var characters: map<string, Entities.Character>
    var player: Entities.Character
    var playerDisplay: CharacterDisplay<Running>
    var stuffs: map<int, Stuff.Stuff>
    var resources: map<(int, int), seq<Entities.Resource>>
    var builds: map<(int, int), Entities.Build>

    /**
     * `ZoneState::new`. Only the tile size of the graphics is read: the
     * player is displayed at (column * tile width, row * tile height).
     */
    constructor (tileWidth: real, tileHeight: real, zoneMap: ZoneMapGrid.ZoneMap<Definition>,
                 characters: seq<Entities.Character>, player: Entities.Character, stuffs: seq<Stuff.Stuff>,
                 resources: seq<Entities.Resource>, builds: seq<Entities.Build>)
      ensures this.zoneMap == zoneMap && this.player == player
      ensures this.builds == Keyed.IndexBy(builds, BuildPosition, Keyed.Itself)
      ensures this.stuffs == Keyed.IndexBy(stuffs, StuffId, Keyed.Itself)
      ensures this.resources == Keyed.GroupBy(resources, ResourcePosition)
      ensures this.characters == Keyed.IndexBy(characters, CharacterId, Keyed.Itself)
      ensures playerDisplay == DefaultDisplay<Running>().(position :=
        (player.zoneColI as real * tileWidth, player.zoneRowI as real * tileHeight))
    {
      var builds_ := IndexBuilds(builds);
      var stuffs_ := IndexStuffs(stuffs);
      var display := DefaultDisplay<Running>().(position :=
        (player.zoneColI as real * tileWidth, player.zoneRowI as real * tileHeight));
      var resources_ := GroupResources(resources);
      this.zoneMap := zoneMap;
      this.characters := Keyed.IndexBy(characters, CharacterId, Keyed.Itself);
      this.player := player;
      this.playerDisplay := display;
      this.stuffs := stuffs_;
      this.resources := resources_;
      this.builds := builds_;
    }
  }
}
