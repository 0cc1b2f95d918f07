/**
 * Zone events exchanged over the websocket (src/event/mod.rs).
 *
 * `FromValue` is the decoder of server messages: it reads the "type" name
 * and the "data" member of a JSON object and builds the event of that
 * name by hand, field by field. Every `unwrap()` of the source that fails
 * is the outcome `Panic`; a name the decoder does not know is the error
 * "Unknown event <name>". `Serialize` is the encoder of client messages:
 * the object {"type": name, "data": fields}, where the fields are written as
 * serde's untagged derive writes them (a variant without fields is `null`).
 */
module Event {

  import opened Wrappers
  import opened Ints
  import opened Json
  import Actions
  import Entities

  const PLAYER_MOVE: string := "PLAYER_MOVE"
  const CLIENT_WANT_CLOSE: string := "CLIENT_WANT_CLOSE"
  const SERVER_PERMIT_CLOSE: string := "SERVER_PERMIT_CLOSE"
  const CHARACTER_ENTER_ZONE: string := "CHARACTER_ENTER_ZONE"
  const CHARACTER_SPRITESHEET_CHANGE: string := "CHARACTER_SPRITESHEET_CHANGE"
  const CHARACTER_EXIT_ZONE: string := "CHARACTER_EXIT_ZONE"
  const CLIENT_REQUIRE_AROUND: string := "CLIENT_REQUIRE_AROUND"
  const THERE_IS_AROUND: string := "THERE_IS_AROUND"
  const CLICK_ACTION_EVENT: string := "CLICK_ACTION_EVENT"
  const CLIENT_REQUIRE_NEW_RESUME_TEXT: string := "CLIENT_REQUIRE_NEW_RESUME_TEXT"
  const NEW_RESUME_TEXT: string := "NEW_RESUME_TEXT"
  const NEW_BUILD: string := "NEW_BUILD"
  const REMOVE_BUILD: string := "REMOVE_BUILD"
  const REQUEST_CHAT: string := "REQUEST_CHAT"
  const NEW_CHAT_MESSAGE: string := "NEW_CHAT_MESSAGE"
  const ANIMATED_CORPSE_MOVE: string := "ANIMATED_CORPSE_MOVE"
  const TOP_BAR_MESSAGE: string := "TOP_BAR_MESSAGE"
  const ZONE_TILE_REPLACE: string := "ZONE_TILE_REPLACE"
  const ZONE_GROUND_RESOURCE_REMOVE: string := "ZONE_GROUND_RESOURCE_REMOVE"
  const ZONE_GROUND_STUFF_REMOVE: string := "ZONE_GROUND_STUFF_REMOVE"
  const ZONE_GROUND_RESOURCE_APPEAR: string := "ZONE_GROUND_RESOURCE_APPEAR"
  const ZONE_GROUND_STUFF_APPEAR: string := "ZONE_GROUND_STUFF_APPEAR"

  /** The names `from_value` has an arm for. */
  const DECODED_NAMES: set<string> := {
    PLAYER_MOVE, CLIENT_WANT_CLOSE, SERVER_PERMIT_CLOSE, CHARACTER_ENTER_ZONE, CHARACTER_SPRITESHEET_CHANGE,
    CHARACTER_EXIT_ZONE, THERE_IS_AROUND, NEW_RESUME_TEXT, NEW_BUILD, REMOVE_BUILD, ZONE_TILE_REPLACE,
    NEW_CHAT_MESSAGE, ANIMATED_CORPSE_MOVE, TOP_BAR_MESSAGE, ZONE_GROUND_RESOURCE_REMOVE,
    ZONE_GROUND_STUFF_REMOVE, ZONE_GROUND_RESOURCE_APPEAR, ZONE_GROUND_STUFF_APPEAR}

  datatype TopBarMessageType = Normal | Error

  /** `model::ItemModel`: one line of the character resume. */
  datatype ItemModel = ItemModel(
    name: string,
    valueIsStr: bool,
    valueIsFloat: bool,
    valueStr: Option<string>,
    valueFloat: Option<real>,
    url: Option<string>,
    classes: seq<string>)

  /** `ZoneEventType`; field names that clash between variants are renamed. */
  datatype ZoneEventType =
    | ClientWantClose
    | ServerPermitClose
    | PlayerMove(toRowI: int, toColI: int, characterId: string)
    | CharacterEnter(zoneRowI: int, zoneColI: int, characterId: string, spritesheet: Option<string>)
    | CharacterSpritesheetChange(characterId: string, spritesheetFilename: string)
    | CharacterExit(characterId: string)
    | ClientRequireResumeText
    | ClientRequireAround(zoneRowI: int, zoneColI: int, characterId: string)
    | ThereIsAround(stuffCount: int, resourceCount: int, buildCount: int, characterCount: int,
                    quickActions: seq<Actions.QuickAction>)
    | ClickActionEvent(actionType: string, actionDescriptionId: string, rowI: int, colI: int)
    | NewResumeText(resume: seq<ItemModel>)
    | NewBuild(build: Entities.Build, producedResourceId: Option<string>, producedStuffId: Option<string>,
               producerCharacterId: Option<string>)
    | RemoveBuild(zoneRowI: int, zoneColI: int)
    | RequestChat
    | NewChatMessage(authorId: Option<string>, message: string, system: bool, silent: bool)
    | AnimatedCorpseMove(toRowI: int, toColI: int, animatedCorpseId: int)
    | TopBarMessage(message: string, messageType: TopBarMessageType)
    | ZoneTileReplace(rowI: int, colI: int, newTileId: string)
    | ZoneGroundResourceRemoved(rowI: int, colI: int, resourceId: string)
    | ZoneGroundStuffRemoved(removedStuffId: int)
    | ZoneGroundResourceAdded(rowI: int, colI: int, resourceId: string)
    | ZoneGroundStuffAdded(id: int, stuffId: string, zoneRowI: int, zoneColI: int, classes: seq<string>)

  datatype ZoneEvent = ZoneEvent(eventType: ZoneEventType, eventTypeName: string)

  /** What `from_value` does: an event, an `Err` message, or a panic of one of its `unwrap()`s. */
  datatype Decoding = Decoded(event: ZoneEvent) | Rejected(message: string) | Panic

  // serde's derived deserialisers for the structs the decoder reads whole.

  function DeExploitableTile(v: Json): Option<Actions.ExploitableTile>
  {
    if !v.JObject? then None
    else
      var row := DeI32(Member(v.fields, "zone_row_i"));
      var col := DeI32(Member(v.fields, "zone_col_i"));
      var classes := DeStrings(Member(v.fields, "classes"));
      if row.Some? && col.Some? && classes.Some? then Some(Actions.ExploitableTile(row.value, col.value, classes.value))
      else None
  }

  function DeQuickAction(v: Json): Option<Actions.QuickAction>
  {
    if !v.JObject? then None
    else
      var f := v.fields;
      var uuid := DeString(Member(f, "uuid"));
      var name := DeString(Member(f, "name"));
      var baseUrl := DeString(Member(f, "base_url"));
      var classes1 := DeStrings(Member(f, "classes1"));
      var classes2 := DeStrings(Member(f, "classes2"));
      var tiles := DeVec(Member(f, "exploitable_tiles"), DeExploitableTile);
      var allAtOnce := DeBool(Member(f, "all_tiles_at_once"));
      var direct := DeBool(Member(f, "direct_action"));
      var key := DeOptChar(Member(f, "quick_action_key"));
      var forceOpen := DeBool(Member(f, "force_open_description"));
      if && uuid.Some? && name.Some? && baseUrl.Some? && classes1.Some? && classes2.Some? && tiles.Some?
         && allAtOnce.Some? && direct.Some? && key.Some? && forceOpen.Some?
      then Some(Actions.QuickAction(uuid.value, name.value, baseUrl.value, classes1.value, classes2.value, tiles.value,
                                    allAtOnce.value, direct.value, key.value, forceOpen.value))
      else None
  }

  function DeItemModel(v: Json): Option<ItemModel>
  {
    if !v.JObject? then None
    else
      var f := v.fields;
      var name := DeString(Member(f, "name"));
      var isStr := DeBool(Member(f, "value_is_str"));
      var isFloat := DeBool(Member(f, "value_is_float"));
      var valueStr := DeOptString(Member(f, "value_str"));
      var valueFloat := DeOptReal(Member(f, "value_float"));
      var url := DeOptString(Member(f, "url"));
      var classes := DeStrings(Member(f, "classes"));
      if && name.Some? && isStr.Some? && isFloat.Some? && valueStr.Some? && valueFloat.Some? && url.Some?
         && classes.Some?
      then Some(ItemModel(name.value, isStr.value, isFloat.value, valueStr.value, valueFloat.value, url.value,
                          classes.value))
      else None
  }

  /** `ListOfItemModel`: an object whose "items" member is a list of resume items. */
  function DeListOfItems(v: Json): Option<seq<ItemModel>>
  {
    if !v.JObject? then None else DeVec(Member(v.fields, "items"), DeItemModel)
  }

  /** `NewChatMessage`. */
  function DeNewChatMessage(v: Json): Option<ZoneEventType>
  {
    if !v.JObject? then None
    else
      var f := v.fields;
      var message := DeString(Member(f, "message"));
      var author := DeOptString(Member(f, "character_id"));
      var silent := DeBool(Member(f, "silent"));
      var system := DeBool(Member(f, "system"));
      if message.Some? && author.Some? && silent.Some? && system.Some?
      then Some(NewChatMessage(author.value, message.value, system.value, silent.value))
      else None
  }

  // The arms of `from_value`, one per name; `None` is a panic.

  function DecodePlayerMove(data: Json): Option<ZoneEventType>
  {
    var r := I64AsI32(Index(data, "to_row_i"));
    var c := I64AsI32(Index(data, "to_col_i"));
    var id := AsStr(Index(data, "character_id"));
    if r.Some? && c.Some? && id.Some? then Some(PlayerMove(r.value, c.value, id.value)) else None
  }

  function DecodeCharacterEnter(data: Json): Option<ZoneEventType>
  {
    var r := I64AsI32(Index(data, "zone_row_i"));
    var c := I64AsI32(Index(data, "zone_col_i"));
    var id := AsStr(Index(data, "character_id"));
    if r.Some? && c.Some? && id.Some?
    then Some(CharacterEnter(r.value, c.value, id.value, AsStr(Index(data, "spritesheet_filename"))))
    else None
  }

  function DecodeSpritesheetChange(data: Json): Option<ZoneEventType>
  {
    var id := AsStr(Index(data, "character_id"));
    var f := AsStr(Index(data, "spritesheet_filename"));
    if id.Some? && f.Some? then Some(CharacterSpritesheetChange(id.value, f.value)) else None
  }

  function DecodeCharacterExit(data: Json): Option<ZoneEventType>
  {
    var id := AsStr(Index(data, "character_id"));
    if id.Some? then Some(CharacterExit(id.value)) else None
  }

  function DecodeThereIsAround(data: Json): Option<ZoneEventType>
  {
    var s := I64AsI32(Index(data, "stuff_count"));
    var r := I64AsI32(Index(data, "resource_count"));
    var b := I64AsI32(Index(data, "build_count"));
    var c := I64AsI32(Index(data, "character_count"));
    var qas := DeVec(Index(data, "quick_actions"), DeQuickAction);
    if s.Some? && r.Some? && b.Some? && c.Some? && qas.Some?
    then Some(ThereIsAround(s.value, r.value, b.value, c.value, qas.value))
    else None
  }

  function DecodeResumeText(data: Json): Option<ZoneEventType>
  {
    var resume := Get(data, "resume");
    var items := if resume.Some? then DeListOfItems(resume.value) else None;
    if items.Some? then Some(NewResumeText(items.value)) else None
  }

  /** The strings of a JSON array, each `as_str().unwrap()`. */
  function StrItems(v: Json): Option<seq<string>>
  {
    match AsArray(v)
    case Some(items) => DeSeq(items, AsStr)
    case None => None
  }

  /**
   * The loop of NEW_BUILD over the build's "classes" array: each item
   * `as_str().unwrap()` and pushed in order; `None` is the panic of an item
   * that is not a string.
   */
  method CollectClasses(items: seq<Json>) returns (classes: Option<seq<string>>)
    ensures classes == DeSeq(items, AsStr)
  {
    var pushed: seq<string> := [];
    for i := 0 to |items|
      invariant |pushed| == i
      invariant forall k | 0 <= k < i :: AsStr(items[k]) == Some(pushed[k])
    {
      var item := AsStr(items[i]);
      if item.None? {
        return None;
      }
      pushed := pushed + [item.value];
    }
    var spec := DeSeq(items, AsStr);
    assert spec.Some? && |spec.value| == |pushed|;
    assert forall k | 0 <= k < |pushed| :: spec.value[k] == pushed[k];
    assert spec.value == pushed;
    return Some(pushed);
  }

  /** `traversable`: the "WALKING" flag of the build's "traversable" object, alone. */
  function Walking(b: map<string, Json>): Option<bool>
  {
    match AsObject(Member(b, "traversable"))
    case Some(t) => if "WALKING" in t then AsBool(t["WALKING"]) else None
    case None => None
  }

  function DecodeBuild(data: Json): Option<ZoneEventType>
  {
    var bd := AsObject(Index(data, "build"));
    if bd.None? then None
    else
      var b := bd.value;
      var classes := StrItems(Member(b, "classes"));
      var walking := Walking(b);
      var id := I64AsI32(Member(b, "id"));
      var buildId := AsStr(Member(b, "build_id"));
      var row := I64AsI32(Member(b, "row_i"));
      var col := I64AsI32(Member(b, "col_i"));
      var isFloor := AsBool(Member(b, "is_floor"));
      var underConstruction := AsBool(Member(b, "under_construction"));
      if && classes.Some? && walking.Some? && id.Some? && buildId.Some? && row.Some? && col.Some?
         && isFloor.Some? && underConstruction.Some?
      then Some(NewBuild(
        Entities.Build(id.value, buildId.value, row.value, col.value, classes.value, map["WALKING" := walking.value],
                       isFloor.value, underConstruction.value),
        AsStr(Index(data, "produced_resource_id")),
        AsStr(Index(data, "produced_stuff_id")),
        AsStr(Index(data, "producer_character_id"))))
      else None
  }

  function DecodeRemoveBuild(data: Json): Option<ZoneEventType>
  {
    var r := I64AsI32(Index(data, "zone_row_i"));
    var c := I64AsI32(Index(data, "zone_col_i"));
    if r.Some? && c.Some? then Some(RemoveBuild(r.value, c.value)) else None
  }

  /** The coordinates of a replaced tile are cast to `i16`. */
  function DecodeTileReplace(data: Json): Option<ZoneEventType>
  {
    var tileId := AsStr(Index(data, "new_tile_id"));
    var r := AsI64(Index(data, "zone_row_i"));
    var c := AsI64(Index(data, "zone_col_i"));
    if tileId.Some? && r.Some? && c.Some? then Some(ZoneTileReplace(AsI16(r.value), AsI16(c.value), tileId.value))
    else None
  }

  function DecodeCorpseMove(data: Json): Option<ZoneEventType>
  {
    var r := I64AsI32(Index(data, "to_row_i"));
    var c := I64AsI32(Index(data, "to_col_i"));
    var id := I64AsI32(Index(data, "animated_corpse_id"));
    if r.Some? && c.Some? && id.Some? then Some(AnimatedCorpseMove(r.value, c.value, id.value)) else None
  }

  function DecodeTopBarMessage(data: Json): Option<ZoneEventType>
  {
    var m := AsStr(Index(data, "message"));
    var kind := AsStr(Index(data, "type_"));
    if m.Some? && kind.Some? then Some(TopBarMessage(m.value, if kind.value == "ERROR" then Error else Normal))
    else None
  }

  /** Both ground-resource arms read the same fields. */
  function DecodeGroundResource(data: Json, appear: bool): Option<ZoneEventType>
  {
    var r := I64AsI32(Index(data, "zone_row_i"));
    var c := I64AsI32(Index(data, "zone_col_i"));
    var id := AsStr(Index(data, "resource_id"));
    if r.Some? && c.Some? && id.Some?
    then Some(if appear then ZoneGroundResourceAdded(r.value, c.value, id.value)
              else ZoneGroundResourceRemoved(r.value, c.value, id.value))
    else None
  }

  function DecodeStuffRemove(data: Json): Option<ZoneEventType>
  {
    var id := I64AsI32(Index(data, "stuff_id"));
    if id.Some? then Some(ZoneGroundStuffRemoved(id.value)) else None
  }

  function DecodeStuffAppear(data: Json): Option<ZoneEventType>
  {
    var id := I64AsI32(Index(data, "id"));
    var stuffId := AsStr(Index(data, "stuff_id"));
    var r := I64AsI32(Index(data, "zone_row_i"));
    var c := I64AsI32(Index(data, "zone_col_i"));
    var classes := StrItems(Index(data, "classes"));
    if id.Some? && stuffId.Some? && r.Some? && c.Some? && classes.Some?
    then Some(ZoneGroundStuffAdded(id.value, stuffId.value, r.value, c.value, classes.value))
    else None
  }

  function DecodeType(t: string, data: Json): Option<ZoneEventType>
  {
    if t == PLAYER_MOVE then DecodePlayerMove(data)
    else if t == CLIENT_WANT_CLOSE then Some(ClientWantClose)
    else if t == SERVER_PERMIT_CLOSE then Some(ServerPermitClose)
    else if t == CHARACTER_ENTER_ZONE then DecodeCharacterEnter(data)
    else if t == CHARACTER_SPRITESHEET_CHANGE then DecodeSpritesheetChange(data)
    else if t == CHARACTER_EXIT_ZONE then DecodeCharacterExit(data)
    else if t == THERE_IS_AROUND then DecodeThereIsAround(data)
    else if t == NEW_RESUME_TEXT then DecodeResumeText(data)
    else if t == NEW_BUILD then DecodeBuild(data)
    else if t == REMOVE_BUILD then DecodeRemoveBuild(data)
    else if t == ZONE_TILE_REPLACE then DecodeTileReplace(data)
    else if t == NEW_CHAT_MESSAGE then DeNewChatMessage(data)
    else if t == ANIMATED_CORPSE_MOVE then DecodeCorpseMove(data)
    else if t == TOP_BAR_MESSAGE then DecodeTopBarMessage(data)
    else if t == ZONE_GROUND_RESOURCE_REMOVE then DecodeGroundResource(data, false)
    else if t == ZONE_GROUND_STUFF_REMOVE then DecodeStuffRemove(data)
    else if t == ZONE_GROUND_RESOURCE_APPEAR then DecodeGroundResource(data, true)
    else if t == ZONE_GROUND_STUFF_APPEAR then DecodeStuffAppear(data)
    else None
  }

  /**
   * `ZoneEvent::from_value`. A decoded event is named by the message's
   * "type", which is one of the names with an arm; a name without an arm
   * is refused with "Unknown event <name>".
   */
  function FromValue(value: Json): (r: Decoding)
    ensures r.Decoded? ==> Index(value, "type") == JString(r.event.eventTypeName) && r.event.eventTypeName in DECODED_NAMES
    ensures r.Rejected? <==>
      (Get(value, "data").Some? && AsStr(Index(value, "type")).Some? && AsStr(Index(value, "type")).value !in DECODED_NAMES)
    ensures r.Rejected? ==> r.message == "Unknown event " + AsStr(Index(value, "type")).value
    ensures AsStr(Index(value, "type")).None? || Get(value, "data").None? ==> r.Panic?
  {
    match (AsStr(Index(value, "type")), Get(value, "data"))
    case (Some(t), Some(data)) =>
      if t in DECODED_NAMES then
        match DecodeType(t, data)
        case Some(et) => Decoded(ZoneEvent(et, t))
        case None => Panic
      else Rejected("Unknown event " + t)
    case _ => Panic
  }

  // serde's serialisers for the same types.

  function SerExploitableTile(t: Actions.ExploitableTile): Json
  {
    JObject(map["zone_row_i" := JInt(t.zoneRowI), "zone_col_i" := JInt(t.zoneColI), "classes" := SerStrings(t.classes)])
  }

  function SerQuickAction(q: Actions.QuickAction): Json
  {
    JObject(map[
      "uuid" := JString(q.uuid), "name" := JString(q.name), "base_url" := JString(q.baseUrl),
      "classes1" := SerStrings(q.classes1), "classes2" := SerStrings(q.classes2),
      "exploitable_tiles" := SerSeq(q.exploitableTiles, SerExploitableTile),
      "all_tiles_at_once" := JBool(q.allTilesAtOnce), "direct_action" := JBool(q.directAction),
      "quick_action_key" := SerOptChar(q.quickActionKey), "force_open_description" := JBool(q.forceOpenDescription)])
  }

  function SerItemModel(m: ItemModel): Json
  {
    JObject(map[
      "name" := JString(m.name), "value_is_str" := JBool(m.valueIsStr), "value_is_float" := JBool(m.valueIsFloat),
      "value_str" := SerOptString(m.valueStr), "value_float" := SerOptReal(m.valueFloat),
      "url" := SerOptString(m.url), "classes" := SerStrings(m.classes)])
  }

  /** `Build` as serde's derive writes it: its fields under their Rust names. */
  function SerBuild(b: Entities.Build): Json
  {
    JObject(map[
      "id" := JInt(b.id), "build_id" := JString(b.buildId), "row_i" := JInt(b.rowI), "col_i" := JInt(b.colI),
      "classes" := SerStrings(b.classes),
      "traversable" := JObject(map k | k in b.traversable :: JBool(b.traversable[k])),
      "is_floor" := JBool(b.isFloor), "under_construction" := JBool(b.underConstruction)])
  }

  /** The untagged serialisation of `ZoneEventType`: a variant without fields is `null`, the others objects. */
  function SerializeType(et: ZoneEventType): Json
  {
    match et
    case ClientWantClose => JNull
    case ServerPermitClose => JNull
    case PlayerMove(r, c, id) =>
      JObject(map["to_row_i" := JInt(r), "to_col_i" := JInt(c), "character_id" := JString(id)])
    case CharacterEnter(r, c, id, s) =>
      JObject(map["zone_row_i" := JInt(r), "zone_col_i" := JInt(c), "character_id" := JString(id),
                  "spritesheet_filename" := SerOptString(s)])
    case CharacterSpritesheetChange(id, f) =>
      JObject(map["character_id" := JString(id), "spritesheet_filename" := JString(f)])
    case CharacterExit(id) => JObject(map["character_id" := JString(id)])
    case ClientRequireResumeText => JNull
    case ClientRequireAround(r, c, id) =>
      JObject(map["zone_row_i" := JInt(r), "zone_col_i" := JInt(c), "character_id" := JString(id)])
    case ThereIsAround(s, r, b, c, qas) =>
      JObject(map["stuff_count" := JInt(s), "resource_count" := JInt(r), "build_count" := JInt(b),
                  "character_count" := JInt(c), "quick_actions" := SerSeq(qas, SerQuickAction)])
    case ClickActionEvent(actionType, descriptionId, r, c) =>
      JObject(map["action_type" := JString(actionType), "action_description_id" := JString(descriptionId),
                  "row_i" := JInt(r), "col_i" := JInt(c)])
    case NewResumeText(items) => JObject(map["resume" := SerSeq(items, SerItemModel)])
    case NewBuild(b, res, stuff, producer) =>
      JObject(map["build" := SerBuild(b), "produced_resource_id" := SerOptString(res),
                  "produced_stuff_id" := SerOptString(stuff), "producer_character_id" := SerOptString(producer)])
    case RemoveBuild(r, c) => JObject(map["zone_row_i" := JInt(r), "zone_col_i" := JInt(c)])
    case RequestChat => JNull
    case NewChatMessage(author, message, system, silent) =>
      JObject(map["character_id" := SerOptString(author), "message" := JString(message),
                  "system" := JBool(system), "silent" := JBool(silent)])
    case AnimatedCorpseMove(r, c, id) =>
      JObject(map["to_row_i" := JInt(r), "to_col_i" := JInt(c), "animated_corpse_id" := JInt(id)])
    case TopBarMessage(m, _) => JObject(map["message" := JString(m), "type_" := JNull])
    case ZoneTileReplace(r, c, tileId) =>
      JObject(map["row_i" := JInt(r), "col_i" := JInt(c), "new_tile_id" := JString(tileId)])
    case ZoneGroundResourceRemoved(r, c, id) =>
      JObject(map["row_i" := JInt(r), "col_i" := JInt(c), "resource_id" := JString(id)])
    case ZoneGroundStuffRemoved(id) => JObject(map["stuff_id" := JInt(id)])
    case ZoneGroundResourceAdded(r, c, id) =>
      JObject(map["row_i" := JInt(r), "col_i" := JInt(c), "resource_id" := JString(id)])
    case ZoneGroundStuffAdded(id, stuffId, r, c, classes) =>
      JObject(map["id_" := JInt(id), "stuff_id" := JString(stuffId), "zone_row_i" := JInt(r),
                  "zone_col_i" := JInt(c), "classes" := SerStrings(classes)])
  }

  /** `Serialize for ZoneEvent`: an object with exactly a "type" name and the "data" of the event. */
  function Serialize(e: ZoneEvent): (r: Json)
    ensures r.JObject? && r.fields.Keys == {"type", "data"}
    ensures Index(r, "type") == JString(e.eventTypeName)
    ensures Get(r, "data") == Some(SerializeType(e.eventType))
  {
    JObject(map["type" := JString(e.eventTypeName), "data" := SerializeType(e.eventType)])
  }

  // What the decoder promises.

  /** The names of the events the client sends are not among those it decodes: such a message is refused. */
  lemma ClientEventsRejected(t: string, data: Json)
    requires t in {CLIENT_REQUIRE_AROUND, CLICK_ACTION_EVENT, CLIENT_REQUIRE_NEW_RESUME_TEXT, REQUEST_CHAT}
    ensures FromValue(JObject(map["type" := JString(t), "data" := data])) == Rejected("Unknown event " + t)
  {
    assert t !in DECODED_NAMES;
  }

  /** A top bar message is an error exactly when its "type_" is the string "ERROR"; any other string is normal. */
  lemma TopBarMessageKind(message: string, kind: string)
    ensures FromValue(JObject(map["type" := JString(TOP_BAR_MESSAGE),
                                  "data" := JObject(map["message" := JString(message), "type_" := JString(kind)])]))
      == Decoded(ZoneEvent(TopBarMessage(message, if kind == "ERROR" then Error else Normal), TOP_BAR_MESSAGE))
  {
  }

  /** Coordinates are cast to `i32` with wrap-around, not checked: 2^32 + 5 reads as 5 and 2^31 as -2^31. */
  lemma PlayerMoveWraps(id: string)
    ensures FromValue(JObject(map["type" := JString(PLAYER_MOVE),
                                  "data" := JObject(map["to_row_i" := JInt(0x1_0000_0005), "to_col_i" := JInt(0x8000_0000),
                                                        "character_id" := JString(id)])]))
      == Decoded(ZoneEvent(PlayerMove(5, -0x8000_0000, id), PLAYER_MOVE))
  {
  }

  /** A replaced tile's row is cast to `i16` with wrap-around: 65537 reads as 1. */
  lemma ZoneTileReplaceWraps(tileId: string)
    ensures FromValue(JObject(map["type" := JString(ZONE_TILE_REPLACE),
                                  "data" := JObject(map["zone_row_i" := JInt(65537), "zone_col_i" := JInt(-1),
                                                        "new_tile_id" := JString(tileId)])]))
      == Decoded(ZoneEvent(ZoneTileReplace(1, -1, tileId), ZONE_TILE_REPLACE))
  {
  }

  /**
   * A character entering the zone has a spritesheet exactly when its
   * "spritesheet_filename" is a string; anything else there (absent, null,
   * a number) is no spritesheet, not an error.
   */
  lemma CharacterEnterSpritesheet(data: Json)
    requires data.JObject?
    requires Index(data, "zone_row_i").JInt? && IsI32(Index(data, "zone_row_i").i)
    requires Index(data, "zone_col_i").JInt? && IsI32(Index(data, "zone_col_i").i)
    requires Index(data, "character_id").JString?
    ensures var r := FromValue(JObject(map["type" := JString(CHARACTER_ENTER_ZONE), "data" := data]));
      && r.Decoded?
      && r.event.eventType == CharacterEnter(Index(data, "zone_row_i").i, Index(data, "zone_col_i").i,
                                             Index(data, "character_id").s, r.event.eventType.spritesheet)
      && (r.event.eventType.spritesheet.Some? <==> Index(data, "spritesheet_filename").JString?)
  {
  }

  /**
   * A decoded build: its classes are the strings of its "classes" array in
   * order, it is traversable by walking only (as the message says), and
   * each produced id is present exactly when the message holds a string
   * for it.
   */
  lemma NewBuildShape(data: Json)
    requires FromValue(JObject(map["type" := JString(NEW_BUILD), "data" := data])).Decoded?
    ensures var et := FromValue(JObject(map["type" := JString(NEW_BUILD), "data" := data])).event.eventType;
      var b := Index(data, "build");
      && et.NewBuild?
      && Index(b, "classes").JArray?
      && |et.build.classes| == |Index(b, "classes").items|
      && (forall i | 0 <= i < |et.build.classes| :: Index(b, "classes").items[i] == JString(et.build.classes[i]))
      && et.build.traversable.Keys == {"WALKING"}
      && Index(Index(b, "traversable"), "WALKING") == JBool(et.build.traversable["WALKING"])
      && (et.producedResourceId.Some? <==> Index(data, "produced_resource_id").JString?)
      && (et.producedStuffId.Some? <==> Index(data, "produced_stuff_id").JString?)
      && (et.producerCharacterId.Some? <==> Index(data, "producer_character_id").JString?)
  {
  }

  // Serialising then decoding.

  predicate TileInRange(t: Actions.ExploitableTile)
  {
    IsI32(t.zoneRowI) && IsI32(t.zoneColI)
  }

  predicate QuickActionInRange(q: Actions.QuickAction)
  {
    forall i | 0 <= i < |q.exploitableTiles| :: TileInRange(q.exploitableTiles[i])
  }

  lemma ExploitableTileRoundTrip(t: Actions.ExploitableTile)
    requires TileInRange(t)
    ensures DeExploitableTile(SerExploitableTile(t)) == Some(t)
  {
    StringsRoundTrip(t.classes);
  }

  lemma QuickActionTilesRoundTrip(q: Actions.QuickAction)
    requires QuickActionInRange(q)
    ensures DeVec(Member(SerQuickAction(q).fields, "exploitable_tiles"), DeExploitableTile) == Some(q.exploitableTiles)
  {
    forall i | 0 <= i < |q.exploitableTiles|
      ensures DeExploitableTile(SerExploitableTile(q.exploitableTiles[i])) == Some(q.exploitableTiles[i])
    {
      ExploitableTileRoundTrip(q.exploitableTiles[i]);
    }
    SeqRoundTrip(q.exploitableTiles, SerExploitableTile, DeExploitableTile);
  }

  lemma QuickActionFieldsRoundTrip(q: Actions.QuickAction)
    ensures var f := SerQuickAction(q).fields;
      && DeStrings(Member(f, "classes1")) == Some(q.classes1)
      && DeStrings(Member(f, "classes2")) == Some(q.classes2)
      && DeString(Member(f, "uuid")) == Some(q.uuid)
      && DeString(Member(f, "name")) == Some(q.name)
      && DeString(Member(f, "base_url")) == Some(q.baseUrl)
      && DeBool(Member(f, "all_tiles_at_once")) == Some(q.allTilesAtOnce)
      && DeBool(Member(f, "direct_action")) == Some(q.directAction)
      && DeOptChar(Member(f, "quick_action_key")) == Some(q.quickActionKey)
      && DeBool(Member(f, "force_open_description")) == Some(q.forceOpenDescription)
  {
    StringsRoundTrip(q.classes1);
    StringsRoundTrip(q.classes2);
  }

  /** A quick action whose tile coordinates fit in `i32` comes back as written. */
  lemma QuickActionRoundTrip(q: Actions.QuickAction)
    requires QuickActionInRange(q)
    ensures DeQuickAction(SerQuickAction(q)) == Some(q)
  {
    QuickActionTilesRoundTrip(q);
    QuickActionFieldsRoundTrip(q);
  }

  /**
   * The events whose serialisation the decoder reads back: the right name,
   * integers that fit in `i32`, and a build traversable by walking only.
   */
  predicate RoundTrips(e: ZoneEvent)
  {
    match e.eventType
    case ClientWantClose => e.eventTypeName == CLIENT_WANT_CLOSE
    case ServerPermitClose => e.eventTypeName == SERVER_PERMIT_CLOSE
    case PlayerMove(r, c, _) => e.eventTypeName == PLAYER_MOVE && IsI32(r) && IsI32(c)
    case CharacterEnter(r, c, _, _) => e.eventTypeName == CHARACTER_ENTER_ZONE && IsI32(r) && IsI32(c)
    case CharacterSpritesheetChange(_, _) => e.eventTypeName == CHARACTER_SPRITESHEET_CHANGE
    case CharacterExit(_) => e.eventTypeName == CHARACTER_EXIT_ZONE
    case ThereIsAround(s, r, b, c, qas) =>
      && e.eventTypeName == THERE_IS_AROUND && IsI32(s) && IsI32(r) && IsI32(b) && IsI32(c)
      && forall i | 0 <= i < |qas| :: QuickActionInRange(qas[i])
    case NewBuild(b, _, _, _) =>
      && e.eventTypeName == NEW_BUILD && IsI32(b.id) && IsI32(b.rowI) && IsI32(b.colI)
      && b.traversable.Keys == {"WALKING"}
    case RemoveBuild(r, c) => e.eventTypeName == REMOVE_BUILD && IsI32(r) && IsI32(c)
    case NewChatMessage(_, _, _, _) => e.eventTypeName == NEW_CHAT_MESSAGE
    case AnimatedCorpseMove(r, c, id) => e.eventTypeName == ANIMATED_CORPSE_MOVE && IsI32(r) && IsI32(c) && IsI32(id)
    case ZoneGroundStuffRemoved(id) => e.eventTypeName == ZONE_GROUND_STUFF_REMOVE && IsI32(id)
    case _ => false
  }

  lemma BuildFieldsRoundTrip(b: Entities.Build)
    requires IsI32(b.id) && IsI32(b.rowI) && IsI32(b.colI) && b.traversable.Keys == {"WALKING"}
    ensures var f := SerBuild(b).fields;
      && StrItems(Member(f, "classes")) == Some(b.classes)
      && Walking(f) == Some(b.traversable["WALKING"])
      && I64AsI32(Member(f, "id")) == Some(b.id)
      && AsStr(Member(f, "build_id")) == Some(b.buildId)
      && I64AsI32(Member(f, "row_i")) == Some(b.rowI)
      && I64AsI32(Member(f, "col_i")) == Some(b.colI)
      && AsBool(Member(f, "is_floor")) == Some(b.isFloor)
      && AsBool(Member(f, "under_construction")) == Some(b.underConstruction)
  {
    BuildScalarsRoundTrip(b);
    var items := SerStrings(b.classes).items;
    assert Member(SerBuild(b).fields, "classes") == SerStrings(b.classes);
    assert forall i | 0 <= i < |items| :: AsStr(items[i]) == Some(b.classes[i]);
    assert DeSeq(items, AsStr).value == b.classes;
  }

  /** The scalar members of a serialised build are the build's fields. */
  lemma BuildScalarsRoundTrip(b: Entities.Build)
    ensures var f := SerBuild(b).fields;
      && Member(f, "id") == JInt(b.id) && Member(f, "build_id") == JString(b.buildId)
      && Member(f, "row_i") == JInt(b.rowI) && Member(f, "col_i") == JInt(b.colI)
      && Member(f, "is_floor") == JBool(b.isFloor) && Member(f, "under_construction") == JBool(b.underConstruction)
  {
    var f := SerBuild(b).fields;
    assert Member(f, "id") == JInt(b.id) && Member(f, "build_id") == JString(b.buildId);
    assert Member(f, "row_i") == JInt(b.rowI) && Member(f, "col_i") == JInt(b.colI);
  }

  /** `as_str` of a serialised optional string gives back the option. */
  lemma AsStrOfOptional(o: Option<string>)
    ensures AsStr(SerOptString(o)) == o
  {
  }

  lemma NewBuildRoundTrip(b: Entities.Build, res: Option<string>, stuff: Option<string>, producer: Option<string>)
    requires IsI32(b.id) && IsI32(b.rowI) && IsI32(b.colI) && b.traversable.Keys == {"WALKING"}
    ensures DecodeBuild(SerializeType(NewBuild(b, res, stuff, producer))) == Some(NewBuild(b, res, stuff, producer))
  {
    NewBuildData(b, res, stuff, producer);
    BuildFieldsRoundTrip(b);
    AsStrOfOptional(res);
    AsStrOfOptional(stuff);
    AsStrOfOptional(producer);
    WalkingOnly(b.traversable);
  }

  /** A map whose only key is "WALKING" is rebuilt from that key's value. */
  lemma WalkingOnly(t: map<string, bool>)
    requires t.Keys == {"WALKING"}
    ensures map["WALKING" := t["WALKING"]] == t
  {
    assert "WALKING" in t.Keys;
  }

  /** The members of a serialised NEW_BUILD event's data. */
  lemma NewBuildData(b: Entities.Build, res: Option<string>, stuff: Option<string>, producer: Option<string>)
    ensures var data := SerializeType(NewBuild(b, res, stuff, producer));
      && Index(data, "build") == SerBuild(b)
      && Index(data, "produced_resource_id") == SerOptString(res)
      && Index(data, "produced_stuff_id") == SerOptString(stuff)
      && Index(data, "producer_character_id") == SerOptString(producer)
  {
    var fields := map["build" := SerBuild(b), "produced_resource_id" := SerOptString(res),
                      "produced_stuff_id" := SerOptString(stuff), "producer_character_id" := SerOptString(producer)];
    assert SerializeType(NewBuild(b, res, stuff, producer)) == JObject(fields);
  }

  lemma ThereIsAroundRoundTrip(s: int, r: int, b: int, c: int, qas: seq<Actions.QuickAction>)
    requires IsI32(s) && IsI32(r) && IsI32(b) && IsI32(c)
    requires forall i | 0 <= i < |qas| :: QuickActionInRange(qas[i])
    ensures DecodeThereIsAround(SerializeType(ThereIsAround(s, r, b, c, qas))) == Some(ThereIsAround(s, r, b, c, qas))
  {
    var data := SerializeType(ThereIsAround(s, r, b, c, qas));
    assert I64AsI32(Index(data, "stuff_count")) == Some(s);
    assert I64AsI32(Index(data, "resource_count")) == Some(r);
    assert I64AsI32(Index(data, "build_count")) == Some(b);
    assert I64AsI32(Index(data, "character_count")) == Some(c);
    assert Index(data, "quick_actions") == SerSeq(qas, SerQuickAction);
    QuickActionsRoundTrip(qas);
  }

  lemma QuickActionsRoundTrip(qas: seq<Actions.QuickAction>)
    requires forall i | 0 <= i < |qas| :: QuickActionInRange(qas[i])
    ensures DeVec(SerSeq(qas, SerQuickAction), DeQuickAction) == Some(qas)
  {
    forall i | 0 <= i < |qas|
      ensures DeQuickAction(SerQuickAction(qas[i])) == Some(qas[i])
    {
      QuickActionRoundTrip(qas[i]);
    }
    SeqRoundTrip(qas, SerQuickAction, DeQuickAction);
  }

  lemma CharacterEnterRoundTrip(r: int, c: int, id: string, spritesheet: Option<string>)
    requires IsI32(r) && IsI32(c)
    ensures DecodeCharacterEnter(SerializeType(CharacterEnter(r, c, id, spritesheet))) ==
      Some(CharacterEnter(r, c, id, spritesheet))
  {
    AsStrOfOptional(spritesheet);
  }

  lemma NewChatMessageRoundTrip(author: Option<string>, message: string, system: bool, silent: bool)
    ensures DeNewChatMessage(SerializeType(NewChatMessage(author, message, system, silent))) ==
      Some(NewChatMessage(author, message, system, silent))
  {
    var f := SerializeType(NewChatMessage(author, message, system, silent)).fields;
    assert Member(f, "character_id") == SerOptString(author);
    assert DeOptString(SerOptString(author)) == Some(author);
  }

  /** The decoder's view of a serialised event: its name picks the arm, which reads the serialised fields. */
  lemma FromValueOfSerialized(e: ZoneEvent)
    ensures FromValue(Serialize(e)) ==
      if e.eventTypeName !in DECODED_NAMES then Rejected("Unknown event " + e.eventTypeName)
      else match DecodeType(e.eventTypeName, SerializeType(e.eventType))
        case Some(et) => Decoded(ZoneEvent(et, e.eventTypeName))
        case None => Panic
  {
  }

  /** Serialising an event the decoder reads back and decoding the result gives the event again. */
  lemma RoundTrip(e: ZoneEvent)
    requires RoundTrips(e)
    ensures FromValue(Serialize(e)) == Decoded(e)
  {
    FromValueOfSerialized(e);
    if e.eventType.ThereIsAround? || e.eventType.NewBuild? || e.eventType.NewChatMessage? || e.eventType.CharacterEnter? {
      NestedTypeRoundTrip(e);
    } else {
      FlatTypeRoundTrip(e);
    }
  }

  /** The events with nested or optional data: their data decodes back to themselves. */
  lemma NestedTypeRoundTrip(e: ZoneEvent)
    requires RoundTrips(e)
    requires e.eventType.ThereIsAround? || e.eventType.NewBuild? || e.eventType.NewChatMessage? || e.eventType.CharacterEnter?
    ensures DecodeType(e.eventTypeName, SerializeType(e.eventType)) == Some(e.eventType)
  {
    var data := SerializeType(e.eventType);
    match e.eventType
    case ThereIsAround(s, r, b, c, qas) =>
      assert DecodeType(THERE_IS_AROUND, data) == DecodeThereIsAround(data);
      ThereIsAroundRoundTrip(s, r, b, c, qas);
    case NewBuild(b, res, stuff, producer) =>
      assert DecodeType(NEW_BUILD, data) == DecodeBuild(data);
      NewBuildRoundTrip(b, res, stuff, producer);
    case NewChatMessage(author, message, system, silent) =>
      assert DecodeType(NEW_CHAT_MESSAGE, data) == DeNewChatMessage(data);
      NewChatMessageRoundTrip(author, message, system, silent);
    case CharacterEnter(r, c, id, s) =>
      assert DecodeType(CHARACTER_ENTER_ZONE, data) == DecodeCharacterEnter(data);
      CharacterEnterRoundTrip(r, c, id, s);
  }

  /** The events whose data is a few integers or strings: their data decodes back to themselves. */
  lemma FlatTypeRoundTrip(e: ZoneEvent)
    requires RoundTrips(e)
    requires !(e.eventType.ThereIsAround? || e.eventType.NewBuild? || e.eventType.NewChatMessage? || e.eventType.CharacterEnter?)
    ensures DecodeType(e.eventTypeName, SerializeType(e.eventType)) == Some(e.eventType)
  {
    var data := SerializeType(e.eventType);
    match e.eventType
    case PlayerMove(_, _, _) =>
      assert DecodeType(PLAYER_MOVE, data) == DecodePlayerMove(data);
    case CharacterSpritesheetChange(_, _) =>
      assert DecodeType(CHARACTER_SPRITESHEET_CHANGE, data) == DecodeSpritesheetChange(data);
    case CharacterExit(_) =>
      assert DecodeType(CHARACTER_EXIT_ZONE, data) == DecodeCharacterExit(data);
    case RemoveBuild(_, _) =>
      assert DecodeType(REMOVE_BUILD, data) == DecodeRemoveBuild(data);
    case AnimatedCorpseMove(_, _, _) =>
      assert DecodeType(ANIMATED_CORPSE_MOVE, data) == DecodeCorpseMove(data);
    case ZoneGroundStuffRemoved(_) =>
      assert DecodeType(ZONE_GROUND_STUFF_REMOVE, data) == DecodeStuffRemove(data);
    case ClientWantClose =>
    case ServerPermitClose =>
  }

  /**
   * The serialisation of the other server events is not what the decoder
   * reads, and decoding it panics: a top bar message's kind is written as
   * `null` where a string is read; a replaced tile and a ground resource
   * are written with "row_i" where "zone_row_i" is read; a ground stuff
   * with "id_" where "id" is read; a resume as a list where an object with
   * "items" is read.
   */
  lemma TopBarMessageDoesNotRoundTrip(m: string, kind: TopBarMessageType)
    ensures FromValue(Serialize(ZoneEvent(TopBarMessage(m, kind), TOP_BAR_MESSAGE))) == Panic
  {
    var e := ZoneEvent(TopBarMessage(m, kind), TOP_BAR_MESSAGE);
    FromValueOfSerialized(e);
    assert DecodeType(TOP_BAR_MESSAGE, SerializeType(e.eventType)) == DecodeTopBarMessage(SerializeType(e.eventType));
  }

  lemma TileReplaceDoesNotRoundTrip(r: int, c: int, id: string)
    ensures FromValue(Serialize(ZoneEvent(ZoneTileReplace(r, c, id), ZONE_TILE_REPLACE))) == Panic
  {
    var e := ZoneEvent(ZoneTileReplace(r, c, id), ZONE_TILE_REPLACE);
    FromValueOfSerialized(e);
    assert DecodeType(ZONE_TILE_REPLACE, SerializeType(e.eventType)) == DecodeTileReplace(SerializeType(e.eventType));
  }

  lemma GroundResourceRemovedDoesNotRoundTrip(r: int, c: int, id: string)
    ensures FromValue(Serialize(ZoneEvent(ZoneGroundResourceRemoved(r, c, id), ZONE_GROUND_RESOURCE_REMOVE))) == Panic
  {
    var e := ZoneEvent(ZoneGroundResourceRemoved(r, c, id), ZONE_GROUND_RESOURCE_REMOVE);
    FromValueOfSerialized(e);
    assert DecodeType(ZONE_GROUND_RESOURCE_REMOVE, SerializeType(e.eventType)) ==
      DecodeGroundResource(SerializeType(e.eventType), false);
  }

  lemma GroundResourceAddedDoesNotRoundTrip(r: int, c: int, id: string)
    ensures FromValue(Serialize(ZoneEvent(ZoneGroundResourceAdded(r, c, id), ZONE_GROUND_RESOURCE_APPEAR))) == Panic
  {
    var e := ZoneEvent(ZoneGroundResourceAdded(r, c, id), ZONE_GROUND_RESOURCE_APPEAR);
    FromValueOfSerialized(e);
    assert DecodeType(ZONE_GROUND_RESOURCE_APPEAR, SerializeType(e.eventType)) ==
      DecodeGroundResource(SerializeType(e.eventType), true);
  }

  lemma StuffAppearDoesNotRoundTrip(n: int, id: string, r: int, c: int, classes: seq<string>)
    ensures FromValue(Serialize(ZoneEvent(ZoneGroundStuffAdded(n, id, r, c, classes), ZONE_GROUND_STUFF_APPEAR))) == Panic
  {
    var e := ZoneEvent(ZoneGroundStuffAdded(n, id, r, c, classes), ZONE_GROUND_STUFF_APPEAR);
    FromValueOfSerialized(e);
    assert DecodeType(ZONE_GROUND_STUFF_APPEAR, SerializeType(e.eventType)) == DecodeStuffAppear(SerializeType(e.eventType));
  }

  lemma ResumeTextDoesNotRoundTrip(items: seq<ItemModel>)
    ensures FromValue(Serialize(ZoneEvent(NewResumeText(items), NEW_RESUME_TEXT))) == Panic
  {
    var e := ZoneEvent(NewResumeText(items), NEW_RESUME_TEXT);
    FromValueOfSerialized(e);
    assert DecodeType(NEW_RESUME_TEXT, SerializeType(e.eventType)) == DecodeResumeText(SerializeType(e.eventType));
  }
}
