# rollgui2 client core, modelled in Dafny

This project models the core of the rollgui2 game client: the browser
text-input bridge and the Rust code that talks to it, and the zone engine's
non-drawing logic. The zone engine logic covers the following:

- decoding and encoding the websocket events;
- the zone state and its map;
- the built-in tile tables;
- reading and comparing the character resume;
- blinking icons and animations;
- the chat, the log, the debug counters and the side panel;
- the web-socket URL and the authentication check.

Each source file has one module:

| module | file | form |
|---|---|---|
| `TextInputBridge` | js/text_input.js | a class holding the one-value slot, and functions over call sequences |
| `TextInputRequest` | src/ui/text_input.rs | a class with the wasm and native builds side by side |
| `Hardcoded` | src/hardcoded.rs | constants and lemmas about them |
| `ZoneLoad` | src/zone/load.rs | the "::GEO" section and line splitting as functions; the parsing loop as a method |
| `ZoneMapGrid` | src/zone/map.rs | a class whose `ReplaceTile` updates the grid in place |
| `ZoneState`, `Keyed` | src/engine/zone/state.rs | the three indexing loops as methods, proved against `Keyed.IndexBy` and `Keyed.GroupBy` |
| `Graphics` | src/graphics/mod.rs | a class; the tile lookup is a backward loop proved against a function |
| `Stuff`, `Entities`, `Actions`, `Description` | src/entity/*.rs, src/action/*.rs | the records and their pure members |
| `Json`, `Event` | src/event/mod.rs | the decoder `from_value` and the encoder, with round-trip lemmas |
| `Component`, `Resume` | src/engine/zone/gui/component.rs, src/engine/zone/resume.rs | progress bars, reading the resume (a loop proved against a function), and the icons to blink |
| `BlinkIcon`, `Blinking`, `VisibleAnimation`, `Animations`, `Removal` | src/engine/zone/gui/blink.rs, src/engine/zone/blink.rs, src/animation/visible.rs, src/engine/zone/animations.rs | icons and animations as classes; the update-then-remove passes as loops proved against `Removal.Keep` |
| `ZoneEngine` | src/engine/zone/event.rs | a class holding the quick actions and the armed action |
| `ChatModel`, `ChatState` | src/engine/zone/gui/chat/*.rs | the chat message, and the chat window as a class |
| `Debug`, `Log`, `Panel` | src/engine/zone/debug.rs, log.rs, gui/panel.rs | the counters as a class; the log lines and the panel as functions |
| `Socket`, `Auth` | src/engine/zone/socket.rs, src/engine/root/util.rs | the URL, the connection result, and the authentication check |

`Wrappers` (Option and Result), `Ints` (fixed-width casts) and `Strings`
(integer formatting, search, `replace`) are shared helpers.

The text-input bridge is modelled as its code behaves, which differs from
its prose description in one place. A cancelled `prompt()` stores `null`,
and `try_recv_text_input` treats `null` as "no value". So a cancellation
cannot be told apart from "not answered yet", both giving the sentinel -1.
It *can* be told apart from an empty answer, which is a real value.
`CancelLooksLikeNoAnswer` and `PollSeesOnlyImmediateAnswer` state this.

The source also has some quirks that the model keeps as written:

- The resume's "Suiveurs" error names "Suivis".
- A missing "Combattants" falls through to the last message, "No PV resume found".
- Several serialised server events cannot be decoded by the client's own decoder.

The lemmas named `...DoesNotRoundTrip` exhibit these decoder cases.

## Model

| member | source | states |
|---|---|---|
| TextInputBridge.RegisterPluginBindsBoth | js/text_input.js:4-9 | registering the plugin binds exactly the two entry points under their own names, keeps every other import, and announces the plugin as "rollgui2" version "0.1.0" |
| TextInputBridge.FinalSlotIsLastAnswer | js/text_input.js:11-34 | after any non-empty sequence of calls, the slot holds the last call's prompt answer when that call was a present, and null after a poll |
| TextInputBridge.PollDrains | js/text_input.js:13-24 | a poll always leaves the slot null; it returns -1 exactly when the slot was null, and otherwise the stored string |
| TextInputBridge.PollSeesOnlyImmediateAnswer | js/text_input.js:11-34 | from any slot, the k-th poll returns a value exactly when the call just before it was an answered present, and then returns that answer; only the last of several presents is seen, and each value is seen once |
| TextInputBridge.PollResultsLength | js/text_input.js:13-24 | every poll produces one result, and nothing else does |
| TextInputBridge.CancelLooksLikeNoAnswer | js/text_input.js:26-34 | after a cancelled prompt (null answer), every later call behaves as it would on a fresh bridge |
| TextInputBridge.Bridge.constructor | js/text_input.js:11 | the slot starts as null and no prompt has been shown |
| TextInputBridge.Bridge.Present | js/text_input.js:26-34 | the slot becomes the prompt's answer, overwriting what was there, and the (title, value) pair is shown once |
| TextInputBridge.Bridge.TryRecv | js/text_input.js:13-24 | the result and the new slot are those of draining the old slot; no prompt is shown |
| TextInputRequest.FromHandleIsNilCheck | src/ui/text_input.rs:32-42 | the wasm poll yields None exactly on the -1 sentinel, and otherwise the string it carries |
| TextInputRequest.WasmRoundTrip | src/ui/text_input.rs:19-24 | a request polled right after it was created gets back exactly the prompt's answer, with None for a cancelled prompt |
| TextInputRequest.Request.NewWasm | src/ui/text_input.rs:19-24 | the request keeps the name and the value, and the bridge shows one prompt with the title and the value |
| TextInputRequest.Request.NewNative | src/ui/text_input.rs:27-29 | the request keeps the name and the value; the title is dropped and nothing is shown |
| TextInputRequest.Request.TryRecvWasm | src/ui/text_input.rs:32-42 | the result is the bridge's poll result read through the nil check, and the bridge's slot is drained |
| TextInputRequest.Request.TryRecvNative | src/ui/text_input.rs:44-47 | the answer is always Some of the initial value, and it never drains |
| TextInputRequest.Request.Name | src/ui/text_input.rs:49-51 | the name the request was created with |
| Hardcoded.TilesList | src/hardcoded.rs:1-173 | the list has TILES_COUNT entries, in the source's order |
| Hardcoded.TilesListNamesUnknown | src/hardcoded.rs:1-173 | the list has 168 entries, and the fallback id "UNKNOWN" is the first of them |
| Hardcoded.TilesListRepeatsBread | src/hardcoded.rs:1-173 | "BREAD" is listed twice, at two different places in the tileset |
| Hardcoded.BreadNotAfterSecond | src/hardcoded.rs:1-173 | no entry after the second "BREAD" is named "BREAD", so indexing the list keeps the second |
| Hardcoded.SpritesCountsPositive | src/hardcoded.rs:1-173 | every tile has at least one animation sprite |
| Hardcoded.MapSourceHasGeoHeader | src/hardcoded.rs:175-209 | the built-in zone source starts with the "::GEO" tag the zone loader looks for |
| Hardcoded.DefaultTileIds | src/hardcoded.rs:211-221 | each of the six zone types gets its background tile, every other zone type gets none, and every background tile is a listed tile |
| ZoneLoad.TableTileIdsAreListed | src/zone/load.rs:7-24 | every tile id of the character table except "NOTHING", and "UNKNOWN", is an id of the built-in tile list |
| ZoneLoad.TileIdForCharIsKnown | src/zone/load.rs:7-27 | a space maps to "NOTHING"; a tabled character maps to its entry and any other character to "UNKNOWN"; apart from "NOTHING", every id produced is in the built-in tile list |
| ZoneLoad.GeoSection | src/zone/load.rs:28-35 | None exactly when the source has no "::GEO" tag; otherwise the second piece of the split: it starts right after the first tag, holds no tag, and ends where the next tag starts or at the end of the source |
| ZoneLoad.SecondPiece | src/zone/load.rs:28 | the text after the first tag, cut at the next tag in what follows, starts after the first tag, holds no tag, and ends at the next tag or the end of the source |
| ZoneLoad.Lines | src/zone/load.rs:37 | no line holds a newline |
| ZoneLoad.LinesUnlines | src/zone/load.rs:37 | splitting into lines undoes joining them with newlines, for lines that have no newline and do not end with a carriage return |
| ZoneLoad.LinesAfterUnlines | src/zone/load.rs:37 | text after such complete lines is split on its own, after those lines |
| ZoneLoad.LinesUnlinesLast | src/zone/load.rs:37 | a non-empty last line with no newline after it is read back as one more line, kept as it is |
| ZoneLoad.LinesOfOneLine | src/zone/load.rs:37 | a non-empty text without a newline is one line, kept as it is, a trailing carriage return included |
| ZoneLoad.LinesOfFirstLine | src/zone/load.rs:37 | the text up to the first newline is the first line, without its trailing carriage return, and the lines after it are those of the rest |
| ZoneLoad.ParseTilesShape | src/zone/load.rs:36-44 | the grid has one row per line and one tile id per character, in order, and every id comes from the character table or is "UNKNOWN" |
| ZoneLoad.ParseRows | src/zone/load.rs:36-44 | the loop builds one row of tile ids per line, each the table's id for the character at that place |
| ZoneLoad.FromTxtMap | src/zone/load.rs:6-46 | with no "::GEO" tag, the error "Error when extracting zone source, ::GEO tag not found"; otherwise the tile grid of the section after the tag |
| ZoneMapGrid.MaxRowLength | src/zone/map.rs:26-30 | the width bounds every row length and is the length of some row |
| ZoneMapGrid.MaxRowLengthOnlyLengths | src/zone/map.rs:26-30 | two grids with the same row lengths have the same width |
| ZoneMapGrid.ReplaceThenRead | src/zone/map.rs:46-68 | after a replacement, the replaced cell reads the new id, every other cell reads as before, and no row changes length |
| ZoneMapGrid.WidthCount | src/zone/map.rs:26-29 | nothing exactly when the grid has no row; otherwise a length every row is within and some row has |
| ZoneMapGrid.ZoneMap.New | src/zone/map.rs:19-44 | the error "Unable to determine zone width count" exactly when the grid has no row; otherwise a fresh, valid map built as the constructor builds it |
| ZoneMapGrid.ZoneMap.constructor | src/zone/map.rs:19-44 | for a grid with a row, the map keeps the definitions, the grid and the background id; width is the longest row, height the number of rows, and the concrete sizes are those counts times the tile sizes |
| ZoneMapGrid.ZoneMap.ReplaceTile | src/zone/map.rs:46-52 | only the addressed cell changes, and only if it exists; a negative i16 index is out of range, so nothing changes; width, height and the other fields are kept |
| ZoneMapGrid.ZoneMap.TileId | src/zone/map.rs:54-68 | Some exactly when the row exists and the column is inside that row, and then the cell's id |
| Keyed.KeysOfSnoc | src/engine/zone/state.rs:26-34 | the keys of a list with one more element are the old keys plus that element's key |
| Keyed.InsertAllKeys | src/engine/zone/state.rs:26-34 | after the insert loop the map holds the old keys and the key of every element |
| Keyed.InsertAllLastWins | src/engine/zone/state.rs:26-34 | the value under a key is that of the last element with that key |
| Keyed.InsertAllKeepsOthers | src/engine/zone/state.rs:26-34 | a key that no element has keeps its old value |
| Keyed.IndexByLastWins | src/engine/zone/state.rs:26-34 | indexing into a fresh map: the keys are exactly the elements' keys, and the last element with each key wins |
| Keyed.WithKey | src/engine/zone/state.rs:44-50 | the filtered list is no longer than the input, all its elements have the key, and it is non-empty exactly when some element has the key |
| Keyed.GroupByIsFilter | src/engine/zone/state.rs:44-50 | grouping gives one group per key that occurs; each group is the sub-list of the elements with that key, in input order, and is never empty |
| Keyed.SizeOfGroupsStep | src/engine/zone/state.rs:44-50 | one more element adds one to the total size of the groups exactly when its key is among the counted keys |
| Keyed.GroupSizesSum | src/engine/zone/state.rs:44-50 | over a duplicate-free list of all the keys, the group sizes add up to the input length, so every element lands in exactly one group |
| Keyed.SizeOfNoElements | src/engine/zone/state.rs:44-50 | with no elements, every group is empty |
| ZoneState.DefaultDisplay | src/engine/zone/state.rs:74-81 | the default display is at the origin, not moving and not running |
| ZoneState.IndexBuilds | src/engine/zone/state.rs:26-29 | the loop leaves the builds indexed by position, the last build at a position winning |
| ZoneState.IndexStuffs | src/engine/zone/state.rs:31-34 | the loop leaves the stuffs indexed by id, the last stuff with an id winning |
| ZoneState.GroupResources | src/engine/zone/state.rs:44-50 | the loop leaves the resources grouped by position, each group in input order |
| ZoneState.BuildsIndex | src/engine/zone/state.rs:26-29 | every build position is a key, and a build is found under its position unless a later build has the same position |
| ZoneState.StuffsIndex | src/engine/zone/state.rs:31-34 | every stuff id is a key, and a stuff is found under its id unless a later stuff has the same id |
| ZoneState.ResourcesGrouped | src/engine/zone/state.rs:44-50 | the keys are the resource positions, and the group of a position is exactly the resources at that position, in input order, never empty |
| ZoneState.CharactersIndex | src/engine/zone/state.rs:51-54 | every character id is a key, and a character is found under its id unless a later character has the same id |
| ZoneState.ResourceGroupsAddUp | src/engine/zone/state.rs:44-50 | listing the positions once each, the resource groups hold every resource exactly once |
| ZoneState.ZoneState.constructor | src/engine/zone/state.rs:17-65 | the state keeps the map and the player, indexes builds, stuffs and characters and groups resources as above, and displays the player at (column × tile width, row × tile height) |
| Graphics.TileIdFromClassesIsLastKnown | src/graphics/mod.rs:61-68 | the answer is a mapped class with no mapped class after it, or "UNKNOWN" when no class is mapped (including when there are no classes) |
| Graphics.TileIdsAreIndexKeys | src/graphics/mod.rs:37-49 | the ids of the tiles list are exactly the keys the image loop inserts |
| Graphics.TilesData | src/graphics/mod.rs:37-49 | the loop inserts each entry's image under its id, in list order, so the last entry with an id wins |
| Graphics.Graphics.constructor | src/graphics/mod.rs:22-59 | the registry keeps the tileset texture, the mapping and the tile sizes, holds the images indexed by tile id, and has no avatars yet |
| Graphics.Graphics.FindTileIdFromClasses | src/graphics/mod.rs:61-68 | the backward loop answers the last class the mapping knows, or "UNKNOWN" |
| Graphics.Graphics.AddAvatarTexture | src/graphics/mod.rs:158-160 | the uuid now maps to the texture, replacing any earlier one; nothing else changes |
| Graphics.TilesDataCoversTilesList | src/graphics/mod.rs:37-49 | there is an image for every tile id of the tiles list and for nothing else |
| Graphics.TilesDataKeepsLastBread | src/graphics/mod.rs:37-49 | "BREAD", listed twice, keeps the image of its second entry |
| Graphics.UnknownHasImage | src/graphics/mod.rs:37-67 | the lookup's fallback "UNKNOWN" names a tile that has an image |
| Stuff.Stuff.Position | src/entity/stuff.rs:13-15 | the stuff's row and column |
| Stuff.Stuff.GetClasses | src/entity/stuff.rs:16-22 | "STUFF_GENERIC" first, then the stuff's own classes in order, then its stuff id, and nothing else |
| Stuff.StuffTileId | src/entity/stuff.rs:16-22 | the tile drawn for a stuff is its stuff id when that is mapped; otherwise its last mapped own class; otherwise the generic tile when that is mapped; otherwise "UNKNOWN" |
| Stuff.GenericThenOwn | src/entity/stuff.rs:16-22 | the lookup over the generic class followed by the own classes answers the last mapped own class, or falls back to the generic class |
| Description.Part.Label | src/entity/description.rs:96-101 | the label when there is one, otherwise the empty string |
| Description.Part.AnalyzeDefaultValue | src/entity/description.rs:140-160 | None exactly when there is no default value; otherwise the value unchanged, paired with the first unit suffix it ends with, if any |
| Description.FirstSuffix | src/entity/description.rs:143-155 | the answer is one of the suffixes the value ends with, and none is found only when the value ends with none of them |
| Description.UnitSuffixIsFirstMatch | src/entity/description.rs:143-155 | the if/else-if chain is the first-match search over "l", "kg", "g", "m³", "u" in that order |
| Description.KilogramsBeforeGrams | src/entity/description.rs:143-155 | a value ending in "kg" gets "kg", never "g"; a value ending in no unit gets no suffix |
| Description.PartPredicates | src/entity/description.rs:103-138 | choices and search-by-text exclude each other and both need a choice list; an input is exactly a part with a name and a type; a link has a form action; a part is text exactly when it has a text or a label and is no link, has no type, is no checkbox and has no non-empty choice list |
| Description.Description.Title | src/entity/description.rs:90-92 | the title when there is one, otherwise the empty string |
| Event.CollectClasses | src/event/mod.rs:259-263 | the loop pushes the build's classes in order, and panics (None) exactly when the list deserialiser would refuse an item that is not a string |
| Event.FromValue | src/event/mod.rs:174-399 | a decoded event carries the message's "type" as its name, and that name is one with an arm; the message is refused exactly when "type" is a string without an arm and "data" is present, with "Unknown event " followed by the name; a missing or non-string "type", or a missing "data", panics |
| Event.Serialize | src/event/mod.rs:402-412 | an object with exactly the members "type" (the event's name) and "data" (the event's fields, written untagged) |
| Event.ClientEventsRejected | src/event/mod.rs:174-399 | the four names only the client sends are refused as unknown events |
| Event.TopBarMessageKind | src/event/mod.rs:350-359 | a top bar message is an error exactly when its "type_" is the string "ERROR"; any other string makes it normal |
| Event.PlayerMoveWraps | src/event/mod.rs:179-186 | a move's coordinates are cast to i32 with wrap-around, not checked: 2^32 + 5 reads as 5 and 2^31 as -2^31 |
| Event.ZoneTileReplaceWraps | src/event/mod.rs:315-328 | a replaced tile's row is cast to i16 with wrap-around: 65537 reads as 1 |
| Event.CharacterEnterSpritesheet | src/event/mod.rs:195-211 | an entering character has a spritesheet exactly when "spritesheet_filename" is a string; if it is absent, null or a number, the character has none and the message is not an error |
| Event.NewBuildShape | src/event/mod.rs:257-307 | a decoded build's classes are the strings of its "classes" array in order; it is traversable by walking only, as the message says; each produced id is present exactly when the message holds a string for it |
| Event.ExploitableTileRoundTrip | src/action/mod.rs:5-10 | an exploitable tile whose coordinates fit in i32 survives serialisation and deserialisation |
| Event.QuickActionTilesRoundTrip | src/action/quick.rs:6-19 | the tile list of a quick action survives serialisation and deserialisation |
| Event.QuickActionFieldsRoundTrip | src/action/quick.rs:6-19 | each scalar field of a quick action survives serialisation and deserialisation |
| Event.QuickActionRoundTrip | src/action/quick.rs:6-19 | a quick action whose tile coordinates fit in i32 comes back as written |
| Event.BuildFieldsRoundTrip | src/event/mod.rs:257-307 | each field of a build that NEW_BUILD reads survives serialisation, given in-range integers and a walking-only traversable map |
| Event.AsStrOfOptional | src/event/mod.rs:276-287 | as_str of a serialised optional string gives back the option |
| Event.NewBuildRoundTrip | src/event/mod.rs:257-307 | a serialised NEW_BUILD event decodes back to itself |
| Event.ThereIsAroundRoundTrip | src/event/mod.rs:227-245 | a serialised THERE_IS_AROUND event, with i32 counts and in-range quick actions, decodes back to itself |
| Event.QuickActionsRoundTrip | src/event/mod.rs:232-233 | a list of in-range quick actions comes back as written |
| Event.CharacterEnterRoundTrip | src/event/mod.rs:195-211 | a serialised CHARACTER_ENTER_ZONE event with i32 coordinates decodes back to itself |
| Event.NewChatMessageRoundTrip | src/event/mod.rs:329-341 | a serialised NEW_CHAT_MESSAGE event decodes back to itself |
| Event.FromValueOfSerialized | src/event/mod.rs:174-412 | decoding a serialised event runs the arm its name picks on the serialised fields |
| Event.RoundTrip | src/event/mod.rs:174-412 | every event the decoder can read back (a name with an arm, i32-range integers, a walking-only build) is decoded to itself after serialisation |
| Event.NestedTypeRoundTrip | src/event/mod.rs:195-341 | the data of a THERE_IS_AROUND, NEW_BUILD, NEW_CHAT_MESSAGE or CHARACTER_ENTER_ZONE event decodes back to itself |
| Event.FlatTypeRoundTrip | src/event/mod.rs:179-396 | the data of every other event the decoder can read back decodes back to itself |
| Event.TopBarMessageDoesNotRoundTrip | src/event/mod.rs:350-359 | a serialised top bar message panics the decoder: its kind is written as null where a string is read |
| Event.TileReplaceDoesNotRoundTrip | src/event/mod.rs:315-328 | a serialised tile replacement panics the decoder: it is written with "row_i" where "zone_row_i" is read |
| Event.GroundResourceRemovedDoesNotRoundTrip | src/event/mod.rs:360-367 | a serialised ZONE_GROUND_RESOURCE_REMOVE event panics the decoder for the same reason |
| Event.GroundResourceAddedDoesNotRoundTrip | src/event/mod.rs:374-381 | a serialised ZONE_GROUND_RESOURCE_APPEAR event panics the decoder for the same reason |
| Event.StuffAppearDoesNotRoundTrip | src/event/mod.rs:382-396 | a serialised ground stuff panics the decoder: it is written with "id_" where "id" is read |
| Event.ResumeTextDoesNotRoundTrip | src/event/mod.rs:246-256 | a serialised resume panics the decoder: it is written as a list where an object with "items" is read |
| Removal.KeepFrom | src/engine/zone/blink.rs:38-43 | what is left from position k on is no longer than the list from k on |
| Removal.RemoveAt | src/engine/zone/blink.rs:42 | `Vec::remove` takes out the element at the position, keeps those before it and moves those after it down by one |
| Removal.KeepFromIgnoresEarlierMarks | src/engine/zone/blink.rs:38-43 | only the marks at or after k matter from k on |
| Removal.KeepFromUnmarkedPrefix | src/engine/zone/blink.rs:38-43 | with no mark in [k, p), what is left from k on starts with the elements from k to p unchanged |
| Removal.RemoveBelowMarks | src/engine/zone/blink.rs:38-43 | removing a position below every already-removed position removes the element that was there, because elements below the removed ones have not moved |
| Removal.Positions | src/engine/zone/blink.rs:9-15 | the set holds exactly the listed positions |
| Removal.RemoveNextLower | src/engine/zone/blink.rs:38-43 | one step of removing from the largest position down keeps the list equal to the original without the positions removed so far |
| Removal.KeepNothing | src/engine/zone/blink.rs:38-43 | removing no position leaves the list as it is |
| Removal.KeepFromLength | src/engine/zone/blink.rs:38-43 | what is left has one element less per marked position |
| Removal.KeepFromMembers | src/engine/zone/blink.rs:38-43 | every element left was at an unmarked position of the list |
| Animations.Stepped | src/engine/zone/animations.rs:5-10 | each animation as its update leaves it, in the same order |
| Animations.Finished | src/engine/zone/animations.rs:5-8 | exactly the positions whose update answered finished |
| Animations.Animations.Animations | src/engine/zone/animations.rs:2-18 | every animation is updated exactly once, and exactly the finished ones are removed; the others stay, updated and in order |
| Animations.Animations.UpdateAll | src/engine/zone/animations.rs:3-10 | every animation is updated in order, and the positions collected are ascending and exactly those of the finished animations |
| Animations.Animations.RemoveDescending | src/engine/zone/animations.rs:13-17 | removing ascending positions from the largest down removes exactly those positions and keeps the order of the rest |
| Animations.ShrinksByFinished | src/engine/zone/animations.rs:2-18 | the list shrinks by exactly the number of finished animations |
| Animations.VisibleSurvivors | src/engine/zone/animations.rs:2-18 | with visible animations, every animation left is one still displayed at this frame, and one is left for each that is not finished; their order is the one Keep gives, which RemoveDescending's contract carries |
| VisibleAnimation.VisibleAnimation.Update | src/animation/visible.rs:12-14 | finished exactly when the frame is past the last displayed frame |
| VisibleAnimation.Step | src/animation/visible.rs:12-14 | the zone engine's step leaves the animation unchanged and answers its update |
| VisibleAnimation.FinishedIsMonotone | src/animation/visible.rs:12-14 | once finished, an animation stays finished at every later frame |
| BlinkIcon.VisibleAfterStep | src/engine/zone/gui/blink.rs:22-29 | one more update flips the visibility exactly when the new count is a multiple of 15 |
| BlinkIcon.VisibilityWindows | src/engine/zone/gui/blink.rs:12-29 | the icon is visible for its first 15 updates, hidden for the next 15, and visible when it finishes |
| BlinkIcon.BlinkingIcon.constructor | src/engine/zone/gui/blink.rs:12-20 | no update yet, visible, finishing after 120 updates and flipping every 15 |
| BlinkIcon.BlinkingIcon.Update | src/engine/zone/gui/blink.rs:22-29 | the count grows by one, the visibility flips exactly at a multiple of 15, and the answer is true exactly on the 120th update |
| BlinkIcon.BlinkingIcon.Visible | src/engine/zone/gui/blink.rs:35-37 | on a valid icon, whether an icon updated that many times is shown |
| Blinking.Counters | src/engine/zone/blink.rs:12-15 | how many times each icon has been updated, position by position |
| Blinking.FinishingAt | src/engine/zone/blink.rs:12-15 | exactly the positions of the icons that one more update brings to 120 |
| Blinking.KeepDistinct | src/engine/zone/blink.rs:38-43 | what is left of distinct icons is distinct and made of icons of the list |
| Blinking.BlinkingIcons.DrawBlinkingIcons | src/engine/zone/blink.rs:8-44 | each icon is updated exactly once, and exactly the icons that this update finished are removed; the others stay in order |
| Blinking.BlinkingIcons.UpdateAt | src/engine/zone/blink.rs:12-13 | one update of the icon at a position: it counts one more frame, reports whether it reached 120, and no other icon changes |
| Blinking.BlinkingIcons.UpdateAll | src/engine/zone/blink.rs:9-36 | each icon is updated once, and the positions collected are ascending and exactly those of the icons that finished |
| Blinking.BlinkingIcons.RemoveDescending | src/engine/zone/blink.rs:38-43 | removing ascending positions from the largest down removes exactly those positions |
| Component.ColorOf | src/engine/zone/gui/component.rs:36-46 | red when "red" is among the classes; else yellow when "yellow" is; else green when "green" is; else no colour |
| Component.FromItem | src/engine/zone/gui/component.rs:18-57 | "no value" without a value; "value not between 0 and 100 : 'v'" for a value outside [0, 100]; "no color" without a colour class; otherwise a bar with the truncated value and the colour, inverted exactly when the classes hold "inverted_percent" |
| Resume.HealthFromItem | src/engine/zone/resume.rs:15-27 | without a text, "Unable to understand Health : no value"; success exactly for the words "Ok", "Moyen", "Mauvais", "Critique", and the health read is the one with that word; any other word is the error naming it |
| Resume.CanEatFromItem | src/engine/zone/resume.rs:47-62 | without a text, "Unable to understand A manger : no value"; success exactly for "Oui", "Non", "Faible", and the answer read is the one with that word; any other word is an error naming it |
| Resume.CanDrinkFromItem | src/engine/zone/resume.rs:82-97 | without a text, "Unable to understand A boire : no value"; success exactly for "Oui", "Non", "Faible", and the answer read is the one with that word; any other word is an error naming it |
| Resume.WordsRoundTrip | src/engine/zone/resume.rs:15-97 | each health and each eating or drinking answer is read back from its own word |
| Resume.IconMapping | src/engine/zone/resume.rs:29-36 | each health has its own smiley; eating and drinking show the same icon for the same answer and a different icon for each answer |
| Resume.ReadItem | src/engine/zone/resume.rs:139-197 | for "PV" the item reads as the health it names; for "Faim", "Soif" and "Fatigue" it reads as the bar, or fails with "Unable to understand <name> : '<error>'"; "PA" reads as its number, "A boire" and "A manger" as the word they name, each failing with the message of the source; a counter reads exactly when the item has a number, as that number truncated and saturated to i32 (`as i32`), and otherwise fails with its "no value" message, which is the "Suivis" one for "Suiveurs" too |
| Resume.Finish | src/engine/zone/resume.rs:202-282 | the resume exactly when all eleven names were read; a missing "PV" gives "No PV resume found", and so does a missing "Combattants" alone, because it has no check of its own; on success each field holds its name's reading, `follower` from "Suiveurs" and `follow` from "Suivis" |
| Resume.FinishFirstMissing | src/engine/zone/resume.rs:242-282 | when a checked name is missing and every earlier checked name was read, the read fails with that check's own message, in the order PV, PA, Faim, Soif, Fatigue, A boire, A manger, Suivis, Suiveurs, Messages |
| Resume.ReadAllWellRead | src/engine/zone/resume.rs:138-199 | every name the loop has read holds the kind of value its arm produces |
| Resume.ReadResume | src/engine/zone/resume.rs:125-283 | the loop and the checks give exactly the resume, or the error, of the reading of the items |
| Resume.ReadAllAppend | src/engine/zone/resume.rs:138-199 | reading a list in two parts: the second part starts from what the first part left, unless the first part failed |
| Resume.UnknownItemIgnored | src/engine/zone/resume.rs:196 | an item whose name is not one of the eleven changes nothing, wherever it stands |
| Resume.FirstUnreadableAborts | src/engine/zone/resume.rs:138-199 | the first known item, in list order, that cannot be read decides the error |
| Resume.LastNamed | src/engine/zone/resume.rs:138-199 | the position of an item with the name and no later item with it, or None when no item has the name |
| Resume.LastItemWins | src/engine/zone/resume.rs:138-199 | when the loop gets through, each known name holds what was read from the last item of that name, and a name that no item has keeps its previous state |
| Resume.ResumeFieldsFromLastItems | src/engine/zone/resume.rs:138-282 | a resume that is read has every field from the last item of its name: health from "PV", action points from "PA", the three bars from "Faim", "Soif" and "Fatigue", `follower` from "Suiveurs", `follow` from "Suivis", fighters from "Combattants" and messages from "Messages" |
| Resume.ResumeNeedsAllEleven | src/engine/zone/resume.rs:125-283 | once no known item is unreadable, reading succeeds exactly when all eleven names occur |
| Resume.ChangedAmongMembers | src/engine/zone/resume.rs:288-317 | an icon is kept exactly when it is among the compared icons and its field differs |
| Resume.ChangedAmongUnchanged | src/engine/zone/resume.rs:288-317 | two comparisons that agree on every icon give the same icons |
| Resume.ChangedIconsMembers | src/engine/zone/resume.rs:288-317 | an icon blinks exactly when its field is one of the ten compared and differs |
| Resume.ChangedAmongSame | src/engine/zone/resume.rs:288-317 | comparing a resume with itself blinks nothing |
| Resume.ChangedIconsIgnoreMessages | src/engine/zone/resume.rs:288-317 | the messages count is not compared |
| Resume.ChangedPrefixStep | src/engine/zone/resume.rs:288-317 | the icon of the k-th comparison goes after those of the comparisons before it |
| Resume.ChangedIconsUnfold | src/engine/zone/resume.rs:288-317 | the changed icons are the pushes of the ten comparisons, one after the other, in the source's order |
| Resume.IconsFromCompare | src/engine/zone/resume.rs:285-326 | one fresh blinking icon per changed field, in order, each showing its icon's tileset rectangle and not yet updated |
| Resume.PushStep | src/engine/zone/resume.rs:288-317 | one push adds the icon exactly when its field differs |
| Resume.ChangedItems | src/engine/zone/resume.rs:286-317 | the ten ifs push exactly the icons of the fields that differ, in the fixed order of the comparisons |
| ZoneEngine.FirstWithBaseUrl | src/engine/zone/event.rs:23-26 | the position of the first quick action with the URL as its base URL, or None exactly when no quick action has it |
| ZoneEngine.Reselect | src/engine/zone/event.rs:21-40 | with no armed action nothing changes; otherwise a quick action is selected exactly when one has the armed action's URL as its base URL, and then it is the first such one and the armed action is rebuilt from it; when there is none, both are cleared |
| ZoneEngine.ReselectIsStable | src/engine/zone/event.rs:21-40 | when a built action posts to its quick action's base URL, choosing again among the same quick actions keeps the choice |
| ZoneEngine.Engine.Event | src/engine/zone/event.rs:4-19 | a ThereIsAround event replaces the quick actions and re-chooses the armed action among them; every other event changes nothing |
| ZoneEngine.Engine.UpdateCurrentActionAccordingNewQuickActions | src/engine/zone/event.rs:21-40 | the quick actions are kept, and the armed action and the selection become the re-choice of the old ones |
| ChatModel.Character | src/engine/zone/gui/chat/model.rs:8-14 | a message with its author, not from the system |
| ChatModel.System | src/engine/zone/gui/chat/model.rs:15-21 | a message with no author, from the system |
| ChatModel.Text | src/engine/zone/gui/chat/model.rs:23-29 | the line always ends with the message; with an author it starts with the author's name and ": " and is exactly that long, and without one it is the message alone |
| ChatModel.CharacterTextDeterminesMessage | src/engine/zone/gui/chat/model.rs:23-29 | once the author is known, a character's line gives its message back |
| ChatModel.SystemLineCanLookLikeCharacterLine | src/engine/zone/gui/chat/model.rs:15-29 | a system message can show the same line as a different, character-written message |
| ChatState.State.constructor | src/engine/zone/gui/chat/state.rs:18-30 | no message, every flag down and an empty input |
| ChatState.State.SetDisplay | src/engine/zone/gui/chat/state.rs:32-40 | opening the window clears the unread flag and asks for the input's focus except on mobile; closing it drops the focus only; nothing else changes, and unread messages are flagged only while the window is closed |
| ChatState.State.AddMessage | src/engine/zone/gui/chat/state.rs:58-63 | the message goes at the end; unless it is silent, the unread flag then says whether the window is closed; nothing else changes |
| ChatState.State.SetInputValue | src/engine/zone/gui/chat/state.rs:73-75 | the input holds exactly the value, and nothing else changes |
| ChatState.State.ResetInputValue | src/engine/zone/gui/chat/state.rs:77-79 | the input is empty, and nothing else changes |
| ChatState.State.SetRequestFocus | src/engine/zone/gui/chat/state.rs:81-83 | the focus is requested, and nothing else changes |
| ChatState.State.SetSurrenderFocus | src/engine/zone/gui/chat/state.rs:89-91 | the focus is surrendered, and nothing else changes |
| ChatState.State.SetJustOpened | src/engine/zone/gui/chat/state.rs:97-99 | the just-opened flag is up, and nothing else changes |
| ChatState.State.UpdateFromDisplay | src/engine/zone/gui/chat/state.rs:105-112 | the input's text, focus and hover come from the drawing, and a focused input stops asking for focus; nothing else changes |
| ChatState.State.UpdateFromOwnDisplay | src/engine/zone/gui/chat/state.rs:105-132 | a frame whose drawing reports back exactly the state it was given keeps the input's text and focus, drops the hover, and drops a pending focus request when the input already had the focus; nothing else changes |
| ChatState.FromState | src/engine/zone/gui/chat/state.rs:124-132 | the input's focus and text of the state, with the other three flags down |
| Debug.NoComma | src/engine/zone/debug.rs:55-65 | a formatted integer is non-empty and holds no comma |
| Debug.SplitAtComma | src/engine/zone/debug.rs:55-65 | a comma that neither left part holds splits two equal strings at the same place |
| Debug.PeelField | src/engine/zone/debug.rs:55-65 | a field made of a tag and a number, followed by nothing or by a comma, gives its number back |
| Debug.DebugInfo.constructor | src/engine/zone/debug.rs:11-20 | every counter and the frame rate are 0 |
| Debug.DebugInfo.IncrZoneTileCount | src/engine/zone/debug.rs:22-24 | the tile count grows by one, wrapping at the i32 bound; nothing else changes |
| Debug.DebugInfo.IncrResourceCount | src/engine/zone/debug.rs:26-28 | the resource count grows by one, wrapping at the i32 bound; nothing else changes |
| Debug.DebugInfo.IncrStuffCount | src/engine/zone/debug.rs:30-32 | the stuff count grows by one, wrapping at the i32 bound; nothing else changes |
| Debug.DebugInfo.IncrCharacterCount | src/engine/zone/debug.rs:34-36 | the character count grows by one, wrapping at the i32 bound; nothing else changes |
| Debug.DebugInfo.IncrBuildCount | src/engine/zone/debug.rs:38-40 | the build count grows by one, wrapping at the i32 bound; nothing else changes |
| Debug.DebugInfo.SetFps | src/engine/zone/debug.rs:42-44 | only the frame rate changes |
| Debug.DebugInfo.Reset | src/engine/zone/debug.rs:46-53 | back to the state of `new` |
| Debug.DebugInfo.ToString | src/engine/zone/debug.rs:55-65 | the line starts with "FPS:" |
| Debug.Line | src/engine/zone/debug.rs:55-65 | the line starts with "FPS:" |
| Debug.LineDeterminesCounters | src/engine/zone/debug.rs:55-65 | two debug lines are equal only when all six numbers are, so the line can be read back |
| Debug.IncrementWraps | src/engine/zone/debug.rs:22-40 | one more than the largest i32 is the smallest, and below the bound an increment is plain |
| Log.InfoLog | src/engine/zone/log.rs:20-25 | an informational log with the message |
| Log.ErrorLog | src/engine/zone/log.rs:26-31 | an error log with the message |
| Log.New | src/engine/zone/log.rs:33-38 | the message and the level as given, the same log as `info` or `error` builds |
| Log.LevelText | src/engine/zone/log.rs:40-47 | "INFO" exactly for the informational level and "ERROR" exactly for the error level |
| Log.LevelColor | src/engine/zone/log.rs:66-69 | red exactly for errors |
| Log.DrawnLines | src/engine/zone/log.rs:51-74 | one line per log, from the newest to the oldest, each in its level's colour |
| Log.NewestOnTop | src/engine/zone/log.rs:64-73 | a new log goes on the top line and pushes the others one line down |
| Panel.Action | src/engine/zone/gui/panel.rs:60-80 | the actions, card and build buttons open "/_describe/character/<player id>/main_actions", ".../card" and ".../build_actions"; affinity opens "/affinity/<player id>"; world and inventory open their own screens |
| Panel.ActionsDistinct | src/engine/zone/gui/panel.rs:60-80 | for one player, no two buttons open the same thing |
| Panel.Cell | src/engine/zone/gui/panel.rs:183-185 | the row and the column of the i-th button, three buttons to a row |
| Panel.DrawPosition | src/engine/zone/gui/panel.rs:186-189 | 69 units (a 64-unit button and a 5-unit margin) per column from x 23 and per row from y 175; every button lies in the band of the three columns and at or below the first row |
| Panel.CellsDistinct | src/engine/zone/gui/panel.rs:183-185 | two different positions in the list get two different cells |
| Panel.ButtonsDoNotOverlap | src/engine/zone/gui/panel.rs:183-189 | no button hides another: the 64-unit squares drawn for two different positions are apart in x or in y |
| Panel.PanelLayout | src/engine/zone/gui/panel.rs:139-185 | the six buttons, each listed, fill two rows of three |
| Socket.GetUrl | src/engine/zone/socket.rs:23-33 | the URL ends with the path of the zone's events for the character |
| Socket.OccursAfterPrefix | src/engine/zone/socket.rs:23-33 | an occurrence after a prefix is an occurrence in what follows the prefix |
| Socket.AbsentAfterPrefix | src/engine/zone/socket.rs:23-33 | a pattern starting with "h" is absent after a prefix without "h" when it is absent from the rest |
| Socket.AbsentWithoutH | src/engine/zone/socket.rs:23-33 | a pattern starting with "h" is absent from a string without "h" |
| Socket.ReplaceAtStart | src/engine/zone/socket.rs:23-33 | replacing a pattern at the very start of a string gives the replacement followed by the rest |
| Socket.HttpBecomesWs | src/engine/zone/socket.rs:23-33 | an "http://" address is reached over "ws://" |
| Socket.HttpsBecomesWss | src/engine/zone/socket.rs:23-33 | an "https://" address is reached over "wss://", because the first replacement does not touch it |
| Socket.DefaultAddressUrl | src/main.rs:37 | with the default address "http://" followed by a host, the client connects to that host over "ws://" |
| Socket.GetSocket | src/engine/zone/socket.rs:6-21 | the socket exactly when connecting to the URL succeeds; otherwise "Erreur de connexion web socket : " followed by the connection error |
| Auth.AuthFailedNative | src/engine/root/util.rs:4-18 | the native build reports an authentication failure exactly for a 401 status; any body or other status is not a failure, and any other error is passed on as its text |
| Auth.AuthFailedWasm | src/engine/root/util.rs:21-32 | the browser build reports an authentication failure exactly for the "__AUTH_REQUIRED__" body; every error is passed on as its text |
| Auth.BuildsDisagree | src/engine/root/util.rs:4-32 | the marker body is a failure only in the browser; a 401 counts as a failure natively, while the browser build never receives a status error at all (its HTTP error has no status variant), so that half only shows what the browser code would make of one; the two builds agree on every other body |
| Json.I64AsI32 | src/event/mod.rs:182 | `as_i64().unwrap() as i32` gives an i32, and an integer already in the i32 range unchanged |
| Ints.AsI16 | src/event/mod.rs:317-318 | `as i16` gives an i16 congruent to its input modulo 2^16, and a value already in range unchanged |
| Ints.I16AsUsize | src/zone/map.rs:47-48 | an i16 cast to usize keeps a non-negative value and turns a negative one into an index beyond any vector |
| Ints.TruncToI32 | src/engine/zone/resume.rs:171 | a float cast to i32 is truncated toward zero and stays within the i32 range |
| Json.DeSeq | src/event/mod.rs:232-233 | a list deserialises exactly when every item does, item by item; otherwise some item is refused |
| Json.SeqRoundTrip | src/event/mod.rs:232-233 | a list whose every element survives serialisation and deserialisation survives as a whole |

## Left out

- Drawing, textures, images, fonts, screen sizes and mouse hovering: only what is drawn (lines, icons, positions) is modelled, not the drawing calls.
- `f32` values are modelled as `real`: there is no rounding, NaN or infinity. The text a float is formatted to is the parameter `show`.
- `prompt()`, `WebSocket::connect`, `is_mobile()` and `Action::from_quick_action` are foreign or not part of this model, so they are parameters. The `Display` text of an HTTP error is a field of the error.
- JSON text parsing (`ZoneEvent::from_u8`, `Description::from_string`) is left out. The model starts from the parsed JSON value.
- serde's array form of structs is not modelled. Only the object form the server sends is.
- `console.debug` logging and the `info!`/`debug!` macros are left out, because they are output only.
- Socket.GetUrl: the player's world row, column and id are parameters, because the player record of this revision has no world coordinates.
- ZoneEngine.Engine.Event: the engine's other fields (zone state, graphics, animations) are not part of the class, because `event` only touches the quick actions, the armed action and the selection.
- Resume.Finish: the eleven `Option` variables of `from_resume_texts` are one map from item name to value.
- Resume.ChangedItems: `ProgressBar` in src/engine/zone/gui/component.rs derives no `PartialEq`, yet src/engine/zone/resume.rs compares it. The model compares bars structurally.
- Animations.Animations.Animations: only the visible animation is modelled. The update of any other animation kind is the parameter `step`.
- Debug.DebugInfo.IncrZoneTileCount: `+= 1` is modelled as a wrapping `i32` increment, which is what a release build does. A debug build would panic at the bound instead. The same goes for the other four `Incr` methods.
- BlinkIcon.BlinkingIcon.Update: the `i64` frame counter is unbounded. It would need 2^63 updates to overflow.
- ZoneMapGrid.ZoneMap.constructor: requires a grid with a row. The empty grid is where the source's `expect` panics, and ZoneMapGrid.ZoneMap.New models that case as an error.
- ZoneLoad.FromTxtMap: the model returns the tile grid. The one-argument `ZoneMap::new` it ends with is not in src/zone/map.rs.
- The getters of the chat state (`is_display`, `messages`, `input_value`, …), `Part::is_form` and `Part::is_checkbox` read a field. The model reads those fields directly.
- Graphics.Graphics.constructor: each tile image is the tileset cell it is cropped from, not its pixels.
- `quick_action_key_code` and `quick_action_key_pressed` read the keyboard, so they are left out.
