# Discord Explore game: space client and menu logic, in Dafny

This project models two RPG Maker MZ plugins of the Discord Explore game.

**The space-sync client** (`js/plugins/DiscordExplore.js`) keeps a registry of the other players in the current room (`otherPlayers`, keyed by user id). Each entry holds a host character event, a sprite flag and a skin id. The client also tracks:

- the local user id
- the current guild (`"world"` for the lobby map)
- a queue of space tiles still to be written
- the tile editor's layer and tile

Socket handlers (`joined`, `room_state`, `user_joined`, `user_left`, `user_moved`, `skin_changed`, `error`, `map_edited`) and the room transitions (`leaveSpace`, `connectToSpace`, `decideMapToLoad`) each run to completion on the game thread.

The model is the class `Explore.ExploreClient`:

- Its fields are the plugin's module-level state, plus the part of the host engine it touches:
  - the ids of the events defined on the map and the length of the event array
  - the erased events
  - the tile grid
  - whether a spriteset exists
  - the reserved transfer
- Socket emissions are appended to an `outbox`.
- Tile-list requests are appended to `tileRequests`. The reply arrives later, as `OnSpaceTilesFetched`.

Every registry-changing method is proved equal to a function of the module `SpaceRegistry` over the old state. The properties of the plugin are proved about those functions. Tile writes are proved equal to `SpaceTiles.ApplyTiles`, for which "last write wins" is proved.

**The menu plugin** (`js/plugins/CustomMenu.js`) is modelled in seven modules:

- `MenuOptions`: the Options list filter that hides "remember" and the volume entries and appends an Audio entry, and the audio submenu's list.
- `MenuAudio`: master-volume stepping with channel rescaling, and the reset. The channel volumes are updated in a loop over a `ConfigStore` object.
- `MenuPreview`: preview bookkeeping. It covers the channels a preview played, the BGM/BGS saved for restoring, and the audio calls made, any of which may throw.
- `MenuTransitions`: the per-frame fade and slide steps that the open and exit transitions install on the command window.
- `MenuLayout`: the horizontal toolbar geometry.
- `MenuCommands`: `getAllAvailableCommands`.
- `MenuConfig`: the normalisation of the `menuIcons` and `menuImages` parameters after JSON decoding.

**Conventions.**

- `JsValues` models a JSON field as absent, `null` or a text value. This gives `??`, `String(...)` and truthiness of ids their JavaScript meaning.
- A `TypeError` the source throws by dereferencing `undefined` is the result `Fault`, with the state left as it was before the throw.
- Host engine calls are parameters or small functions:
  - `moveStraight` advances exactly when the `passable` argument is true.
  - `createNormalEventAt` pushes a new event at index `eventCount`.
  - `eraseEvent` marks the event erased but leaves it defined.
  - `setNormalTile` writes the grid.
- RPG Maker's `Window.opacity` setter clamps to 0..255 (`StoredOpacity`). Because of it, the fade steps' "went below 0" and "went above 255" branches are never taken. As a result, the fade-out callback runs on the first frame that *starts* at opacity 0, not on the frame that reaches 0. It then runs again on every later frame, and the slide-out callback does the same.

## Model

| member | source | states |
|---|---|---|
| Explore.ExploreClient.constructor | js/plugins/DiscordExplore.js:30-50 | Over a host map whose events lie below its event count, the initial state keeps that invariant (`Valid`): empty registry, no user id, no guild, no queued tiles, layer 0 and tile 0, no socket, empty outbox. |
| Explore.ExploreClient.ChooseInitialRoom | js/plugins/DiscordExplore.js:67-76 | A truthy `guild_id` parameter selects that space; otherwise the world map and guild `"world"`. |
| Explore.ExploreClient.ConnectSocket | js/plugins/DiscordExplore.js:185-200 | A socket exists afterwards exactly when one existed before or the library is loaded and a token is held. A newly made socket replaces the old one and is not connected; otherwise the connection flag is kept. |
| Explore.ExploreClient.OnConnect | js/plugins/DiscordExplore.js:202-207 | On connect the client emits `join` for the guild that is current at that moment. |
| Explore.ExploreClient.OnJoined | js/plugins/DiscordExplore.js:209-211 | The user id is recorded; a null payload faults and changes nothing. |
| Explore.ExploreClient.CreateNormalEventAt | js/plugins/DiscordExplore.js:542 | With every host event below the event count (`Valid`, kept by every method that creates events), the created event gets the next index, which is not in use, and the host's page defaults. Exactly that one event is added and the invariant still holds. |
| Explore.ExploreClient.AttachSpriteForUserId | js/plugins/DiscordExplore.js:406-418 | A known entry gets a sprite exactly when a spriteset exists; nothing else changes. |
| Explore.ExploreClient.RefreshRemotePlayerSprites | js/plugins/DiscordExplore.js:439-447 | Same keys; every entry's sprite flag becomes "spriteset exists" and nothing else in it changes. |
| Explore.ExploreClient.SpawnPlayer | js/plugins/DiscordExplore.js:527-558 | The new registry is `SpaceRegistry.Spawn` of the old one. |
| SpaceRegistry.Spawn | js/plugins/DiscordExplore.js:527-558 | Records with no id or with the local id change nothing. A known id keeps its one host event, speed and frequency, and gets the record's skin and position. It takes a non-zero direction and keeps its facing for a zero or absent one (the host ignores 0), and it has a sprite when it had one or a spriteset exists. A new id gets exactly one new event, whose index was unused when the events lay below the count (and they still do afterwards). The new event is at the record's (x, y) (11 when absent), facing up at speed 4 with the host's frequency, and has a sprite exactly when a spriteset exists. Other entries are untouched. |
| SpaceRegistry.Subject | js/plugins/DiscordExplore.js:529-532 | The key is `String(user_id ?? id)`, and there is none when both are null or the id is the local user's. |
| SpaceRegistry.FallbackImage | js/plugins/DiscordExplore.js:391-404 | Every remote player gets the local player's sheet, or "Actor1" and index 0; the skin id is not used. |
| SpaceRegistry.MoveStraight | js/plugins/DiscordExplore.js:638 | The host step turns to a non-zero direction and moves at most one tile, and only when passable. |
| Explore.ExploreClient.MovePlayer | js/plugins/DiscordExplore.js:560-646 | The new registry is `SpaceRegistry.Move` of the old one. |
| SpaceRegistry.Move | js/plugins/DiscordExplore.js:560-646 | A dropped event changes nothing. Otherwise the entry ends at the event's (x, y), speed and frequency, whatever the step did. It faces a non-zero direction. An unknown user first gets exactly one entry and one event with no skin, at an index that was unused when the events lay below the count; that invariant is kept. That entry has the fallback image, faces up under a zero direction, and has a sprite exactly when a spriteset exists. A known user keeps its event, skin, image and, under a zero direction, its facing; it has a sprite when it had one or a spriteset exists. Other entries are untouched. |
| Explore.ExploreClient.RemovePlayer | js/plugins/DiscordExplore.js:648-657 | The new registry and status are `SpaceRegistry.Remove` of the old registry. |
| SpaceRegistry.Remove | js/plugins/DiscordExplore.js:648-657 | An empty id does nothing. An id without an entry faults. An entry whose event is gone stays. Otherwise exactly that entry is deleted and its event erased. |
| SpaceRegistry.UserLeft | js/plugins/DiscordExplore.js:226-230 | No payload, or both ids null, does nothing. Otherwise the result is `Remove` of `user_id ?? id`: it faults exactly when that id has no entry, and a live entry's event is erased and its entry deleted. |
| Explore.ExploreClient.OnUserLeft | js/plugins/DiscordExplore.js:226-230 | The new registry and status are `SpaceRegistry.UserLeft` of the old registry. |
| Explore.ExploreClient.ClearOtherPlayers | js/plugins/DiscordExplore.js:449-460 | The new registry is `SpaceRegistry.Cleared` of the old one: live entries are erased and deleted, stale ones stay. |
| SpaceRegistry.SpawnAll | js/plugins/DiscordExplore.js:218 | Spawning a list adds exactly the admitted ids and leaves other entries alone. It never adds an entry for the local user, and keeps the events below the count. |
| Explore.ExploreClient.OnRoomState | js/plugins/DiscordExplore.js:213-219 | The new registry is `SpaceRegistry.RoomState` of the old one. |
| Explore.ExploreClient.SpawnPlayers | js/plugins/DiscordExplore.js:218 | Spawning the listed players one after another gives `SpaceRegistry.SpawnAll` of the old registry, and keeps `Valid`. |
| SpaceRegistry.RoomState | js/plugins/DiscordExplore.js:213-219 | A payload for another guild changes nothing. For the current guild, the keys become the stale entries plus the listed ids. Every live entry's event is erased. A stale entry not listed survives unchanged. The events stay below the count. |
| SpaceRegistry.LastRecord | js/plugins/DiscordExplore.js:218 | The reference for a player list: the last record admitted under an id, present exactly when some record is admitted under it. |
| SpaceRegistry.SpawnAllEntries | js/plugins/DiscordExplore.js:527-558 | After spawning a list, each listed id's entry has the skin and the (x, y) of its last record (11 for an absent coordinate) and the local fallback image. |
| SpaceRegistry.RoomStateEntries | js/plugins/DiscordExplore.js:213-219 | For the current guild, each listed id's entry has the skin and the (x, y) of its last record in the payload (11 when absent). |
| SpaceRegistry.Cleared | js/plugins/DiscordExplore.js:449-460 | Exactly the live entries are deleted and their events erased; stale entries stay unchanged, and no other event is erased. |
| SpaceRegistry.SetDirection | js/plugins/DiscordExplore.js:555 | A non-zero direction is taken; a zero one leaves the character as it was. Nothing but the direction changes. |
| Explore.ExploreClient.OnUserJoined | js/plugins/DiscordExplore.js:221-224 | The new registry is `SpaceRegistry.Spawn` of the old one. |
| Explore.ExploreClient.OnUserMoved | js/plugins/DiscordExplore.js:232-234 | The new registry is `SpaceRegistry.Move` of the old one. |
| Explore.ExploreClient.OnSkinChanged | js/plugins/DiscordExplore.js:236-245 | The new registry is `SpaceRegistry.ChangeSkin` of the old one. |
| SpaceRegistry.ChangeSkin | js/plugins/DiscordExplore.js:236-243 | Only the skin id of a known, non-local user of the current guild changes; characters, sprites, keys and events never change. |
| Explore.ExploreClient.FetchMapData | js/plugins/DiscordExplore.js:329-368 | In a space the tile list of the current guild is requested; in the world nothing is. |
| Explore.ExploreClient.DecideMapToLoad | js/plugins/DiscordExplore.js:308-327 | Reserves map 1 at (8, 6) facing 2 in the world, map 2 at (11, 11) facing 8 in a space, then fetches. |
| Explore.ExploreClient.OnError | js/plugins/DiscordExplore.js:247-256 | "Membership required" switches to the world and reserves its transfer, with no `leave` or `join` emitted. Any other message changes nothing. A null payload faults. |
| Explore.ExploreClient.ApplySpaceTiles | js/plugins/DiscordExplore.js:377-387 | Without a queue or tile API nothing changes. Otherwise the queued tiles are written in order (`ApplyTiles`) and the queue is emptied. |
| Explore.ExploreClient.OnSpaceTilesFetched | js/plugins/DiscordExplore.js:356-366 | An error reply changes nothing. Otherwise `tiles \|\| []` is queued and, with the tile API present, written at once. |
| Explore.ExploreClient.OnMapEdited | js/plugins/DiscordExplore.js:258-263 | With the tile API the one tile is written; without it the edit is dropped, not queued; a null payload faults. |
| Explore.ExploreClient.OnMapLoaded | js/plugins/DiscordExplore.js:915-924 | On a map set up again (whose events lie below its event count), the events, count and tiles are the new map's and nothing is erased. On a re-entry without a new setup, the events, count, erased events and tiles stay as they were. Either way `Valid` holds, the queued tiles are written, and every entry gets a sprite again; the registry keeps its keys. |
| Explore.ExploreClient.LeaveSpace | js/plugins/DiscordExplore.js:282-306 | Emits `leave(old)` then `join("world")` when connected. Switches to the world and drops the queued tiles. The registry is not cleared. |
| Explore.ExploreClient.ConnectToSpace | js/plugins/DiscordExplore.js:887-904 | A falsy id changes nothing. Otherwise it emits `leave(old)` before `join(id)` when connected. It switches to the space, reserves its transfer and requests its tiles. The registry is not cleared. |
| Explore.ExploreClient.PlaceTile | js/plugins/DiscordExplore.js:959-975 | Outside the map nothing changes. Inside the map without the host's tile API the call faults, before writing or emitting. Otherwise the current tile is written on the current layer, and `edit_map` is emitted whenever a socket exists. |
| Explore.ExploreClient.PickTile | js/plugins/DiscordExplore.js:977-993 | Inside the map the current tile becomes the grid's tile on the current layer. |
| Explore.LayerForKey | js/plugins/DiscordExplore.js:995-1001 | Exactly the keys 1 to 4 select a layer, layer k for key k + 1. |
| Explore.ExploreClient.OnKey | js/plugins/DiscordExplore.js:995-1001 | The layer becomes the key's layer, or stays for any other key. |
| Explore.ExploreClient.ReportLocalMove | js/plugins/DiscordExplore.js:513-523 | A positive direction emits `move` with the player's position and pace. Without a socket it faults, as there is no null check. |
| Explore.ExploreClient.OnSkinSaved | js/plugins/DiscordExplore.js:876-878 | `skin_change` is emitted exactly when connected. |
| SpaceTiles.LastWrite | js/plugins/DiscordExplore.js:380-382 | The reference for a list of edits: the id of the last edit on a cell, present exactly when some edit names the cell. |
| SpaceTiles.ApplyTiles | js/plugins/DiscordExplore.js:380-382 | Writing a list keeps every written cell, adds exactly the cells the list names, and the last tile of the list holds its id. |
| SpaceTiles.LastWriteWins | js/plugins/DiscordExplore.js:380-382 | After writing a list, each cell holds its last write in the list, or its old value when none names it. |
| SpaceTiles.ApplyTilesIdempotent | js/plugins/DiscordExplore.js:258-263 | Writing the same edits again (a repeated `map_edited` or tile list) changes nothing. |
| SpaceTiles.ApplyTilesFrame | js/plugins/DiscordExplore.js:380-382 | Cells no edit names keep their tile. |
| SpaceRegistryFacts.ArrivalThenLeave | js/plugins/DiscordExplore.js:560-570 | A user first seen by a move who then leaves: the registry holds the old players, and the one event made for them is erased. |
| SpaceRegistryFacts.SpawnTwiceOneEntry | js/plugins/DiscordExplore.js:539-557 | Spawning the same record twice leaves one entry and one host event per id. |
| SpaceRegistryFacts.EmptyRoomKeepsStaleEntries | js/plugins/DiscordExplore.js:449-460 | An empty `room_state` for the current guild keeps exactly the entries whose event was already gone. |
| SpaceRegistryFacts.ChangeSkinIdempotent | js/plugins/DiscordExplore.js:236-245 | Applying the same `skin_changed` twice is applying it once. |
| SpaceRegistryFacts.MoveKeepsSelfOut | js/plugins/DiscordExplore.js:563-565 | A move never adds an entry for the local user. |
| MenuOptions.VolumeItems | js/plugins/CustomMenu.js:512 | `volumeItems` holds exactly the host's volume entries. |
| MenuOptions.OptionsList | js/plugins/CustomMenu.js:508-520 | Without either option the list is the host's. With `removeRemember` no remember entry remains. With `enableAudio` no volume entry remains and the list ends with the Audio entry. Otherwise an entry survives exactly when it passes the filter. |
| MenuOptions.OptionsMenu.MakeCommandList | js/plugins/CustomMenu.js:509-520 | The window's list is `OptionsList` of the host's list, and `volumeItems` is `VolumeItems` of it when the rewrite is installed. |
| MenuOptions.OptionsKeepOrder | js/plugins/CustomMenu.js:513-516 | Entries that survive the filter keep their relative order. |
| MenuOptions.AudioCommands | js/plugins/CustomMenu.js:558-564 | Master (when enabled) comes first and reset last. In between come the moved volume entries, or the host's four when none were moved. |
| MenuOptions.OptionsMenu.AudioSubmenuList | js/plugins/CustomMenu.js:558-564 | The submenu's list is `AudioCommands` of the recorded volume entries. |
| MenuOptions.NoEntryLost | js/plugins/CustomMenu.js:508-564 | With the submenu on, every host entry stays in Options, moves to the submenu, or is the hidden remember entry. |
| MenuOptions.SubmenuKeepsVolumeOrder | js/plugins/CustomMenu.js:512-561 | The submenu shows the moved volume entries in the host's order. |
| MenuAudio.ReadMaster | js/plugins/CustomMenu.js:623 | The master reads within 0..100, and a stored 0 reads as 100. |
| MenuAudio.RoundDiv | js/plugins/CustomMenu.js:628 | `Math.round(n / d)`: the result is the integer within one half of n / d, halves rounding up. |
| MenuAudio.Rescale | js/plugins/CustomMenu.js:626-629 | A channel stays within 0..100. It does not grow when the master falls (or from a master of 0), and does not shrink when the master rises from a non-zero value. |
| MenuAudio.RescaleDirection | js/plugins/CustomMenu.js:626-629 | Scaling by next/d moves a volume the way next moves from d. |
| MenuAudio.MasterStep | js/plugins/CustomMenu.js:621-633 | The new master is the clamped step from the reading; when it equals the reading nothing changes. Otherwise the master becomes it and all four channels lie within 0..100. |
| MenuAudio.RescaleAll | js/plugins/CustomMenu.js:627-631 | Each of the four channels is rescaled from its stored value (0 when missing); other keys are untouched. |
| MenuAudio.StepDownFromFull | js/plugins/CustomMenu.js:621-633 | From a full master, one step down gives 80 and four fifths of each channel, rounded. |
| MenuAudio.ConfigStore.ChangeMasterVolume | js/plugins/CustomMenu.js:621-633 | The configuration after the step is `MasterStep` of the one before. |
| MenuAudio.Defaults | js/plugins/CustomMenu.js:635-638 | The master and all four channels are exactly 100. |
| MenuAudio.ResetAll | js/plugins/CustomMenu.js:635-638 | The listed channels are set to 100 (added when missing); other channels keep their volume. |
| MenuAudio.ConfigStore.ResetAudioDefaults | js/plugins/CustomMenu.js:635-638 | The configuration after the reset is `Defaults` of the one before. |
| MenuAudio.EffectiveVolume | js/plugins/CustomMenu.js:642-643 | The preview volume is always within 0..100. |
| MenuAudio.Scaled | js/plugins/CustomMenu.js:643 | Scaling a volume by the master stays within 0..100 and is the identity at master 100. |
| MenuPreview.ThrowsSome | js/plugins/CustomMenu.js:429-445 | The calls throw exactly when some call in them fails. |
| MenuPreview.AttemptedPrefix | js/plugins/CustomMenu.js:429-450 | The calls made are a prefix of those planned: all of them when none throws, otherwise up to the first that throws. |
| MenuPreview.AttemptedSnoc | js/plugins/CustomMenu.js:429-445 | A further call is made exactly when no earlier call threw. |
| MenuPreview.StopPlan | js/plugins/CustomMenu.js:674-677 | A channel is stopped exactly when its preview was used. |
| MenuPreview.RestorePlan | js/plugins/CustomMenu.js:430-443 | A used BGM or BGS is stopped, and replayed exactly when a track was saved for it. |
| MenuPreview.PreviewThenRestore | js/plugins/CustomMenu.js:428-451 | After one BGM preview, the restore stops it and replays the saved track. |
| MenuPreview.PreviewState.StopAllPreviews | js/plugins/CustomMenu.js:672-684 | Every flag ends false even when a call throws, and the calls made are those of `StopPlan` up to the first throw. |
| MenuPreview.PreviewState.RestorePreviewAudioIfAny | js/plugins/CustomMenu.js:428-451 | Flags and saved tracks end cleared even when a call throws, and the calls made are those of `RestorePlan` up to the first throw. |
| MenuPreview.PreviewState.PreviewFor | js/plugins/CustomMenu.js:640-671 | The channel's flag is set and its track played at `EffectiveVolume`. The BGM is saved only when none is saved, for a BGM or ME preview, and the BGS likewise. With previews off nothing changes. |
| MenuTransitions.StoredOpacity | js/plugins/CustomMenu.js:939-945 | The host setter keeps the opacity within 0..255. |
| MenuTransitions.QuarterUp | js/plugins/CustomMenu.js:921 | `Math.ceil(d / 4)` is between 1 and d. |
| MenuTransitions.FadeIn | js/plugins/CustomMenu.js:941-946 | One fade-in frame adds 32, capped at 255. |
| MenuTransitions.FadeOut | js/plugins/CustomMenu.js:982-993 | One fade-out frame takes 32, floored at 0, and calls back exactly when it starts at 0. |
| MenuTransitions.SlideIn | js/plugins/CustomMenu.js:919-924 | One slide-in frame moves strictly towards the target and never past it. |
| MenuTransitions.SlideOut | js/plugins/CustomMenu.js:952-965 | One slide-out frame moves towards the target, never past it, and calls back exactly on arrival or when already there. |
| MenuTransitions.FadeInAfter | js/plugins/CustomMenu.js:941-946 | Opacity stays within 0..255 over any number of frames. |
| MenuTransitions.FadeInAfterFrames | js/plugins/CustomMenu.js:941-946 | After k frames the opacity is min(o + 32k, 255). |
| MenuTransitions.FadeOutAfter | js/plugins/CustomMenu.js:982-993 | Opacity stays within 0..255 over any number of frames. |
| MenuTransitions.FadeOutAfterFrames | js/plugins/CustomMenu.js:982-993 | After k frames the opacity is max(o - 32k, 0), and the next frame calls back exactly when 32k is at least o. |
| MenuTransitions.SlideInArrives | js/plugins/CustomMenu.js:919-924 | Sliding in never passes the target, and arrives within as many frames as the distance. |
| MenuTransitions.SlideOutArrives | js/plugins/CustomMenu.js:952-965 | Sliding out never passes the target, arrives within as many frames as the distance, and calls back from then on. |
| MenuTransitions.CommandWindow.ApplyOpenTransition | js/plugins/CustomMenu.js:911-948 | Slide starts off-screen left at opacity 1 and slides to centre. Fade starts at opacity 0. Zoom only installs its update. With no transition nothing changes. |
| MenuTransitions.CommandWindow.ApplyExitTransition | js/plugins/CustomMenu.js:950-998 | Each transition installs its exit update. With none, the callback runs at once. |
| MenuTransitions.CommandWindow.Update | js/plugins/CustomMenu.js:918-993 | One frame applies the installed step and counts the callbacks. Opacity stays within 0..255. |
| MenuLayout.ItemRect | js/plugins/CustomMenu.js:1009-1019 | Before the list exists an item is a button at the origin. In horizontal layout it is a button-sized rectangle at y = 0, the first at x = 0. Otherwise it is the host's rectangle. |
| MenuLayout.NextButton | js/plugins/CustomMenu.js:1015 | Each button starts one button width plus the spacing after the one before. |
| MenuLayout.HorizontalOneRow | js/plugins/CustomMenu.js:1002-1006 | In horizontal layout with a list, `maxCols()` is the item count, so every item falls in row 0, in the column of its own index. That is the place `ItemRect` gives it. |
| MenuLayout.ButtonsDisjoint | js/plugins/CustomMenu.js:1015 | With a non-negative spacing, buttons do not overlap. |
| MenuLayout.RowWidthFitsLastButton | js/plugins/CustomMenu.js:1169 | The resized width is the last button's right edge plus 20. |
| MenuLayout.Resized | js/plugins/CustomMenu.js:1164-1171 | In the horizontal layout with items, the window gets the row width and is centred on the screen. In the vertical layout, or without items, it is untouched. |
| MenuLayout.EstimateMatchesSixItems | js/plugins/CustomMenu.js:1036-1043 | The initial width estimate is the row width of six buttons at spacing 8. |
| MenuCommands.Listed | js/plugins/CustomMenu.js:1112-1120 | Exactly the items with a truthy symbol are reported, each with its symbol, name and enabled flag. |
| MenuCommands.ListedConcat | js/plugins/CustomMenu.js:1112-1120 | The listing keeps list order. |
| MenuCommands.UnnamedItemsIgnored | js/plugins/CustomMenu.js:1114 | An item without a symbol never affects the listing. |
| MenuCommands.GetAllAvailableCommands | js/plugins/CustomMenu.js:1108-1125 | The result is `AvailableCommands`: the listing of the list, or empty when there is no list. |
| MenuCommands.AvailableCommands | js/plugins/CustomMenu.js:1108-1125 | No list gives no commands; a list gives its listing, in which every symbol is non-empty. |
| MenuConfig.IconsFrom | js/plugins/CustomMenu.js:321-348 | Keys and images in the table are non-empty; a `null` element stops the reading. |
| MenuConfig.MenuIcons | js/plugins/CustomMenu.js:321-348 | A parameter that is not a JSON array gives an empty table; every symbol and image in the table is non-empty. |
| MenuConfig.LastIcon | js/plugins/CustomMenu.js:339-341 | The reference: the image of the last entry naming a symbol. |
| MenuConfig.IconsLastWins | js/plugins/CustomMenu.js:327-343 | A symbol is in the table exactly when some entry names it with an image, and it maps to the last such entry's image. |
| MenuConfig.NullIconEndsList | js/plugins/CustomMenu.js:327-345 | Entries after a `null` element are never read. |
| MenuConfig.ImagesFrom | js/plugins/CustomMenu.js:354-388 | Every image has a non-empty filename and there are no more images than entries. Each image is `ImageOf` an entry with a filename: that filename, and each of x, y, width and height as its number, or 0 when it is not a number. A `null` element stops the reading. |
| MenuConfig.MenuImages | js/plugins/CustomMenu.js:354-388 | A parameter that is not a JSON array gives no images. Otherwise there are no more images than entries, every filename is non-empty, and every image is `ImageOf` some entry with a filename. |
| MenuConfig.ImagesConcat | js/plugins/CustomMenu.js:361-382 | Images keep the order of their entries. |
| MenuConfig.SingleImage | js/plugins/CustomMenu.js:373-380 | One entry with a filename yields exactly its image, with a missing or non-numeric x, y, width or height read as 0; any other entry yields nothing. |
| MenuConfig.ImagesPrefix | js/plugins/CustomMenu.js:362-382 | Images read from the first entries are never taken back by later ones, and after a `null` nothing more is read. |
| MenuConfig.ImageEntryKept | js/plugins/CustomMenu.js:373-380 | Every entry with a filename that comes before any `null` yields its image, right after the images of the entries before it. |
| Seqs.Filter | js/plugins/CustomMenu.js:512-516 | `Array.prototype.filter`: every kept element passes, and an element is kept exactly when it is in the list and passes. |
| Seqs.FilterKeepsOrder | js/plugins/CustomMenu.js:512-516 | Filtering keeps the relative order of kept elements. |

## Left out

- Discord SDK start-up, OAuth and the token exchange, and `setActivity` (js/plugins/DiscordExplore.js:53-183). These are asynchronous I/O against foreign SDKs. The room choice from the query string is kept (`ChooseInitialRoom`).
- The socket.io transport and every `fetch`. Payloads arrive decoded as method arguments. Emissions are logged in `outbox`, and tile requests in `tileRequests`. The guild-info fetch only feeds `setActivity` and is left out.
- RPG Maker internals: passability (the `passable` argument), sprites (a flag), the tilemap refresh, the event page's name comment, priority and step animation. `applySkinToCharacter` is not defined in the plugin, so only the skin id update is modelled.
- Scene and window UI classes, touch input and `updateEditorInput`, drawing and bitmaps. `setupGuildMap` is the only writer of `isEditMode`, so the editor's gating by it is left out too. `placeTile` and `pickTile` are modelled as callable.
- `Number(...)` conversions yielding NaN, and non-finite coordinates: coordinates are integers or absent.
- SpaceRegistry.Move: a `user_moved` payload always carries `x` and `y`. One without them, which reaches `setPosition(undefined, undefined)` (js/plugins/DiscordExplore.js:641), is not modelled.
- The zoom transition's scale steps of 0.1 (js/plugins/CustomMenu.js:926-937, 967-980), which are floating point. Choosing it only installs its update in the model.
- MenuAudio.Rescale: computes `round(current * next / old)` on exact rationals. JavaScript multiplies by a float ratio first, which may differ by one at a half. Only the bounds and direction are proved for that reason.
- MenuTransitions.CommandWindow.ApplyOpenTransition: uses integer division for the slide target `(boxWidth - width) / 2`. The source may produce a half pixel there.
- MenuPreview.PreviewState.PreviewFor: when the symbol matches no enabled channel, the contract does not state that nothing changes. The preview calls assume the host's `saveBgm`/`saveBgs`/`replayBgm`/`replayBgs` exist.
- MenuOptions.OptionsList: "ends with the Audio entry" is stated, but a host entry already carrying the `audioSubmenu` symbol would also be kept. The contract does not claim that the appended entry is the only one.
- `statusText`, `processOk`, `cursorLeft`/`cursorRight` dispatch and `select`'s preview stop: presentation, and the calls into the modelled operations.
- ColorManager/ConfigManager persistence patches, `JSON.parse` itself, `setTimeout` and debug logging. Text that does not parse is an "unparseable" entry, and a parameter that is not a JSON array is `None`.
