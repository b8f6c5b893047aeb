/** The space-sync client of js/plugins/DiscordExplore.js: the module-level
    state the socket handlers and room transitions reassign, and the host map
    (events, tiles, sprites, the reserved transfer) they call into. Each method
    runs to completion, as each handler does on the single game thread. */
module Explore {
  import opened JsValues
  import opened SpaceRegistry
  import opened SpaceTiles

  const MapWorld := 1
  const MapSpace := 2
  const WorldGuild := "world"
  const MembershipRequired := "Membership required"

  /** Events the client emits on the socket. */
  datatype OutEvent =
    | Join(guild: Option<string>)
    | Leave(guild: Option<string>)
    | Move(guild: Option<string>, direction: int, x: int, y: int, moveSpeed: int, moveFrequency: int)
    | SkinChange(guild: Option<string>, skinId: string)
    | EditMap(guild: Option<string>, x: int, y: int, z: int, tileId: int)

  /** A transfer reserved on the local player: map id, x, y and direction. */
  datatype Transfer = Transfer(mapId: int, x: int, y: int, direction: int)

  const WorldTransfer := Transfer(MapWorld, 8, 6, 2)
  const SpaceTransfer := Transfer(MapSpace, 11, 11, 8)

  /** The payload of `joined`. */
  datatype JoinedData = JoinedData(userId: Field)

  /** The payload of `error`. */
  datatype ErrorData = ErrorData(message: Field)

  /** The decoded body of the space tile-list response: whether it carries an
      `error`, and its `tiles` (None when missing or null). */
  datatype TilesResponse = TilesResponse(error: bool, tiles: Option<seq<Tile>>)

  /** The tile list a response queues: `data.tiles || []`. */
  function TilesOf(d: TilesResponse): seq<Tile> {
    if d.tiles.Some? then d.tiles.value else []
  }

  /** The layer a key selects in the tile editor, if any. */
  function LayerForKey(key: string): (z: Option<int>)
    ensures z.Some? <==> key in {"1", "2", "3", "4"}
    ensures z.Some? ==> 0 <= z.value <= 3 && key == [('1' as int + z.value) as char]
  {
    if key == "1" then Some(0)
    else if key == "2" then Some(1)
    else if key == "3" then Some(2)
    else if key == "4" then Some(3)
    else None
  }

  class ExploreClient {
    // state of the plugin
    var otherPlayers: map<string, Entry>
    var myUserId: Field
    var currentGuildId: Option<string>
    var isWorldMap: bool
    var pendingSpaceTiles: Option<seq<Tile>>
    var currentZ: int
    var currentTileId: int
    var hasSocket: bool
    var connected: bool
    /** Everything emitted on the socket, oldest first. */
    var outbox: seq<OutEvent>
    /** Guild ids whose tile list `fetchMapData` requested, oldest first. */
    var tileRequests: seq<string>

    // state of the host engine
    var events: set<int>
    var eventCount: int
    var erased: set<int>
    var tiles: Grid
    /** `$gameMap && typeof $gameMap.setNormalTile === 'function'` */
    var tileApi: bool
    /** The current scene has a spriteset with a tilemap. */
    var spritesetReady: bool
    var mapWidth: int
    var mapHeight: int
    var transfer: Option<Transfer>
    var playerCharacterName: string
    var playerCharacterIndex: Option<int>

    function RegistryState(): Registry
      reads this`otherPlayers, this`events, this`eventCount, this`erased
    {
      Registry(otherPlayers, events, eventCount, erased)
    }

    function Context(): Env
      reads this`myUserId, this`playerCharacterName, this`playerCharacterIndex, this`spritesetReady
    {
      Env(myUserId, FallbackImage(playerCharacterName, playerCharacterIndex), spritesetReady)
    }

    /** The host's event array holds every defined event, so the next index
        is free. */
    predicate Valid()
      reads this`events, this`eventCount
    {
      EventsBelow(Registry(map[], events, eventCount, {}))
    }

    /** The plugin's initial state over a given host map. */
    constructor (mapEvents: set<int>, mapEventCount: int, mapTiles: Grid, hasTileApi: bool,
                 width: int, height: int, playerName: string, playerIndex: Option<int>)
      requires EventsBelow(Registry(map[], mapEvents, mapEventCount, {}))
      ensures Valid()
      ensures otherPlayers == map[] && myUserId == Null && currentGuildId == None && !isWorldMap
      ensures pendingSpaceTiles == None && currentZ == 0 && currentTileId == 0
      ensures !hasSocket && !connected && outbox == [] && tileRequests == []
      ensures events == mapEvents && eventCount == mapEventCount && erased == {} && tiles == mapTiles
      ensures tileApi == hasTileApi && !spritesetReady && transfer == None
      ensures mapWidth == width && mapHeight == height
      ensures playerCharacterName == playerName && playerCharacterIndex == playerIndex
    {
      otherPlayers := map[];
      myUserId := Null;
      currentGuildId := None;
      isWorldMap := false;
      pendingSpaceTiles := None;
      currentZ := 0;
      currentTileId := 0;
      hasSocket := false;
      connected := false;
      outbox := [];
      tileRequests := [];
      events := mapEvents;
      eventCount := mapEventCount;
      erased := {};
      tiles := mapTiles;
      tileApi := hasTileApi;
      spritesetReady := false;
      mapWidth := width;
      mapHeight := height;
      transfer := None;
      playerCharacterName := playerName;
      playerCharacterIndex := playerIndex;
    }

    /** The room chosen at start-up from the `guild_id` query parameter. */
    method ChooseInitialRoom(guildParam: Option<string>)
      modifies this`currentGuildId, this`isWorldMap
      ensures TruthyId(guildParam) ==> currentGuildId == guildParam && !isWorldMap
      ensures !TruthyId(guildParam) ==> currentGuildId == Some(WorldGuild) && isWorldMap
    {
      if TruthyId(guildParam) {
        currentGuildId := guildParam;
        isWorldMap := false;
      } else {
        isWorldMap := true;
        currentGuildId := Some(WorldGuild);
      }
    }

    /** `connectSocket`: once the client library is loaded and a token is
        held, a new socket replaces any earlier one; it is not connected yet. */
    method ConnectSocket(libraryLoaded: bool, hasToken: bool)
      modifies this`hasSocket, this`connected
      ensures hasSocket == (old(hasSocket) || (libraryLoaded && hasToken))
      ensures libraryLoaded && hasToken ==> !connected
      ensures !(libraryLoaded && hasToken) ==> connected == old(connected)
    {
      if !libraryLoaded || !hasToken {
        return;
      }
      hasSocket := true;
      connected := false;
    }

    /** `connect`: (re)joins the current guild, whatever it is at that moment. */
    method OnConnect()
      requires hasSocket
      modifies this`connected, this`outbox
      ensures connected && outbox == old(outbox) + [Join(currentGuildId)]
    {
      connected := true;
      outbox := outbox + [Join(currentGuildId)];
    }

    /** The transport drops; no handler of the plugin runs. */
    method OnTransportLost()
      modifies this`connected
      ensures !connected
    {
      connected := false;
    }

    /** `joined`: records the local user id; a null payload faults. The
        registry is not purged of an entry that now matches the local id. */
    method OnJoined(data: Option<JoinedData>) returns (s: Status)
      modifies this`myUserId
      ensures s == Fault <==> data.None?
      ensures data.Some? ==> myUserId == data.value.userId
      ensures data.None? ==> myUserId == old(myUserId)
    {
      if data.None? {
        return Fault;
      }
      myUserId := data.value.userId;
      return Done;
    }

    /** The host's `createNormalEventAt`: the new event takes the next slot of
        the event array. */
    method CreateNormalEventAt(image: CharImage, x: int, y: int, direction: int) returns (c: Character)
      requires Valid()
      modifies this`events, this`eventCount
      ensures Valid() && old(eventCount) !in old(events)
      ensures c == Character(old(eventCount), x, y, direction, HostMoveSpeed, HostMoveFrequency, image)
      ensures events == old(events) + {old(eventCount)} && eventCount == old(eventCount) + 1
    {
      c := Character(eventCount, x, y, direction, HostMoveSpeed, HostMoveFrequency, image);
      events := events + {eventCount};
      eventCount := eventCount + 1;
    }

    /** `attachSpriteForUserId`: a known entry without a sprite gets one when a
        spriteset exists. */
    method AttachSpriteForUserId(uid: string)
      modifies this`otherPlayers
      ensures uid in old(otherPlayers) && spritesetReady ==>
        otherPlayers == old(otherPlayers)[uid := old(otherPlayers)[uid].(hasSprite := true)]
      ensures !(uid in old(otherPlayers) && spritesetReady) ==> otherPlayers == old(otherPlayers)
    {
      if uid !in otherPlayers || otherPlayers[uid].hasSprite {
        return;
      }
      if !spritesetReady {
        return;
      }
      otherPlayers := otherPlayers[uid := otherPlayers[uid].(hasSprite := true)];
    }

    /** `refreshRemotePlayerSprites`: every entry drops its sprite and gets a
        new one on the current spriteset; nothing else changes. */
    method RefreshRemotePlayerSprites()
      modifies this`otherPlayers
      ensures otherPlayers.Keys == old(otherPlayers).Keys
      ensures forall uid :: uid in otherPlayers ==>
        otherPlayers[uid] == old(otherPlayers)[uid].(hasSprite := spritesetReady)
    {
      var pending := otherPlayers.Keys;
      while pending != {}
        invariant pending <= otherPlayers.Keys == old(otherPlayers).Keys
        invariant forall uid :: uid in otherPlayers && uid !in pending ==>
          otherPlayers[uid] == old(otherPlayers)[uid].(hasSprite := spritesetReady)
        invariant forall uid :: uid in pending ==> otherPlayers[uid] == old(otherPlayers)[uid]
        decreases pending
      {
        var uid :| uid in pending;
        pending := pending - {uid};
        otherPlayers := otherPlayers[uid := otherPlayers[uid].(hasSprite := false)];
        AttachSpriteForUserId(uid);
      }
    }

    /** `spawnPlayer(user)`. */
    method SpawnPlayer(rec: Option<PlayerRecord>)
      requires Valid()
      modifies this`otherPlayers, this`events, this`eventCount
      ensures Valid()
      ensures RegistryState() == Spawn(old(RegistryState()), Context(), rec)
    {
      if rec.None? {
        return;
      }
      var user := rec.value;
      var key := Subject(myUserId, user.userId, user.id);
      if key.None? {
        return;
      }
      var uid := key.value;
      var x := OrDefault(user.x, DefaultCoordinate);
      var y := OrDefault(user.y, DefaultCoordinate);
      var image := FallbackImage(playerCharacterName, playerCharacterIndex);
      if uid !in otherPlayers {
        var character := CreateNormalEventAt(image, x, y, SpawnDirection);
        character := character.(moveSpeed := SpawnMoveSpeed);
        otherPlayers := otherPlayers[uid := Entry(character, false, user.skinId)];
        AttachSpriteForUserId(uid);
      } else {
        var entry := otherPlayers[uid];
        var character := entry.character.(image := image);
        character := character.(x := x, y := y);
        if user.direction.Some? {
          character := SetDirection(character, user.direction.value);
        }
        otherPlayers := otherPlayers[uid := entry.(character := character, skinId := user.skinId)];
        AttachSpriteForUserId(uid);
      }
    }

    /** `movePlayer(data)`, with the host's `moveStraight` succeeding exactly
        when `passable`. */
    method MovePlayer(m: Option<MoveRecord>, passable: bool)
      requires Valid()
      modifies this`otherPlayers, this`events, this`eventCount
      ensures Valid()
      ensures RegistryState() == SpaceRegistry.Move(old(RegistryState()), Context(), m, passable)
    {
      if m.None? {
        return;
      }
      var data := m.value;
      var key := Subject(myUserId, data.userId, data.id);
      if key.None? {
        return;
      }
      var uid := key.value;
      if uid !in otherPlayers {
        SpawnPlayer(Some(SpawnRecord(data)));
      }
      // `if (!entry) return;` never fires: the spawn above always adds `uid`.
      var entry := otherPlayers[uid];
      var character := entry.character.(moveSpeed := data.moveSpeed, moveFrequency := data.moveFrequency);
      character := MoveStraight(character, data.direction, passable);
      if data.x != character.x || data.y != character.y {
        character := character.(x := data.x, y := data.y);
      }
      otherPlayers := otherPlayers[uid := entry.(character := character)];
      AttachSpriteForUserId(uid);
    }

    /** `removePlayer(userId)`. */
    method RemovePlayer(uid: string) returns (s: Status)
      modifies this`otherPlayers, this`erased
      ensures (s, RegistryState()) == Remove(old(RegistryState()), uid)
    {
      if uid == "" {
        return Done;
      }
      if uid !in otherPlayers {
        return Fault;
      }
      var entry := otherPlayers[uid];
      if entry.character.eventId !in events {
        return Done;
      }
      erased := erased + {entry.character.eventId};
      otherPlayers := otherPlayers - {uid};
      return Done;
    }

    /** `clearOtherPlayers`: walks the keys; an entry whose event is no longer
        defined is skipped, any other has its event erased and is deleted. */
    method ClearOtherPlayers()
      modifies this`otherPlayers, this`erased
      ensures RegistryState() == Cleared(old(RegistryState()))
    {
      ghost var r0 := RegistryState();
      var keys := otherPlayers.Keys;
      while keys != {}
        invariant keys <= r0.players.Keys
        invariant otherPlayers == map uid | uid in r0.players && (uid in keys || !Live(r0, uid)) :: r0.players[uid]
        invariant erased == r0.erased +
          set uid | uid in r0.players && uid !in keys && Live(r0, uid) :: r0.players[uid].character.eventId
        decreases keys
      {
        var uid :| uid in keys;
        keys := keys - {uid};
        var entry := otherPlayers[uid];
        if entry.character.eventId !in events {
          continue;
        }
        erased := erased + {entry.character.eventId};
        otherPlayers := otherPlayers - {uid};
      }
    }

    /** `room_state`. */
    method OnRoomState(data: Option<RoomStateData>)
      requires Valid()
      modifies this`otherPlayers, this`events, this`eventCount, this`erased
      ensures Valid()
      ensures RegistryState() == RoomState(old(RegistryState()), Context(), currentGuildId, data)
    {
      if data.None? || JsString(data.value.guildId) != IdString(currentGuildId) {
        return;
      }
      ClearOtherPlayers();
      SpawnPlayers(PlayersOf(data.value));
    }

    /** The `room_state` loop: spawns every listed player in order. */
    method SpawnPlayers(players: seq<Option<PlayerRecord>>)
      requires Valid()
      modifies this`otherPlayers, this`events, this`eventCount
      ensures Valid()
      ensures RegistryState() == SpawnAll(old(RegistryState()), Context(), players)
    {
      ghost var start := RegistryState();
      var i := 0;
      while i < |players|
        invariant 0 <= i <= |players|
        invariant Valid()
        invariant RegistryState() == SpawnAll(start, Context(), players[..i])
      {
        SpawnPlayer(players[i]);
        assert players[..i + 1][..i] == players[..i];
        i := i + 1;
      }
      assert players[..i] == players;
    }

    /** `user_joined`. */
    method OnUserJoined(data: Option<PlayerRecord>)
      requires Valid()
      modifies this`otherPlayers, this`events, this`eventCount
      ensures Valid()
      ensures RegistryState() == Spawn(old(RegistryState()), Context(), data)
    {
      SpawnPlayer(data);
    }

    /** `user_left`. */
    method OnUserLeft(data: Option<LeftData>) returns (s: Status)
      modifies this`otherPlayers, this`erased
      ensures (s, RegistryState()) == UserLeft(old(RegistryState()), data)
    {
      if data.None? {
        return Done;
      }
      var uid := Coalesce(data.value.userId, data.value.id);
      if !uid.Str? {
        return Done;
      }
      s := RemovePlayer(uid.s);
    }

    /** `user_moved`. */
    method OnUserMoved(data: Option<MoveRecord>, passable: bool)
      requires Valid()
      modifies this`otherPlayers, this`events, this`eventCount
      ensures Valid()
      ensures RegistryState() == SpaceRegistry.Move(old(RegistryState()), Context(), data, passable)
    {
      MovePlayer(data, passable);
    }

    /** `skin_changed` (the skin id only; the character image is not re-resolved). */
    method OnSkinChanged(data: Option<SkinChangedData>)
      modifies this`otherPlayers
      ensures RegistryState() == ChangeSkin(old(RegistryState()), Context(), currentGuildId, data)
    {
      if data.None? || JsString(data.value.guildId) != IdString(currentGuildId) {
        return;
      }
      var uid := JsString(data.value.userId);
      if uid == "" || IsSelf(myUserId, uid) {
        return;
      }
      if uid !in otherPlayers {
        return;
      }
      otherPlayers := otherPlayers[uid := otherPlayers[uid].(skinId := data.value.skinId)];
    }

    /** `fetchMapData`: in a space, requests the space's tile list (the reply
        arrives later, as `OnSpaceTilesFetched`); in the world, requests none. */
    method FetchMapData()
      modifies this`tileRequests
      ensures tileRequests == old(tileRequests) + (if isWorldMap then [] else [IdString(currentGuildId)])
    {
      if isWorldMap {
        return;
      }
      tileRequests := tileRequests + [IdString(currentGuildId)];
    }

    /** `decideMapToLoad`: reserves the transfer for the current kind of room
        and fetches its data. */
    method DecideMapToLoad()
      modifies this`transfer, this`tileRequests
      ensures transfer == Some(if isWorldMap then WorldTransfer else SpaceTransfer)
      ensures tileRequests == old(tileRequests) + (if isWorldMap then [] else [IdString(currentGuildId)])
    {
      if isWorldMap {
        transfer := Some(WorldTransfer);
      } else {
        transfer := Some(SpaceTransfer);
      }
      FetchMapData();
    }

    /** `error`: "Membership required" sends the client back to the world,
        without a `leave` or a `join`; any other message changes nothing; a
        null payload faults. */
    method OnError(data: Option<ErrorData>) returns (s: Status)
      modifies this`currentGuildId, this`isWorldMap, this`transfer, this`tileRequests
      ensures s == Fault <==> data.None?
      ensures data.Some? && data.value.message == Str(MembershipRequired) ==>
        currentGuildId == Some(WorldGuild) && isWorldMap && transfer == Some(WorldTransfer)
      ensures !(data.Some? && data.value.message == Str(MembershipRequired)) ==>
        currentGuildId == old(currentGuildId) && isWorldMap == old(isWorldMap) && transfer == old(transfer)
      ensures tileRequests == old(tileRequests)
    {
      if data.None? {
        return Fault;
      }
      if data.value.message == Str(MembershipRequired) {
        currentGuildId := Some(WorldGuild);
        isWorldMap := true;
        DecideMapToLoad();
      }
      return Done;
    }

    /** `applySpaceTiles`: writes the queued tiles in order and empties the
        queue; without a queue or without the tile API it does nothing. */
    method ApplySpaceTiles()
      modifies this`tiles, this`pendingSpaceTiles
      ensures old(pendingSpaceTiles).None? || !tileApi ==>
        tiles == old(tiles) && pendingSpaceTiles == old(pendingSpaceTiles)
      ensures old(pendingSpaceTiles).Some? && tileApi ==>
        tiles == ApplyTiles(old(tiles), old(pendingSpaceTiles).value) && pendingSpaceTiles == None
    {
      if pendingSpaceTiles.None? || !tileApi {
        return;
      }
      var queued := pendingSpaceTiles.value;
      ghost var start := tiles;
      var i := 0;
      while i < |queued|
        invariant 0 <= i <= |queued|
        invariant tiles == ApplyTiles(start, queued[..i])
      {
        ApplyTilesStep(start, queued, i);
        tiles := SetTile(tiles, queued[i]);
        i := i + 1;
      }
      assert queued[..i] == queued;
      pendingSpaceTiles := None;
    }

    /** The reply to the tile-list request: queues `tiles || []` and applies it
        at once when the tile API is there. The reply is not checked against
        the guild that is current when it arrives. */
    method OnSpaceTilesFetched(data: TilesResponse)
      modifies this`tiles, this`pendingSpaceTiles
      ensures data.error ==> tiles == old(tiles) && pendingSpaceTiles == old(pendingSpaceTiles)
      ensures !data.error && tileApi ==> tiles == ApplyTiles(old(tiles), TilesOf(data)) && pendingSpaceTiles == None
      ensures !data.error && !tileApi ==> tiles == old(tiles) && pendingSpaceTiles == Some(TilesOf(data))
    {
      if data.error {
        return;
      }
      pendingSpaceTiles := Some(TilesOf(data));
      if tileApi {
        ApplySpaceTiles();
      }
    }

    /** `map_edited`: written at once when the tile API is there, otherwise
        dropped (not queued). The payload's guild id is not consulted. */
    method OnMapEdited(data: Option<Tile>) returns (s: Status)
      modifies this`tiles
      ensures s == Fault <==> tileApi && data.None?
      ensures tileApi && data.Some? ==> tiles == SetTile(old(tiles), data.value)
      ensures !(tileApi && data.Some?) ==> tiles == old(tiles)
    {
      if !tileApi {
        return Done;
      }
      if data.None? {
        return Fault;
      }
      tiles := SetTile(tiles, data.value);
      return Done;
    }

    /** The map scene finished loading and built a spriteset. When the host set
        the map up again (`setUp`: a transfer to another map), the map's events
        and tiles are the new map's; otherwise (say, back from the menu) they
        stay as they were, erased events included. Then the queued tiles are
        applied and every remote player gets a sprite again. The registry
        keeps its entries. */
    method OnMapLoaded(setUp: bool, mapEvents: set<int>, mapEventCount: int, mapTiles: Grid)
      requires setUp ==> EventsBelow(Registry(map[], mapEvents, mapEventCount, {}))
      requires !setUp ==> Valid()
      modifies this`events, this`eventCount, this`erased, this`tiles, this`spritesetReady,
               this`transfer, this`pendingSpaceTiles, this`otherPlayers
      ensures Valid()
      ensures setUp ==> events == mapEvents && eventCount == mapEventCount && erased == {}
      ensures !setUp ==> events == old(events) && eventCount == old(eventCount) && erased == old(erased)
      ensures spritesetReady && transfer == None
      ensures old(pendingSpaceTiles).Some? && tileApi ==>
        tiles == ApplyTiles(if setUp then mapTiles else old(tiles), old(pendingSpaceTiles).value) &&
        pendingSpaceTiles == None
      ensures !(old(pendingSpaceTiles).Some? && tileApi) ==>
        tiles == (if setUp then mapTiles else old(tiles)) && pendingSpaceTiles == old(pendingSpaceTiles)
      ensures otherPlayers.Keys == old(otherPlayers).Keys
      ensures forall uid :: uid in otherPlayers ==> otherPlayers[uid] == old(otherPlayers)[uid].(hasSprite := true)
    {
      if setUp {
        events, eventCount, erased := mapEvents, mapEventCount, {};
        tiles := mapTiles;
      }
      spritesetReady := true;
      transfer := None;
      ApplySpaceTiles();
      RefreshRemotePlayerSprites();
    }

    /** `leaveSpace`: leaves the current room when connected, switches to the
        world, drops the queued tiles and joins the world room when connected.
        The registry is left as it is. */
    method LeaveSpace()
      modifies this`outbox, this`currentGuildId, this`isWorldMap, this`pendingSpaceTiles,
               this`transfer, this`tileRequests
      ensures currentGuildId == Some(WorldGuild) && isWorldMap && pendingSpaceTiles == None
      ensures transfer == Some(WorldTransfer) && tileRequests == old(tileRequests)
      ensures outbox == old(outbox)
        + (if hasSocket && connected && TruthyId(old(currentGuildId)) then [Leave(old(currentGuildId))] else [])
        + (if hasSocket && connected then [Join(Some(WorldGuild))] else [])
    {
      if hasSocket && connected && TruthyId(currentGuildId) {
        outbox := outbox + [Leave(currentGuildId)];
      }
      currentGuildId := Some(WorldGuild);
      isWorldMap := true;
      pendingSpaceTiles := None;
      transfer := Some(WorldTransfer);
      FetchMapData();
      if hasSocket && connected {
        outbox := outbox + [Join(currentGuildId)];
      }
    }

    /** `connectToSpace(guildId)`: a falsy id does nothing; otherwise leaves
        the current room when connected, switches to the space, requests its
        tiles and joins it when connected. The registry is left as it is. */
    method ConnectToSpace(guildId: Option<string>)
      modifies this`outbox, this`currentGuildId, this`isWorldMap, this`transfer, this`tileRequests
      ensures !TruthyId(guildId) ==>
        outbox == old(outbox) && currentGuildId == old(currentGuildId) && isWorldMap == old(isWorldMap)
        && transfer == old(transfer) && tileRequests == old(tileRequests)
      ensures TruthyId(guildId) ==>
        && currentGuildId == guildId && !isWorldMap && transfer == Some(SpaceTransfer)
        && tileRequests == old(tileRequests) + [guildId.value]
        && outbox == old(outbox)
             + (if hasSocket && connected && TruthyId(old(currentGuildId)) then [Leave(old(currentGuildId))] else [])
             + (if hasSocket && connected then [Join(guildId)] else [])
    {
      if !TruthyId(guildId) {
        return;
      }
      if hasSocket && connected && TruthyId(currentGuildId) {
        outbox := outbox + [Leave(currentGuildId)];
      }
      currentGuildId := guildId;
      isWorldMap := false;
      transfer := Some(SpaceTransfer);
      FetchMapData();
      if hasSocket && connected {
        outbox := outbox + [Join(currentGuildId)];
      }
    }

    /** The host's `isValid(x, y)`: inside the map. */
    predicate IsValid(x: int, y: int)
      reads this`mapWidth, this`mapHeight
    {
      0 <= x < mapWidth && 0 <= y < mapHeight
    }

    /** `placeTile(x, y)`: writes the current tile on the current layer and
        emits the edit whenever a socket exists (connected or not). The tile
        API is called unchecked, so without it the call faults first. */
    method PlaceTile(x: int, y: int) returns (s: Status)
      modifies this`tiles, this`outbox
      ensures s == Fault <==> IsValid(x, y) && !tileApi
      ensures !(IsValid(x, y) && tileApi) ==> tiles == old(tiles) && outbox == old(outbox)
      ensures IsValid(x, y) && tileApi ==> tiles == SetTile(old(tiles), Tile(x, y, currentZ, currentTileId))
      ensures IsValid(x, y) && tileApi ==>
        outbox == old(outbox) + (if hasSocket then [EditMap(currentGuildId, x, y, currentZ, currentTileId)] else [])
    {
      if !IsValid(x, y) {
        return Done;
      }
      if !tileApi {
        return Fault;
      }
      tiles := SetTile(tiles, Tile(x, y, currentZ, currentTileId));
      if hasSocket {
        outbox := outbox + [EditMap(currentGuildId, x, y, currentZ, currentTileId)];
      }
      s := Done;
    }

    /** `pickTile(x, y)`: the current tile becomes the one on the current layer. */
    method PickTile(x: int, y: int)
      modifies this`currentTileId
      ensures IsValid(x, y) ==> currentTileId == TileAt(tiles, (x, y, currentZ))
      ensures !IsValid(x, y) ==> currentTileId == old(currentTileId)
    {
      if !IsValid(x, y) {
        return;
      }
      currentTileId := TileAt(tiles, (x, y, currentZ));
    }

    /** The key handler: keys 1 to 4 select layers 0 to 3. */
    method OnKey(key: string)
      modifies this`currentZ
      ensures LayerForKey(key).Some? ==> currentZ == LayerForKey(key).value
      ensures LayerForKey(key).None? ==> currentZ == old(currentZ)
    {
      if key == "1" { currentZ := 0; }
      if key == "2" { currentZ := 1; }
      if key == "3" { currentZ := 2; }
      if key == "4" { currentZ := 3; }
    }

    /** The emission of `moveByInput` after the local player moved: `socket.emit`
        without a null check, so it faults when no socket exists. */
    method ReportLocalMove(direction: int, x: int, y: int, moveSpeed: int, moveFrequency: int) returns (s: Status)
      modifies this`outbox
      ensures s == Fault <==> direction > 0 && !hasSocket
      ensures direction > 0 && hasSocket ==>
        outbox == old(outbox) + [Move(currentGuildId, direction, x, y, moveSpeed, moveFrequency)]
      ensures !(direction > 0 && hasSocket) ==> outbox == old(outbox)
    {
      if direction <= 0 {
        return Done;
      }
      if !hasSocket {
        return Fault;
      }
      outbox := outbox + [Move(currentGuildId, direction, x, y, moveSpeed, moveFrequency)];
      return Done;
    }

    /** After the skin was saved on the server: announce it when connected. */
    method OnSkinSaved(skinId: string)
      modifies this`outbox
      ensures outbox == old(outbox) + (if hasSocket && connected then [SkinChange(currentGuildId, skinId)] else [])
    {
      if hasSocket && connected {
        outbox := outbox + [SkinChange(currentGuildId, skinId)];
      }
    }
  }
}
