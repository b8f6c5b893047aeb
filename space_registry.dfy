/** The remote-player registry of the space client (`otherPlayers` in
    js/plugins/DiscordExplore.js) together with the part of the host map it
    touches: the events that stand for remote players. Everything here is a
    value; `Explore.ExploreClient` updates its fields to match these functions. */
module SpaceRegistry {
  import opened JsValues

  /** Directions as the host numbers them. */
  const Down := 2
  const Left := 4
  const Right := 6
  const Up := 8

  /** A spawned remote player faces up and walks at speed 4 (the event itself is
      created with the host's page defaults and the speed is then overwritten). */
  const SpawnDirection := 8
  const SpawnMoveSpeed := 4
  /** Coordinate used when a player record carries none. */
  const DefaultCoordinate := 11
  /** Host defaults of a freshly created event page. */
  const HostMoveSpeed := 3
  const HostMoveFrequency := 3

  /** A character sheet: file name and index within it. */
  datatype CharImage = CharImage(name: string, index: int)

  /** The state of a remote player's host character that the client sets. */
  datatype Character = Character(eventId: int, x: int, y: int, direction: int,
                                 moveSpeed: int, moveFrequency: int, image: CharImage)

  /** One value of `otherPlayers`: the character, whether a sprite is attached,
      and the skin id. */
  datatype Entry = Entry(character: Character, hasSprite: bool, skinId: Option<string>)

  /** A player record, as in `user_joined` and in the list of `room_state`. */
  datatype PlayerRecord = PlayerRecord(userId: Field, id: Field, x: Option<int>, y: Option<int>,
                                       direction: Option<int>, skinId: Option<string>)

  /** The payload of `user_moved`. */
  datatype MoveRecord = MoveRecord(userId: Field, id: Field, direction: int, x: int, y: int,
                                   moveSpeed: int, moveFrequency: int)

  /** The payload of `room_state`; `players` is None when the field is not an array. */
  datatype RoomStateData = RoomStateData(guildId: Field, players: Option<seq<Option<PlayerRecord>>>)

  /** The payload of `skin_changed`. */
  datatype SkinChangedData = SkinChangedData(guildId: Field, userId: Field, skinId: Option<string>)

  /** The payload of `user_left`. */
  datatype LeftData = LeftData(userId: Field, id: Field)

  /** What registry operations read and write: the registry itself, the ids of
      the events defined on the host map, the length of the host's event array
      (the id the next created event gets) and the events erased so far. */
  datatype Registry = Registry(players: map<string, Entry>, events: set<int>,
                               eventCount: int, erased: set<int>)

  /** Every defined event has an index into the host's event array, so the
      next index (`eventCount`) is not in use. */
  predicate EventsBelow(r: Registry) {
    0 <= r.eventCount && forall e :: e in r.events ==> 0 <= e < r.eventCount
  }

  /** What the handlers read and never change: the local user id as received in
      `joined`, the fallback character image, and whether a map spriteset exists. */
  datatype Env = Env(me: Field, image: CharImage, spritesetReady: bool)

  /** The character image every remote player gets: the local player's own
      sheet, or "Actor1" / index 0 when the local player has none. The skin id
      is not consulted: there is no skin-to-sheet mapping. */
  function FallbackImage(playerName: string, playerIndex: Option<int>): (img: CharImage)
    ensures img.name != ""
    ensures playerName != "" ==> img.name == playerName
    ensures playerName == "" ==> img.name == "Actor1"
    ensures playerIndex.Some? ==> img.index == playerIndex.value
    ensures playerIndex.None? ==> img.index == 0
  {
    CharImage(if playerName != "" then playerName else "Actor1",
              if playerIndex.Some? then playerIndex.value else 0)
  }

  /** The local user: a truthy `myUserId` equal to the id. */
  predicate IsSelf(me: Field, uid: string) {
    Truthy(me) && uid == me.s
  }

  /** The registry key an event acts on (`user_id ?? id`, as a string), or
      None when the event is dropped: no id at all, or the local user. */
  function Subject(me: Field, userId: Field, id: Field): (k: Option<string>)
    ensures k.Some? <==> Coalesce(userId, id).Str? && !IsSelf(me, Coalesce(userId, id).s)
    ensures k.Some? ==> k.value == JsString(Coalesce(userId, id))
  {
    var f := Coalesce(userId, id);
    if f.Str? && !IsSelf(me, f.s) then Some(f.s) else None
  }

  /** The key `spawnPlayer` acts on for one record of a list. */
  function Admitted(me: Field, rec: Option<PlayerRecord>): Option<string> {
    if rec.None? then None else Subject(me, rec.value.userId, rec.value.id)
  }

  function OrDefault(v: Option<int>, d: int): int {
    if v.Some? then v.value else d
  }

  /** The host's `setDirection`: a zero direction is ignored. */
  function SetDirection(c: Character, d: int): (c': Character)
    ensures d != 0 ==> c'.direction == d
    ensures d == 0 ==> c' == c
    ensures c' == c.(direction := c'.direction)
  {
    if d != 0 then c.(direction := d) else c
  }

  /** The host's `moveStraight(d)`: the character turns to `d`; when the host
      finds the way passable it also advances one tile. */
  function MoveStraight(c: Character, d: int, passable: bool): (c': Character)
    ensures c'.eventId == c.eventId && c'.moveSpeed == c.moveSpeed
    ensures c'.moveFrequency == c.moveFrequency && c'.image == c.image
    ensures d != 0 ==> c'.direction == d
    ensures d == 0 ==> c'.direction == c.direction
    ensures !passable ==> c'.x == c.x && c'.y == c.y
    ensures -1 <= c'.x - c.x <= 1 && -1 <= c'.y - c.y <= 1
  {
    var turned := SetDirection(c, d);
    if !passable then turned
    else turned.(x := c.x + (if d == Right then 1 else if d == Left then -1 else 0),
                 y := c.y + (if d == Down then 1 else if d == Up then -1 else 0))
  }

  /** No entry stands for the local user. */
  ghost predicate SelfFree(players: map<string, Entry>, me: Field) {
    forall uid :: uid in players ==> !IsSelf(me, uid)
  }

  /** `spawnPlayer(user)`: create-or-update the entry for the record's id. */
  function Spawn(r: Registry, env: Env, rec: Option<PlayerRecord>): (r': Registry)
    // dropped records change nothing
    ensures Admitted(env.me, rec).None? ==> r' == r
    ensures r'.erased == r.erased
    ensures EventsBelow(r) ==> EventsBelow(r')
    ensures Admitted(env.me, rec).Some? ==>
      var uid := Admitted(env.me, rec).value;
      && r'.players.Keys == r.players.Keys + {uid}
      && (forall k :: k in r.players && k != uid ==> r'.players[k] == r.players[k])
      && r'.players[uid].skinId == rec.value.skinId
      && r'.players[uid].character.x == OrDefault(rec.value.x, DefaultCoordinate)
      && r'.players[uid].character.y == OrDefault(rec.value.y, DefaultCoordinate)
      && r'.players[uid].character.image == env.image
      && (env.spritesetReady ==> r'.players[uid].hasSprite)
    // an id already present keeps its host event and creates none
    ensures Admitted(env.me, rec).Some? && Admitted(env.me, rec).value in r.players ==>
      var uid := Admitted(env.me, rec).value;
      && r'.events == r.events && r'.eventCount == r.eventCount
      && r'.players[uid].character.eventId == r.players[uid].character.eventId
      && r'.players[uid].character.moveSpeed == r.players[uid].character.moveSpeed
      && r'.players[uid].character.moveFrequency == r.players[uid].character.moveFrequency
      && r'.players[uid].hasSprite == (r.players[uid].hasSprite || env.spritesetReady)
      && (rec.value.direction.Some? && rec.value.direction.value != 0 ==>
            r'.players[uid].character.direction == rec.value.direction.value)
      && (rec.value.direction.None? || rec.value.direction.value == 0 ==>
            r'.players[uid].character.direction == r.players[uid].character.direction)
    // a new id gets exactly one new host event, facing up at speed 4
    ensures Admitted(env.me, rec).Some? && Admitted(env.me, rec).value !in r.players ==>
      var uid := Admitted(env.me, rec).value;
      && r'.events == r.events + {r.eventCount} && r'.eventCount == r.eventCount + 1
      && r'.players[uid].character.eventId == r.eventCount
      && (EventsBelow(r) ==> r.eventCount !in r.events)
      && r'.players[uid].character.direction == SpawnDirection
      && r'.players[uid].character.moveSpeed == SpawnMoveSpeed
      && r'.players[uid].character.moveFrequency == HostMoveFrequency
      && r'.players[uid].hasSprite == env.spritesetReady
  {
    match Admitted(env.me, rec)
    case None => r
    case Some(uid) =>
      var p := rec.value;
      var x := OrDefault(p.x, DefaultCoordinate);
      var y := OrDefault(p.y, DefaultCoordinate);
      if uid !in r.players then
        var created := Character(r.eventCount, x, y, SpawnDirection, HostMoveSpeed, HostMoveFrequency, env.image);
        var c := created.(moveSpeed := SpawnMoveSpeed);
        r.(players := r.players[uid := Entry(c, env.spritesetReady, p.skinId)],
           events := r.events + {r.eventCount},
           eventCount := r.eventCount + 1)
      else
        var e := r.players[uid];
        var located := e.character.(image := env.image, x := x, y := y);
        var c := if p.direction.Some? then SetDirection(located, p.direction.value) else located;
        r.(players := r.players[uid := Entry(c, e.hasSprite || env.spritesetReady, p.skinId)])
  }

  /** The ids a list of records spawns. */
  ghost function AdmittedIds(me: Field, ps: seq<Option<PlayerRecord>>): set<string> {
    set i | 0 <= i < |ps| && Admitted(me, ps[i]).Some? :: Admitted(me, ps[i]).value
  }

  /** `for (const p of players) spawnPlayer(p)`. */
  function SpawnAll(r: Registry, env: Env, ps: seq<Option<PlayerRecord>>): (r': Registry)
    decreases |ps|
    ensures r'.players.Keys == r.players.Keys + AdmittedIds(env.me, ps)
    ensures forall k :: k in r.players && k !in AdmittedIds(env.me, ps) ==> r'.players[k] == r.players[k]
    ensures r'.events >= r.events && r'.erased == r.erased
    ensures EventsBelow(r) ==> EventsBelow(r')
    ensures SelfFree(r.players, env.me) ==> SelfFree(r'.players, env.me)
  {
    if ps == [] then r
    else
      var front := ps[..|ps| - 1];
      var last := ps[|ps| - 1];
      assert AdmittedIds(env.me, ps) == AdmittedIds(env.me, front) +
        (if Admitted(env.me, last).Some? then {Admitted(env.me, last).value} else {}) by {
        forall i | 0 <= i < |front| ensures front[i] == ps[i] { }
      }
      Spawn(SpawnAll(r, env, front), env, last)
  }

  /** The last record of `ps` that spawns key `k`, if any. */
  function LastRecord(me: Field, ps: seq<Option<PlayerRecord>>, k: string): (w: Option<PlayerRecord>)
    decreases |ps|
    ensures w.Some? <==> k in AdmittedIds(me, ps)
    ensures w.Some? ==> exists i :: 0 <= i < |ps| && ps[i] == Some(w.value) && Admitted(me, ps[i]) == Some(k) &&
                                    forall j :: i < j < |ps| ==> Admitted(me, ps[j]) != Some(k)
  {
    if ps == [] then None
    else
      var front := ps[..|ps| - 1];
      var last := ps[|ps| - 1];
      AdmittedIdsSnoc(me, front, last);
      assert ps == front + [last];
      if Admitted(me, last) == Some(k) then Some(last.value)
      else
        var w := LastRecord(me, front, k);
        assert forall i :: 0 <= i < |front| ==> front[i] == ps[i];
        w
  }

  /** The ids of a list extended by one record. */
  lemma AdmittedIdsSnoc(me: Field, front: seq<Option<PlayerRecord>>, last: Option<PlayerRecord>)
    ensures AdmittedIds(me, front + [last]) ==
      AdmittedIds(me, front) + (if Admitted(me, last).Some? then {Admitted(me, last).value} else {})
  {
    var ps := front + [last];
    forall i | 0 <= i < |front| ensures ps[i] == front[i] { }
    assert ps[|front|] == last;
  }

  /** After a list is spawned, each listed id holds the skin and position
      (11 when absent) of the last record naming it, and the fallback image,
      whether its entry was new or already there. */
  lemma {:induction false} SpawnAllEntries(r: Registry, env: Env, ps: seq<Option<PlayerRecord>>, k: string)
    requires k in AdmittedIds(env.me, ps)
    ensures var rec := LastRecord(env.me, ps, k).value;
      var e := SpawnAll(r, env, ps).players[k];
      && e.skinId == rec.skinId
      && e.character.x == OrDefault(rec.x, DefaultCoordinate)
      && e.character.y == OrDefault(rec.y, DefaultCoordinate)
      && e.character.image == env.image
    decreases |ps|
  {
    var front := ps[..|ps| - 1];
    var last := ps[|ps| - 1];
    assert ps == front + [last];
    AdmittedIdsSnoc(env.me, front, last);
    if Admitted(env.me, last) != Some(k) {
      SpawnAllEntries(r, env, front, k);
    }
  }

  /** The entry's host event is still defined (`_events[id] !== undefined`). */
  predicate Live(r: Registry, uid: string)
    requires uid in r.players
  {
    r.players[uid].character.eventId in r.events
  }

  /** `clearOtherPlayers`: entries whose event is still defined are erased and
      deleted; entries whose event is gone are skipped and stay. */
  function Cleared(r: Registry): (r': Registry)
    ensures r'.events == r.events && r'.eventCount == r.eventCount && r.erased <= r'.erased
    ensures forall uid :: uid in r.players ==> (uid in r'.players <==> !Live(r, uid))
    ensures forall uid :: uid in r'.players ==> uid in r.players && r'.players[uid] == r.players[uid]
    ensures forall uid :: uid in r.players && Live(r, uid) ==> r.players[uid].character.eventId in r'.erased
    ensures forall e :: e in r'.erased - r.erased ==> exists uid :: uid in r.players && Live(r, uid) && r.players[uid].character.eventId == e
  {
    r.(players := map uid | uid in r.players && !Live(r, uid) :: r.players[uid],
       erased := r.erased + set uid | uid in r.players && Live(r, uid) :: r.players[uid].character.eventId)
  }

  /** The player list of a `room_state` payload (`[]` when not an array). */
  function PlayersOf(d: RoomStateData): seq<Option<PlayerRecord>> {
    if d.players.Some? then d.players.value else []
  }

  /** The `room_state` handler: ignored unless the payload's guild id, as a
      string, equals the current guild id as a string. */
  function RoomState(r: Registry, env: Env, current: Option<string>, data: Option<RoomStateData>): (r': Registry)
    ensures data.None? || JsString(data.value.guildId) != IdString(current) ==> r' == r
    ensures EventsBelow(r) ==> EventsBelow(r')
    ensures data.Some? && JsString(data.value.guildId) == IdString(current) ==>
      && r'.players.Keys ==
           (set uid | uid in r.players && !Live(r, uid)) + AdmittedIds(env.me, PlayersOf(data.value))
      && (forall uid :: uid in r.players && !Live(r, uid) && uid !in AdmittedIds(env.me, PlayersOf(data.value))
            ==> r'.players[uid] == r.players[uid])
      && (forall uid :: uid in r.players && Live(r, uid) ==> r.players[uid].character.eventId in r'.erased)
  {
    if data.None? || JsString(data.value.guildId) != IdString(current) then r
    else SpawnAll(Cleared(r), env, PlayersOf(data.value))
  }

  /** A `room_state` for the current guild leaves each listed player with the
      skin and position of its last record in the list. */
  lemma RoomStateEntries(r: Registry, env: Env, current: Option<string>, d: RoomStateData, k: string)
    requires JsString(d.guildId) == IdString(current) && k in AdmittedIds(env.me, PlayersOf(d))
    ensures var rec := LastRecord(env.me, PlayersOf(d), k).value;
      var e := RoomState(r, env, current, Some(d)).players[k];
      && e.skinId == rec.skinId
      && e.character.x == OrDefault(rec.x, DefaultCoordinate)
      && e.character.y == OrDefault(rec.y, DefaultCoordinate)
      && e.character.image == env.image
  {
    SpawnAllEntries(Cleared(r), env, PlayersOf(d), k);
  }

  /** The record `movePlayer` hands to `spawnPlayer` for an unknown user. */
  function SpawnRecord(m: MoveRecord): PlayerRecord {
    PlayerRecord(m.userId, m.id, Some(m.x), Some(m.y), Some(m.direction), None)
  }

  /** `movePlayer(data)`: spawn when unknown, set speed and frequency, take one
      host step in `direction`, then put the character at the event's (x, y). */
  function Move(r: Registry, env: Env, m: Option<MoveRecord>, passable: bool): (r': Registry)
    ensures m.None? || Subject(env.me, m.value.userId, m.value.id).None? ==> r' == r
    ensures r'.erased == r.erased
    ensures EventsBelow(r) ==> EventsBelow(r')
    ensures m.Some? && Subject(env.me, m.value.userId, m.value.id).Some? ==>
      var uid := Subject(env.me, m.value.userId, m.value.id).value;
      && r'.players.Keys == r.players.Keys + {uid}
      && (forall k :: k in r.players && k != uid ==> r'.players[k] == r.players[k])
      && r'.players[uid].character.x == m.value.x
      && r'.players[uid].character.y == m.value.y
      && r'.players[uid].character.moveSpeed == m.value.moveSpeed
      && r'.players[uid].character.moveFrequency == m.value.moveFrequency
      && (m.value.direction != 0 ==> r'.players[uid].character.direction == m.value.direction)
      && (uid in r.players ==>
            && r'.events == r.events && r'.eventCount == r.eventCount
            && r'.players[uid].skinId == r.players[uid].skinId
            && r'.players[uid].character.eventId == r.players[uid].character.eventId
            && r'.players[uid].character.image == r.players[uid].character.image
            && r'.players[uid].hasSprite == (r.players[uid].hasSprite || env.spritesetReady)
            && (m.value.direction == 0 ==>
                  r'.players[uid].character.direction == r.players[uid].character.direction))
      && (uid !in r.players ==>
            && r'.events == r.events + {r.eventCount}
            && r'.players[uid].character.eventId == r.eventCount
            && (EventsBelow(r) ==> r.eventCount !in r.events)
            && r'.players[uid].skinId.None?
            && r'.players[uid].character.image == env.image
            && r'.players[uid].hasSprite == env.spritesetReady
            && (m.value.direction == 0 ==> r'.players[uid].character.direction == SpawnDirection))
  {
    if m.None? then r
    else match Subject(env.me, m.value.userId, m.value.id)
      case None => r
      case Some(uid) =>
        var d := m.value;
        var r1 := if uid in r.players then r else Spawn(r, env, Some(SpawnRecord(d)));
        var e := r1.players[uid];
        var paced := e.character.(moveSpeed := d.moveSpeed, moveFrequency := d.moveFrequency);
        var stepped := MoveStraight(paced, d.direction, passable);
        var c := if d.x != stepped.x || d.y != stepped.y then stepped.(x := d.x, y := d.y) else stepped;
        r1.(players := r1.players[uid := Entry(c, e.hasSprite || env.spritesetReady, e.skinId)])
  }

  /** The `skin_changed` handler's registry effect: only the skin id of a known
      remote user of the current guild changes. */
  function ChangeSkin(r: Registry, env: Env, current: Option<string>, data: Option<SkinChangedData>): (r': Registry)
    ensures r'.events == r.events && r'.eventCount == r.eventCount && r'.erased == r.erased
    ensures r'.players.Keys == r.players.Keys
    ensures forall k :: k in r.players ==>
      r'.players[k].character == r.players[k].character && r'.players[k].hasSprite == r.players[k].hasSprite
    ensures r' != r ==>
      && data.Some? && JsString(data.value.guildId) == IdString(current)
      && var uid := JsString(data.value.userId);
         && uid != "" && uid in r.players && !IsSelf(env.me, uid)
         && r'.players[uid].skinId == data.value.skinId
         && (forall k :: k in r.players && k != uid ==> r'.players[k] == r.players[k])
    ensures data.Some? && JsString(data.value.guildId) == IdString(current) &&
            JsString(data.value.userId) != "" && JsString(data.value.userId) in r.players && !IsSelf(env.me, JsString(data.value.userId)) ==>
            r'.players[JsString(data.value.userId)].skinId == data.value.skinId
  {
    if data.None? || JsString(data.value.guildId) != IdString(current) then r
    else
      var uid := JsString(data.value.userId);
      if uid == "" || IsSelf(env.me, uid) || uid !in r.players then r
      else r.(players := r.players[uid := r.players[uid].(skinId := data.value.skinId)])
  }

  /** `removePlayer(userId)`: an empty id returns; an id with no entry faults
      (`entry.character` of `undefined`); an entry whose event is gone stays;
      otherwise its event is erased and the entry deleted. */
  function Remove(r: Registry, uid: string): (res: (Status, Registry))
    ensures res.0 == Fault <==> uid != "" && uid !in r.players
    ensures res.0 == Fault ==> res.1 == r
    ensures res.1.events == r.events && res.1.eventCount == r.eventCount
    ensures uid != "" && uid in r.players && Live(r, uid) ==>
      && res.1.players == r.players - {uid}
      && res.1.erased == r.erased + {r.players[uid].character.eventId}
    ensures !(uid != "" && uid in r.players && Live(r, uid)) ==> res.1 == r
  {
    if uid == "" then (Done, r)
    else if uid !in r.players then (Fault, r)
    else if !Live(r, uid) then (Done, r)
    else (Done, r.(players := r.players - {uid},
                   erased := r.erased + {r.players[uid].character.eventId}))
  }

  /** The `user_left` handler: `user_id ?? id`, and nothing when both are null. */
  function UserLeft(r: Registry, data: Option<LeftData>): (res: (Status, Registry))
    ensures data.None? || !Coalesce(data.value.userId, data.value.id).Str? ==> res == (Done, r)
    ensures res.0 == Fault <==>
      data.Some? && Coalesce(data.value.userId, data.value.id).Str? &&
      Coalesce(data.value.userId, data.value.id).s != "" && Coalesce(data.value.userId, data.value.id).s !in r.players
    ensures data.Some? && Coalesce(data.value.userId, data.value.id).Str? ==>
      res == Remove(r, Coalesce(data.value.userId, data.value.id).s)
  {
    if data.None? then (Done, r)
    else
      var f := Coalesce(data.value.userId, data.value.id);
      if f.Str? then Remove(r, f.s) else (Done, r)
  }
}
