/** Properties of the remote-player registry that relate several handlers. */
module SpaceRegistryFacts {
  import opened JsValues
  import opened SpaceRegistry

  /** A user first seen through a move who then leaves: the registry holds
      the same players as before, and the one host event created for the
      user is erased. */
  lemma ArrivalThenLeave(r: Registry, env: Env, m: MoveRecord, passable: bool, uid: string)
    requires Subject(env.me, m.userId, m.id) == Some(uid) && uid != "" && uid !in r.players
    ensures var (s, r') := Remove(Move(r, env, Some(m), passable), uid);
      && s == Done
      && r'.players == r.players
      && r'.events == r.events + {r.eventCount}
      && r'.erased == r.erased + {r.eventCount}
  {
    var moved := Move(r, env, Some(m), passable);
    assert Live(moved, uid);
    assert moved.players - {uid} == r.players;
  }

  /** Spawning the same record twice leaves one entry and one host event. */
  lemma SpawnTwiceOneEntry(r: Registry, env: Env, rec: Option<PlayerRecord>)
    ensures var once := Spawn(r, env, rec);
      var twice := Spawn(once, env, rec);
      && twice.players.Keys == once.players.Keys
      && twice.events == once.events && twice.eventCount == once.eventCount
      && (forall k :: k in once.players ==> twice.players[k].character.eventId == once.players[k].character.eventId)
  {
  }

  /** A `room_state` for the current guild listing nobody keeps exactly the
      entries whose host event was already gone. */
  lemma EmptyRoomKeepsStaleEntries(r: Registry, env: Env, g: string)
    ensures RoomState(r, env, Some(g), Some(RoomStateData(Str(g), Some([])))).players ==
            map uid | uid in r.players && !Live(r, uid) :: r.players[uid]
  {
  }

  /** Applying the same `skin_changed` twice is applying it once. */
  lemma ChangeSkinIdempotent(r: Registry, env: Env, current: Option<string>, data: Option<SkinChangedData>)
    ensures ChangeSkin(ChangeSkin(r, env, current, data), env, current, data) == ChangeSkin(r, env, current, data)
  {
  }

  /** Handlers never create an entry for the local user. */
  lemma MoveKeepsSelfOut(r: Registry, env: Env, m: Option<MoveRecord>, passable: bool)
    requires SelfFree(r.players, env.me)
    ensures SelfFree(Move(r, env, m, passable).players, env.me)
  {
  }
}
