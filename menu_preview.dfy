/** Audio previews in the audio submenu: which channels a preview has played,
    which BGM/BGS it must put back, and the calls made into the host's audio
    manager, any of which may throw. A throw ends the sequence of calls (the
    `try` block), after which the bookkeeping is reset all the same (`finally`). */
module MenuPreview {
  import opened JsValues
  import opened MenuAudio

  /** A track object as the host's `saveBgm()`/`saveBgs()` return it. */
  datatype Track = Track(name: string, volume: int, pitch: int, pan: int)

  /** A call into the host's audio manager. Preview tracks are played with
      pan 0 and pitch 100. */
  datatype AudioCall =
    | StopBgm | StopBgs | StopMe | StopSe
    | ReplayBgm(track: Track) | ReplayBgs(track: Track)
    | PlayBgm(name: string, volume: int)
    | PlayBgs(name: string, volume: int)
    | PlayMe(name: string, volume: int)
    | PlaySe(name: string, volume: int)

  /** `audioState.previewUsed`. */
  datatype Flags = Flags(bgm: bool, bgs: bool, me: bool, se: bool)

  const NoFlags := Flags(false, false, false, false)

  /** The preview parameters: whether previews are on, and the file per channel
      (an empty name disables that channel's preview). */
  datatype PreviewConfig = PreviewConfig(enabled: bool, bgm: string, bgs: string, me: string, se: string)

  /** Some call of `plan` throws. */
  predicate Throws(plan: seq<AudioCall>, failing: set<AudioCall>)
    decreases |plan|
  {
    plan != [] && (Throws(plan[..|plan| - 1], failing) || plan[|plan| - 1] in failing)
  }

  /** `Throws` holds exactly when some call of the plan is a failing one. */
  lemma {:induction false} ThrowsSome(plan: seq<AudioCall>, failing: set<AudioCall>)
    ensures Throws(plan, failing) <==> exists i :: 0 <= i < |plan| && plan[i] in failing
    decreases |plan|
  {
    if plan != [] {
      var front := plan[..|plan| - 1];
      ThrowsSome(front, failing);
      if exists i :: 0 <= i < |plan| && plan[i] in failing {
        var i :| 0 <= i < |plan| && plan[i] in failing;
        if i < |front| {
          assert front[i] == plan[i];
        }
      }
      if exists i :: 0 <= i < |front| && front[i] in failing {
        var i :| 0 <= i < |front| && front[i] in failing;
        assert plan[i] == front[i];
      }
    }
  }

  /** The calls of `plan` that are made: all of them up to and including the
      first one that throws. */
  function Attempted(plan: seq<AudioCall>, failing: set<AudioCall>): (r: seq<AudioCall>)
    ensures |r| <= |plan|
    decreases |plan|
  {
    if plan == [] then []
    else
      var front := plan[..|plan| - 1];
      if Throws(front, failing) then Attempted(front, failing) else Attempted(front, failing) + [plan[|plan| - 1]]
  }

  /** The calls made are a prefix of the plan: all of it when nothing throws,
      and otherwise up to the first call that throws, which is the last one made. */
  lemma {:induction false} AttemptedPrefix(plan: seq<AudioCall>, failing: set<AudioCall>)
    ensures var r := Attempted(plan, failing);
      && r == plan[..|r|]
      && (!Throws(plan, failing) ==> r == plan)
      && (Throws(plan, failing) ==>
            && |r| >= 1
            && r[|r| - 1] in failing
            && forall i :: 0 <= i < |r| - 1 ==> r[i] !in failing)
    decreases |plan|
  {
    if plan != [] {
      var front := plan[..|plan| - 1];
      AttemptedPrefix(front, failing);
      assert plan == front + [plan[|plan| - 1]];
      var r := Attempted(front, failing);
      assert r == front[..|r|];
      if !Throws(front, failing) {
        assert r + [plan[|plan| - 1]] == plan;
        ThrowsSome(front, failing);
      } else {
        assert front[..|r|] == plan[..|r|];
      }
    }
  }

  /** Extending a plan by one call adds that call to the calls made unless an
      earlier call threw. */
  lemma AttemptedSnoc(plan: seq<AudioCall>, c: AudioCall, failing: set<AudioCall>)
    ensures Attempted(plan + [c], failing) ==
      if Throws(plan, failing) then Attempted(plan, failing) else Attempted(plan, failing) + [c]
    ensures Throws(plan + [c], failing) <==> Throws(plan, failing) || c in failing
  {
    assert (plan + [c])[..|plan + [c]| - 1] == plan;
  }

  /** `c` when the channel's preview was used. */
  function When(used: bool, c: AudioCall): seq<AudioCall> {
    if used then [c] else []
  }

  /** Stopping a channel and replaying what was saved for it, if anything. */
  function StopAndReplay(used: bool, stop: AudioCall, replay: Option<AudioCall>): seq<AudioCall> {
    if used then [stop] + When(replay.Some?, if replay.Some? then replay.value else stop) else []
  }

  /** The calls `_stopAllPreviews` means to make, in order. */
  function StopPlan(used: Flags): (p: seq<AudioCall>)
    ensures forall c :: c in p <==>
      (c == StopBgm && used.bgm) || (c == StopBgs && used.bgs) || (c == StopMe && used.me) || (c == StopSe && used.se)
  {
    When(used.bgm, StopBgm) + When(used.bgs, StopBgs) + When(used.me, StopMe) + When(used.se, StopSe)
  }

  /** The calls `restorePreviewAudioIfAny` means to make, in order: stop the
      SE and ME, then stop and replay the saved BGS, then the saved BGM. */
  function RestorePlan(used: Flags, savedBgm: Option<Track>, savedBgs: Option<Track>): (p: seq<AudioCall>)
    ensures forall t :: ReplayBgm(t) in p <==> used.bgm && savedBgm == Some(t)
    ensures forall t :: ReplayBgs(t) in p <==> used.bgs && savedBgs == Some(t)
    ensures StopBgm in p <==> used.bgm
    ensures StopBgs in p <==> used.bgs
  {
    When(used.se, StopSe) + When(used.me, StopMe) +
    StopAndReplay(used.bgs, StopBgs, if savedBgs.Some? then Some(ReplayBgs(savedBgs.value)) else None) +
    StopAndReplay(used.bgm, StopBgm, if savedBgm.Some? then Some(ReplayBgm(savedBgm.value)) else None)
  }

  /** A BGM preview started with nothing saved is undone by stopping the
      preview and replaying the BGM that was playing before it. */
  lemma PreviewThenRestore(current: Track, failing: set<AudioCall>)
    requires StopBgm !in failing
    ensures RestorePlan(Flags(true, false, false, false), Some(current), None) == [StopBgm, ReplayBgm(current)]
    ensures Attempted([StopBgm, ReplayBgm(current)], failing) == [StopBgm, ReplayBgm(current)]
  {
    AttemptedSnoc([], StopBgm, failing);
    AttemptedSnoc([StopBgm], ReplayBgm(current), failing);
    assert [StopBgm] + [ReplayBgm(current)] == [StopBgm, ReplayBgm(current)];
  }

  /** The preview bookkeeping (`audioState`) and the calls made so far. */
  class PreviewState {
    var used: Flags
    var savedBgm: Option<Track>
    var savedBgs: Option<Track>
    var calls: seq<AudioCall>

    constructor()
      ensures used == NoFlags && savedBgm == None && savedBgs == None && calls == []
    {
      used := NoFlags;
      savedBgm := None;
      savedBgs := None;
      calls := [];
    }

    /** One call inside the `try` block: skipped once an earlier call threw. */
    method Attempt(c: AudioCall, failing: set<AudioCall>, thrown: bool) returns (nowThrown: bool)
      modifies this`calls
      ensures calls == old(calls) + if thrown then [] else [c]
      ensures nowThrown == (thrown || c in failing)
    {
      nowThrown := thrown;
      if !thrown {
        calls := calls + [c];
        nowThrown := c in failing;
      }
    }

    /** The next call of a plan of which `plan` has been attempted so far. */
    method Step(c: AudioCall, failing: set<AudioCall>, thrown: bool, ghost plan: seq<AudioCall>, ghost before: seq<AudioCall>)
      returns (nowThrown: bool)
      requires thrown == Throws(plan, failing) && calls == before + Attempted(plan, failing)
      modifies this`calls
      ensures nowThrown == Throws(plan + [c], failing)
      ensures calls == before + Attempted(plan + [c], failing)
    {
      AttemptedSnoc(plan, c, failing);
      nowThrown := Attempt(c, failing, thrown);
    }

    /** `if (used) c();` inside the `try` block. */
    method StepWhen(used: bool, c: AudioCall, failing: set<AudioCall>, thrown: bool,
                    ghost plan: seq<AudioCall>, ghost before: seq<AudioCall>) returns (nowThrown: bool)
      requires thrown == Throws(plan, failing) && calls == before + Attempted(plan, failing)
      modifies this`calls
      ensures nowThrown == Throws(plan + When(used, c), failing)
      ensures calls == before + Attempted(plan + When(used, c), failing)
    {
      nowThrown := thrown;
      if used {
        nowThrown := Step(c, failing, thrown, plan, before);
      } else {
        assert plan + When(used, c) == plan;
      }
    }

    /** `if (used) { stop(); if (saved) replay(saved); }` inside the `try` block. */
    method StepStopAndReplay(used: bool, stop: AudioCall, replay: Option<AudioCall>, failing: set<AudioCall>, thrown: bool,
                             ghost plan: seq<AudioCall>, ghost before: seq<AudioCall>) returns (nowThrown: bool)
      requires thrown == Throws(plan, failing) && calls == before + Attempted(plan, failing)
      modifies this`calls
      ensures nowThrown == Throws(plan + StopAndReplay(used, stop, replay), failing)
      ensures calls == before + Attempted(plan + StopAndReplay(used, stop, replay), failing)
    {
      nowThrown := thrown;
      if used {
        nowThrown := Step(stop, failing, nowThrown, plan, before);
        var again := if replay.Some? then replay.value else stop;
        nowThrown := StepWhen(replay.Some?, again, failing, nowThrown, plan + [stop], before);
        assert plan + [stop] + When(replay.Some?, again) == plan + StopAndReplay(used, stop, replay);
      } else {
        assert plan + StopAndReplay(used, stop, replay) == plan;
      }
    }

    /** `_stopAllPreviews()`. */
    method StopAllPreviews(failing: set<AudioCall>)
      modifies this`used, this`calls
      ensures used == NoFlags
      ensures calls == old(calls) + Attempted(StopPlan(old(used)), failing)
    {
      ghost var before := calls;
      assert calls == before + Attempted([], failing);
      var thrown := StepWhen(used.bgm, StopBgm, failing, false, [], before);
      ghost var plan := When(used.bgm, StopBgm);
      assert [] + plan == plan;
      thrown := StepWhen(used.bgs, StopBgs, failing, thrown, plan, before);
      plan := plan + When(used.bgs, StopBgs);
      thrown := StepWhen(used.me, StopMe, failing, thrown, plan, before);
      plan := plan + When(used.me, StopMe);
      thrown := StepWhen(used.se, StopSe, failing, thrown, plan, before);
      plan := plan + When(used.se, StopSe);
      used := NoFlags;
    }

    /** `restorePreviewAudioIfAny()`, run when the Options scene closes. */
    method RestorePreviewAudioIfAny(failing: set<AudioCall>)
      modifies this`used, this`savedBgm, this`savedBgs, this`calls
      ensures used == NoFlags && savedBgm == None && savedBgs == None
      ensures calls == old(calls) + Attempted(RestorePlan(old(used), old(savedBgm), old(savedBgs)), failing)
    {
      ghost var before := calls;
      assert calls == before + Attempted([], failing);
      var thrown := StepWhen(used.se, StopSe, failing, false, [], before);
      ghost var plan := When(used.se, StopSe);
      assert [] + plan == plan;
      thrown := StepWhen(used.me, StopMe, failing, thrown, plan, before);
      plan := plan + When(used.me, StopMe);
      var replayBgs := if savedBgs.Some? then Some(ReplayBgs(savedBgs.value)) else None;
      thrown := StepStopAndReplay(used.bgs, StopBgs, replayBgs, failing, thrown, plan, before);
      plan := plan + StopAndReplay(used.bgs, StopBgs, replayBgs);
      var replayBgm := if savedBgm.Some? then Some(ReplayBgm(savedBgm.value)) else None;
      thrown := StepStopAndReplay(used.bgm, StopBgm, replayBgm, failing, thrown, plan, before);
      plan := plan + StopAndReplay(used.bgm, StopBgm, replayBgm);
      assert plan == RestorePlan(used, savedBgm, savedBgs);
      savedBgm := None;
      savedBgs := None;
      used := NoFlags;
    }

    /** `_previewFor(symbol)`: plays the preview file of the channel at its
        effective volume, first saving the BGM (for a BGM or ME preview) or
        the BGS (for a BGS preview) unless one is saved already. The BGM
        saved is `currentBgm`, the BGS `currentBgs`; a throwing play call is
        swallowed. */
    method PreviewFor(symbol: string, cfg: PreviewConfig, settings: AudioSettings,
                      currentBgm: Track, currentBgs: Track, failing: set<AudioCall>)
      modifies this`used, this`savedBgm, this`savedBgs, this`calls
      ensures !cfg.enabled ==> unchanged(this)
      ensures savedBgs == if cfg.enabled && symbol == "bgsVolume" && cfg.bgs != "" && old(savedBgs).None?
                          then Some(currentBgs) else old(savedBgs)
      ensures var savesBgm := (symbol == "bgmVolume" && cfg.bgm != "") || (symbol == "meVolume" && cfg.me != "");
        savedBgm == if cfg.enabled && savesBgm && old(savedBgm).None? then Some(currentBgm) else old(savedBgm)
      ensures cfg.enabled ==>
        && (symbol == "bgmVolume" && cfg.bgm != "" ==>
              used == old(used).(bgm := true) && calls == old(calls) + [PlayBgm(cfg.bgm, EffectiveVolume(settings, Bgm))])
        && (symbol == "bgsVolume" && cfg.bgs != "" ==>
              used == old(used).(bgs := true) && calls == old(calls) + [PlayBgs(cfg.bgs, EffectiveVolume(settings, Bgs))])
        && (symbol == "meVolume" && cfg.me != "" ==>
              used == old(used).(me := true) && calls == old(calls) + [PlayMe(cfg.me, EffectiveVolume(settings, Me))])
        && (symbol == "seVolume" && cfg.se != "" ==>
              used == old(used).(se := true) && calls == old(calls) + [PlaySe(cfg.se, EffectiveVolume(settings, Se))])
    {
      if !cfg.enabled {
        return;
      }
      var thrown := false;
      if symbol == "bgmVolume" && cfg.bgm != "" {
        if savedBgm.None? {
          savedBgm := Some(currentBgm);
        }
        used := used.(bgm := true);
        thrown := Attempt(PlayBgm(cfg.bgm, EffectiveVolume(settings, Bgm)), failing, thrown);
      } else if symbol == "bgsVolume" && cfg.bgs != "" {
        if savedBgs.None? {
          savedBgs := Some(currentBgs);
        }
        used := used.(bgs := true);
        thrown := Attempt(PlayBgs(cfg.bgs, EffectiveVolume(settings, Bgs)), failing, thrown);
      } else if symbol == "meVolume" && cfg.me != "" {
        if savedBgm.None? {
          savedBgm := Some(currentBgm);
        }
        used := used.(me := true);
        thrown := Attempt(PlayMe(cfg.me, EffectiveVolume(settings, Me)), failing, thrown);
      } else if symbol == "seVolume" && cfg.se != "" {
        used := used.(se := true);
        thrown := Attempt(PlaySe(cfg.se, EffectiveVolume(settings, Se)), failing, thrown);
      }
    }
  }
}
