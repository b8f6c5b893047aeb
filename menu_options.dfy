/** The Options command list as the menu plugin rewrites it: the "remember"
    entry and the four volume entries can be hidden, and an entry opening an
    audio submenu is appended; the submenu then lists the volume entries. */
module MenuOptions {
  import opened JsValues
  import opened Seqs

  /** One command of an options window (`{name, symbol, enabled, ext}`). */
  datatype Command = Command(name: string, symbol: string, enabled: bool, ext: Field)

  /** The plugin parameters the options rewrite reads. */
  datatype OptionsConfig = OptionsConfig(
    removeRemember: bool,
    enableAudio: bool,
    audioLabel: string,
    audioMaster: bool,
    audioResetLabel: string)

  const RememberSymbol := "commandRemember"
  const AudioSubmenuSymbol := "audioSubmenu"
  const MasterSymbol := "masterVolume"
  const ResetSymbol := "audioReset"
  const VolumeSymbols := ["bgmVolume", "bgsVolume", "meVolume", "seVolume"]

  predicate IsVolume(c: Command) {
    c.symbol in VolumeSymbols
  }

  /** The entry appended to the Options list when the audio submenu is enabled. */
  function AudioEntry(cfg: OptionsConfig): Command {
    Command(cfg.audioLabel, AudioSubmenuSymbol, true, Null)
  }

  /** Whether an entry of the host's list survives the filter. */
  predicate Kept(cfg: OptionsConfig, c: Command) {
    (!cfg.removeRemember || c.symbol != RememberSymbol) &&
    (!cfg.enableAudio || !IsVolume(c))
  }

  /** The rewrite is installed only when one of the two options is set. */
  predicate Rewrites(cfg: OptionsConfig) {
    cfg.removeRemember || cfg.enableAudio
  }

  /** `Kept` as the filter callback. */
  function KeepFilter(cfg: OptionsConfig): Command -> bool {
    c => Kept(cfg, c)
  }

  /** The volume entries of the host's list, in their order. */
  function VolumeItems(base: seq<Command>): (v: seq<Command>)
    ensures forall c :: c in v <==> c in base && IsVolume(c)
  {
    Filter(base, IsVolume)
  }

  /** The Options list after `makeCommandList`, given the list the host built. */
  function OptionsList(cfg: OptionsConfig, base: seq<Command>): (r: seq<Command>)
    ensures !Rewrites(cfg) ==> r == base
    ensures cfg.removeRemember ==> forall i :: 0 <= i < |r| ==> r[i].symbol != RememberSymbol
    ensures cfg.enableAudio ==>
      && |r| >= 1
      && r[|r| - 1] == AudioEntry(cfg)
      && (forall i :: 0 <= i < |r| ==> !IsVolume(r[i]))
    ensures Rewrites(cfg) ==>
      forall c :: c in base && c.symbol != AudioSubmenuSymbol ==> (c in r <==> Kept(cfg, c))
  {
    if !Rewrites(cfg) then base
    else
      var kept := Filter(base, KeepFilter(cfg));
      if cfg.enableAudio then kept + [AudioEntry(cfg)] else kept
  }

  /** The audio submenu's list: master (when enabled), the volume entries taken
      from the Options list (or the host's own four when there were none), and
      the reset entry. */
  function AudioCommands(cfg: OptionsConfig, volumeItems: seq<Command>, hostVolumes: seq<Command>): (r: seq<Command>)
    ensures |r| >= 1 && r[|r| - 1] == Command(cfg.audioResetLabel, ResetSymbol, true, Null)
    ensures cfg.audioMaster ==> |r| >= 2 && r[0] == Command("Master Volume", MasterSymbol, true, Null)
    ensures var m := if cfg.audioMaster then 1 else 0;
      r[m..|r| - 1] == if volumeItems != [] then volumeItems else hostVolumes
  {
    (if cfg.audioMaster then [Command("Master Volume", MasterSymbol, true, Null)] else []) +
    (if |volumeItems| > 0 then volumeItems else hostVolumes) +
    [Command(cfg.audioResetLabel, ResetSymbol, true, Null)]
  }

  /** With the submenu enabled, no entry of the host's list is lost: it stays
      in the Options list, moves to the submenu, or is the hidden "remember". */
  lemma NoEntryLost(cfg: OptionsConfig, base: seq<Command>, hostVolumes: seq<Command>, c: Command)
    requires cfg.enableAudio && c in base && c.symbol != AudioSubmenuSymbol
    ensures || c in OptionsList(cfg, base)
            || c in AudioCommands(cfg, VolumeItems(base), hostVolumes)
            || (cfg.removeRemember && c.symbol == RememberSymbol)
  {
    var v := VolumeItems(base);
    if IsVolume(c) {
      assert c in v;
      var r := AudioCommands(cfg, v, hostVolumes);
      var m := if cfg.audioMaster then 1 else 0;
      assert r[m..|r| - 1] == v;
      var k :| 0 <= k < |v| && v[k] == c;
      assert r[m + k] == c;
    }
  }

  /** Entry `k` of the moved volume entries sits at `k`, or `k + 1` after the master entry. */
  lemma SubmenuEntry(cfg: OptionsConfig, v: seq<Command>, hostVolumes: seq<Command>, k: int)
    requires 0 <= k < |v|
    ensures var m := if cfg.audioMaster then 1 else 0;
      m + k < |AudioCommands(cfg, v, hostVolumes)| && AudioCommands(cfg, v, hostVolumes)[m + k] == v[k]
  {
    var r := AudioCommands(cfg, v, hostVolumes);
    var m := if cfg.audioMaster then 1 else 0;
    assert r[m..|r| - 1] == v;
    assert r[m..|r| - 1][k] == v[k];
  }

  /** The submenu shows the moved volume entries in the order the host listed them. */
  lemma SubmenuKeepsVolumeOrder(cfg: OptionsConfig, base: seq<Command>, hostVolumes: seq<Command>, i: int, j: int)
    requires 0 <= i < j < |base| && IsVolume(base[i]) && IsVolume(base[j])
    ensures var r := AudioCommands(cfg, VolumeItems(base), hostVolumes);
      exists i', j' :: 0 <= i' < j' < |r| && r[i'] == base[i] && r[j'] == base[j]
  {
    var v := VolumeItems(base);
    FilterKeepsOrder(base, IsVolume, i, j);
    var i', j' :| 0 <= i' < j' < |v| && v[i'] == base[i] && v[j'] == base[j];
    SubmenuEntry(cfg, v, hostVolumes, i');
    SubmenuEntry(cfg, v, hostVolumes, j');
  }

  /** Entries that survive the Options filter keep their relative order. */
  lemma OptionsKeepOrder(cfg: OptionsConfig, base: seq<Command>, i: int, j: int)
    requires 0 <= i < j < |base| && Kept(cfg, base[i]) && Kept(cfg, base[j])
    ensures var r := OptionsList(cfg, base);
      exists i', j' :: 0 <= i' < j' < |r| && r[i'] == base[i] && r[j'] == base[j]
  {
    if Rewrites(cfg) {
      var p := KeepFilter(cfg);
      FilterKeepsOrder(base, p, i, j);
      var kept := Filter(base, p);
      var i', j' :| 0 <= i' < j' < |kept| && kept[i'] == base[i] && kept[j'] == base[j];
      var r := OptionsList(cfg, base);
      assert r[..|kept|] == kept;
      assert r[i'] == base[i] && r[j'] == base[j];
    } else {
      assert OptionsList(cfg, base) == base;
    }
  }

  /** The Options window together with the plugin's `volumeItems` variable. */
  class OptionsMenu {
    const cfg: OptionsConfig
    var list: seq<Command>
    var volumeItems: seq<Command>

    constructor(cfg: OptionsConfig)
      ensures this.cfg == cfg && list == [] && volumeItems == []
    {
      this.cfg := cfg;
      list := [];
      volumeItems := [];
    }

    /** `Window_Options.makeCommandList`: the host builds `base`, then the
        rewrite (when installed) records the volume entries and filters. */
    method MakeCommandList(base: seq<Command>)
      modifies this`list, this`volumeItems
      ensures list == OptionsList(cfg, base)
      ensures volumeItems == if Rewrites(cfg) then VolumeItems(base) else old(volumeItems)
    {
      list := base;
      if Rewrites(cfg) {
        volumeItems := Filter(list, IsVolume);
        list := Filter(list, KeepFilter(cfg));
        if cfg.enableAudio {
          list := list + [AudioEntry(cfg)];
        }
      }
    }

    /** `Window_AudioOptions.makeCommandList`, given the four entries the
        host's `addVolumeOptions` would add. */
    method AudioSubmenuList(hostVolumes: seq<Command>) returns (r: seq<Command>)
      ensures r == AudioCommands(cfg, volumeItems, hostVolumes)
    {
      r := [];
      if cfg.audioMaster {
        r := r + [Command("Master Volume", MasterSymbol, true, Null)];
      }
      if |volumeItems| > 0 {
        r := r + volumeItems;
      } else {
        r := r + hostVolumes;
      }
      r := r + [Command(cfg.audioResetLabel, ResetSymbol, true, Null)];
    }
  }
}
