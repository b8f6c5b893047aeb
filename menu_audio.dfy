/** The audio submenu's volume logic: the master volume stepped in units of
    20 rescales the four channel volumes, a reset restores everything to 100,
    and the preview bookkeeping remembers which channels it played and which
    tracks it must restore. */
module MenuAudio {
  import opened JsValues

  /** The host's `volumeOffset()` for option windows. */
  const VolumeOffset := 20

  /** `Math.max(0, Math.min(100, v))`. */
  function Clamp(v: int): (r: int)
    ensures 0 <= r <= 100
    ensures 0 <= v <= 100 ==> r == v
  {
    if v < 0 then 0 else if v > 100 then 100 else v
  }

  /** `Math.round(n / d)` for a positive denominator: halves round up. */
  function RoundDiv(n: int, d: int): (r: int)
    requires d > 0
    ensures 2 * d * r <= 2 * n + d < 2 * d * (r + 1)
  {
    (2 * n + d) / (2 * d)
  }

  /** The master volume as the submenu reads it: a stored 0 counts as
      unset and reads as 100 (`|| 100`); the result is clamped. */
  function ReadMaster(stored: int): (m: int)
    ensures 0 <= m <= 100
    ensures stored == 0 ==> m == 100
    ensures 0 < stored <= 100 ==> m == stored
  {
    Clamp(if stored == 0 then 100 else stored)
  }

  datatype Channel = Bgm | Bgs | Me | Se

  /** The order in which the four channel settings are visited. */
  const Channels: seq<Channel> := [Bgm, Bgs, Me, Se]

  /** The audio part of the host's configuration: the master volume and the
      four channel volumes (a missing channel reads as 0). */
  datatype AudioSettings = AudioSettings(master: int, volumes: map<Channel, int>)

  function Stored(v: map<Channel, int>, c: Channel): int {
    if c in v then v[c] else 0
  }

  /** A channel volume rescaled from master `oldMaster` to `next`: by the
      ratio of the two, or by `next / 100` from a master of 0. */
  function Rescale(current: int, oldMaster: int, next: int): (r: int)
    requires 0 <= oldMaster <= 100 && 0 <= next <= 100
    ensures 0 <= r <= 100
    ensures 0 <= current <= 100 && (next < oldMaster || oldMaster == 0) ==> r <= current
    ensures 0 <= current <= 100 && 0 < oldMaster < next ==> current <= r
  {
    if oldMaster > 0 then
      RescaleDirection(current, oldMaster, next);
      Clamp(RoundDiv(current * next, oldMaster))
    else if next > 0 then
      RescaleDirection(current, 100, next);
      Clamp(RoundDiv(current * next, 100))
    else Clamp(current)
  }

  /** Rounding `current * next / d` moves `current` the way `next` moves from `d`. */
  lemma RescaleDirection(current: int, d: int, next: int)
    requires 0 < d && 0 <= next
    ensures 0 <= current && next <= d ==> RoundDiv(current * next, d) <= current
    ensures 0 <= current && d <= next ==> current <= RoundDiv(current * next, d)
  {
    if current < 0 {
      return;
    }
    RoundDivExact(current, d);
    if next <= d {
      assert current * next <= current * d by { MulLeftMono(current, next, d); }
      RoundDivMono(current * next, current * d, d);
    } else {
      assert current * d <= current * next by { MulLeftMono(current, d, next); }
      RoundDivMono(current * d, current * next, d);
    }
  }

  lemma MulLeftMono(a: int, b: int, c: int)
    requires 0 <= a && b <= c
    ensures a * b <= a * c
  {
    assert a * c - a * b == a * (c - b);
  }

  /** Rounding a multiple of `d` divided by `d` is exact. */
  lemma {:induction false} RoundDivExact(c: int, d: int)
    requires d > 0
    ensures RoundDiv(c * d, d) == c
  {
    var r := RoundDiv(c * d, d);
    var k := r - c;
    assert 2 * d * r == 2 * d * c + 2 * d * k;
    assert 2 * d * (r + 1) == 2 * d * c + 2 * d * (k + 1);
    assert 2 * (c * d) == 2 * d * c;
  }

  /** Rounding after dividing by the same `d` is monotone. */
  lemma {:induction false} RoundDivMono(n1: int, n2: int, d: int)
    requires d > 0 && n1 <= n2
    ensures RoundDiv(n1, d) <= RoundDiv(n2, d)
  {
    var r1, r2 := RoundDiv(n1, d), RoundDiv(n2, d);
    if r1 > r2 {
      assert 2 * d * r1 >= 2 * d * (r2 + 1) by { MulLeftMono(2 * d, r2 + 1, r1); }
    }
  }

  /** One press of left (`sign` = -1) or right (`sign` = 1) on the master entry. */
  function MasterStep(s: AudioSettings, sign: int): (t: AudioSettings)
    ensures var prev := ReadMaster(s.master);
      var next := Clamp(prev + sign * VolumeOffset);
      && (next == prev ==> t == s)
      && (next != prev ==>
            && t.master == next
            && t.volumes.Keys == s.volumes.Keys + set c | c in Channels
            && forall c :: c in Channels ==> c in t.volumes && 0 <= t.volumes[c] <= 100)
  {
    var prev := ReadMaster(s.master);
    var next := Clamp(prev + sign * VolumeOffset);
    if next == prev then s
    else
      AudioSettings(next, RescaleAll(s.volumes, prev, next, Channels))
  }

  /** Rescales the listed channels, one after another. */
  function RescaleAll(v: map<Channel, int>, oldMaster: int, next: int, cs: seq<Channel>): (w: map<Channel, int>)
    requires 0 <= oldMaster <= 100 && 0 <= next <= 100
    ensures w.Keys == v.Keys + set c | c in cs
    ensures forall c :: c in cs ==> c in w && w[c] == Rescale(Stored(v, c), oldMaster, next)
    ensures forall c :: c !in cs && c in v ==> w[c] == v[c]
    decreases |cs|
  {
    if cs == [] then v
    else
      var front := cs[..|cs| - 1];
      var c := cs[|cs| - 1];
      var w := RescaleAll(v, oldMaster, next, front);
      assert forall d :: d in cs <==> d in front || d == c;
      w[c := Rescale(Stored(v, c), oldMaster, next)]
  }

  /** Rescaling one more channel of a list extends the rescaling of its prefix. */
  lemma RescaleAllStep(v: map<Channel, int>, oldMaster: int, next: int, cs: seq<Channel>, i: int)
    requires 0 <= oldMaster <= 100 && 0 <= next <= 100 && 0 <= i < |cs|
    ensures RescaleAll(v, oldMaster, next, cs[..i + 1]) ==
            RescaleAll(v, oldMaster, next, cs[..i])[cs[i] := Rescale(Stored(v, cs[i]), oldMaster, next)]
  {
    assert cs[..i + 1][..i] == cs[..i];
  }

  /** Stepping the master from its reading of 100 down leaves it at 80, and
      leaves the channel volumes at four fifths (rounded) of their value. */
  lemma {:induction false} StepDownFromFull(s: AudioSettings, c: Channel)
    requires ReadMaster(s.master) == 100 && 0 <= Stored(s.volumes, c) <= 100
    ensures MasterStep(s, -1).master == 80
    ensures MasterStep(s, -1).volumes[c] == RoundDiv(Stored(s.volumes, c) * 4, 5)
  {
    var v := Stored(s.volumes, c);
    assert c in Channels;
    assert RoundDiv(v * 80, 100) == RoundDiv(v * 4, 5) by {
      assert 2 * (v * 80) + 100 == 20 * (2 * (v * 4) + 5);
    }
  }

  /** The settings after the reset entry is chosen. */
  function Defaults(s: AudioSettings): (t: AudioSettings)
    ensures t.master == 100 && forall c :: c in Channels ==> Stored(t.volumes, c) == 100
    ensures t.volumes.Keys == s.volumes.Keys + set c | c in Channels
  {
    AudioSettings(100, ResetAll(s.volumes, Channels))
  }

  /** Sets the listed channels to 100, one after another. */
  function ResetAll(v: map<Channel, int>, cs: seq<Channel>): (w: map<Channel, int>)
    ensures w.Keys == v.Keys + set c | c in cs
    ensures forall c :: c in cs ==> c in w && w[c] == 100
    ensures forall c :: c !in cs && c in v ==> w[c] == v[c]
    decreases |cs|
  {
    if cs == [] then v
    else
      var front := cs[..|cs| - 1];
      assert forall d :: d in cs <==> d in front || d == cs[|cs| - 1];
      ResetAll(v, front)[cs[|cs| - 1] := 100]
  }

  /** The volume a preview plays at: the channel volume, clamped, scaled by
      the master reading. */
  function EffectiveVolume(s: AudioSettings, c: Channel): (r: int)
    ensures 0 <= r <= 100
  {
    var master := ReadMaster(s.master);
    var vol := Clamp(Stored(s.volumes, c));
    Scaled(vol, master)
  }

  /** `Math.round(vol * master / 100)` for readings within 0..100. */
  function Scaled(vol: int, master: int): (r: int)
    requires 0 <= vol <= 100 && 0 <= master <= 100
    ensures 0 <= r <= 100
    ensures master == 100 ==> r == vol
  {
    assert 0 <= vol * master <= 100 * 100 by {
      MulLeftMono(vol, master, 100);
      MulLeftMono(100, vol, 100);
    }
    if master == 100 then
      RoundDivExact(vol, 100);
      RoundDiv(vol * master, 100)
    else
      RoundDiv(vol * master, 100)
  }

  /** The host's configuration object, of which the submenu writes the audio part. */
  class ConfigStore {
    var masterVolume: int
    var volumes: map<Channel, int>

    constructor(master: int, volumes: map<Channel, int>)
      ensures masterVolume == master && this.volumes == volumes
    {
      masterVolume := master;
      this.volumes := volumes;
    }

    function Settings(): AudioSettings
      reads this
    {
      AudioSettings(masterVolume, volumes)
    }

    /** `_changeMasterVolume(sign)`. */
    method ChangeMasterVolume(sign: int)
      modifies this
      ensures Settings() == MasterStep(old(Settings()), sign)
    {
      var oldMaster := ReadMaster(masterVolume);
      var next := Clamp(oldMaster + sign * VolumeOffset);
      if next == oldMaster {
        return;
      }
      ghost var s0 := Settings();
      ghost var v0 := volumes;
      var i := 0;
      while i < |Channels|
        invariant 0 <= i <= |Channels|
        invariant volumes == RescaleAll(v0, oldMaster, next, Channels[..i])
      {
        var k := Channels[i];
        assert k !in Channels[..i];
        assert Stored(volumes, k) == Stored(v0, k);
        RescaleAllStep(v0, oldMaster, next, Channels, i);
        volumes := volumes[k := Rescale(Stored(volumes, k), oldMaster, next)];
        i := i + 1;
      }
      assert Channels[..i] == Channels;
      masterVolume := next;
      assert Settings() == AudioSettings(next, RescaleAll(v0, oldMaster, next, Channels));
    }

    /** `_resetAudioDefaults()`. */
    method ResetAudioDefaults()
      modifies this
      ensures Settings() == Defaults(old(Settings()))
    {
      ghost var s0 := Settings();
      masterVolume := 100;
      var i := 0;
      ghost var v0 := volumes;
      while i < |Channels|
        invariant 0 <= i <= |Channels|
        invariant masterVolume == 100
        invariant volumes == ResetAll(v0, Channels[..i])
      {
        assert Channels[..i + 1][..i] == Channels[..i];
        volumes := volumes[Channels[i] := 100];
        i := i + 1;
      }
      assert Channels[..i] == Channels;
      assert volumes == ResetAll(s0.volumes, Channels);
    }
  }
}
