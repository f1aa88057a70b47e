/** Faders and the values that move between memory, database and PipeWire. */
module Mixing {
  import opened Prelude

  datatype Fader = Fader(volume: real, muted: bool)

  const UNITY := Fader(1.0, false)

  /** A channel's controls, one fader a mix. */
  datatype Strip = Strip(stream: Fader, monitor: Fader)
  {
    function At(m: MixType): Fader {
      match m case Stream => stream case Monitor => monitor
    }

    function With(m: MixType, f: Fader): Strip {
      match m case Stream => this.(stream := f) case Monitor => this.(monitor := f)
    }
  }

  const UNITY_STRIP := Strip(UNITY, UNITY)

  datatype Mixer = Mixer(
    master: Strip,
    micToStream: bool,
    micStreamVolume: real,
    micToMonitor: bool,
    micMonitorVolume: real)

  const DEFAULT_MIXER := Mixer(UNITY_STRIP, true, 1.0, false, 0.0)

  datatype Channel = Channel(name: string, strip: Strip)

  function Clamp(v: real): (r: real)
    ensures 0.0 <= r <= 1.0 && (0.0 <= v <= 1.0 ==> r == v)
  {
    if v < 0.0 then 0.0 else if v > 1.0 then 1.0 else v
  }

  /** Of all the volumes there are, a clamped one is the nearest. */
  lemma ClampIsNearest(v: real, x: real)
    requires 0.0 <= x <= 1.0
    ensures (if v < x then x - v else v - x) >= (if v < Clamp(v) then Clamp(v) - v else v - Clamp(v))
  {
  }
}
