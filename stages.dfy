/**
 * The miniaudio-backed stages a channel, mixer or device runs its frames
 * through: the gainer (`effects/volume.rs`), the panner (`effects/panner.rs`)
 * and the spatializer. Only their settings and their buffer-size checks
 * steer the engine; the sample arithmetic is foreign and not modelled.
 */
module Stages {
  import opened Wrappers
  import opened Errors

  function Clamp(x: real, lo: real, hi: real): (r: real)
    requires lo <= hi
    ensures lo <= r <= hi
    ensures lo <= x <= hi ==> r == x
  {
    if x < lo then lo else if x > hi then hi else x
  }

  /** `AudioVolume`. */
  datatype Gainer = Gainer(channels: nat, volume: real)

  /** `AudioVolume::new`: 1 to 8 channels, volume 1. */
  function NewGainer(channels: nat): (r: Result<Gainer, AudioError>)
    ensures r.Ok? <==> 1 <= channels <= 8
    ensures r.Err? ==> r.error == InvalidChannels(channels)
    ensures r.Ok? ==> r.value == Gainer(channels, 1.0)
  {
    if channels < 1 || channels > 8 then Err(InvalidChannels(channels)) else Ok(Gainer(channels, 1.0))
  }

  /** `set_volume`: the stored volume is clamped to [0, 1]. */
  function SetVolume(g: Gainer, volume: real): (r: Gainer)
    ensures 0.0 <= r.volume <= 1.0 && r.channels == g.channels
    ensures 0.0 <= volume <= 1.0 ==> r.volume == volume
  {
    g.(volume := Clamp(volume, 0.0, 1.0))
  }

  /** `AudioPanner`. */
  datatype Panner = Panner(channels: nat, pan: real)

  /** `set_pan`: the stored pan is clamped to [-1, 1]. */
  function SetPan(p: Panner, pan: real): (r: Panner)
    ensures -1.0 <= r.pan <= 1.0 && r.channels == p.channels
    ensures -1.0 <= pan <= 1.0 ==> r.pan == pan
  {
    p.(pan := Clamp(pan, -1.0, 1.0))
  }

  /**
   * The size check every gainer and panner `process` makes before calling
   * miniaudio: both buffers must hold `frameCount * channels` samples.
   */
  function StageProcess(channels: nat, inputLen: nat, outputLen: nat, frameCount: nat): (r: Option<AudioError>)
    ensures r.None? <==> inputLen >= frameCount * channels && outputLen >= frameCount * channels
    ensures r.Some? ==> r.value == BufferSizeMismatch(frameCount * channels, inputLen)
  {
    if inputLen < frameCount * channels || outputLen < frameCount * channels
    then Some(BufferSizeMismatch(frameCount * channels, inputLen))
    else None
  }

  /** The properties a channel's spatializer exposes. */
  datatype SpatialProperty =
    | Position | Velocity | Direction | DopplerFactor | AttenuationModel | Positioning
    | Rolloff | MinGain | MaxGain | MinDistance | MaxDistance | Cone | DirectionalAttenuationFactor

  /** The properties a device's listener exposes. */
  datatype ListenerProperty =
    | ListenerPosition | ListenerDirection | ListenerVelocity | SpeedOfSound | WorldUp | ListenerCone | Enabled

  /**
   * A property value: a vector or cone triple, a scalar, an enum choice, a
   * flag, or whatever miniaudio starts the property at.
   */
  datatype SpatialValue =
    | Triple(x: real, y: real, z: real)
    | Scalar(v: real)
    | Choice(k: nat)
    | Flag(b: bool)
    | LibraryDefault

  /** Settings held by a spatializer or listener: the last value set for each property. */
  datatype Settings<P> = Settings(values: map<P, SpatialValue>)

  function FreshSettings<P>(): Settings<P> { Settings(map[]) }

  function Store<P>(s: Settings<P>, p: P, v: SpatialValue): Settings<P>
  {
    Settings(s.values[p := v])
  }

  function Fetch<P>(s: Settings<P>, p: P): SpatialValue
  {
    if p in s.values then s.values[p] else LibraryDefault
  }

  /**
   * A spatializer (`AudioSpatialization`): its channel configuration as
   * created, and the properties set on it since.
   */
  datatype Spatializer = Spatializer(channelsIn: nat, channelsOut: nat, settings: Settings<SpatialProperty>)

  /** A listener (`AudioSpatializationListener`) and the properties set on it. */
  datatype Listener = Listener(channelsOut: nat, settings: Settings<ListenerProperty>)

  /** A stored property reads back as stored, and storing one property leaves the others. */
  lemma StoreThenFetch<P>(s: Settings<P>, p: P, q: P, v: SpatialValue)
    ensures Fetch(Store(s, p, v), p) == v
    ensures q != p ==> Fetch(Store(s, p, v), q) == Fetch(s, q)
  {
  }
}
