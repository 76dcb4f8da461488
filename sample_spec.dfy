/**
 * The attribute record of a decoded sample (`AudioSampleAttributes`,
 * `src/sample/mod.rs`) and its property interface, and what
 * `apply_attributes` does to a channel made from the sample: the record's
 * values pushed through the channel's own setters, in the order the source
 * calls them.
 */
module SampleSpec {
  import opened Wrappers
  import opened Errors
  import opened Stages
  import Fx
  import Attributes
  import Utils
  import Cs = ChannelSpec
  import Rd = AudioReader

  /** `AudioSampleAttributes`: stored values only; nothing is clamped or checked. */
  datatype SampleAttributes = SampleAttributes(
    enableFx: bool,
    enableSpatialization: bool,
    volume: real,
    sampleRate: real,
    pan: real,
    fxTempo: real,
    fxPitch: real)

  /** `AudioSampleAttributes::default`. */
  const DEFAULT_ATTRIBUTES: SampleAttributes := SampleAttributes(false, false, 1.0, 44100.0, 0.0, 1.0, 1.0)

  /** The attributes a loaded sample starts with: the defaults, at the stream's own rate. */
  function LoadedAttributes(sampleRate: nat): (r: SampleAttributes)
    ensures !r.enableFx && !r.enableSpatialization
    ensures r.volume == 1.0 && r.pan == 0.0 && r.fxTempo == 1.0 && r.fxPitch == 1.0
    ensures r.sampleRate == sampleRate as real
  {
    DEFAULT_ATTRIBUTES.(sampleRate := sampleRate as real)
  }

  /** A sample as a value: the size of its decoded buffer, the stream's description and the attribute record. */
  datatype SampleState = SampleState(bufferLen: nat, pcmLength: nat, sampleRate: nat, channels: nat,
                                     attributes: SampleAttributes)

  /**
   * `load` and `load_file_buffer`, after the reader's loader answered
   * `loaded`: the whole stream is read into a buffer of
   * `pcm_length * channels` samples, which fails for an empty stream.
   */
  function Load(loaded: Result<Rd.ReaderConfig, AudioError>): (r: Result<SampleState, AudioError>)
    ensures loaded.Err? ==> r == Err(loaded.error)
    ensures loaded.Ok? ==> (r.Ok? <==> loaded.value.pcmLength > 0)
    ensures loaded.Ok? && loaded.value.pcmLength == 0 ==> r == Err(InvalidPCMLength)
    ensures r.Ok? ==> r.value.bufferLen == r.value.pcmLength * r.value.channels
                      && r.value.pcmLength == loaded.value.pcmLength && r.value.channels == loaded.value.channels
                      && r.value.sampleRate == loaded.value.sampleRate
                      && r.value.attributes == LoadedAttributes(loaded.value.sampleRate)
  {
    match loaded
    case Err(e) => Err(e)
    case Ok(c) =>
      if c.pcmLength == 0 then Err(InvalidPCMLength)
      else Ok(SampleState(c.pcmLength * c.channels, c.pcmLength, c.sampleRate, c.channels, LoadedAttributes(c.sampleRate)))
  }

  /** `get_attribute_f32`: pitch and tempo read only while the stretcher is enabled. */
  function GetAttributeF32(at: SampleAttributes, a: Attributes.AudioAttribute): (r: Result<real, AudioError>)
    ensures a == Attributes.Unknown <==> r == Err(UnknownAttribute)
    ensures a in {Attributes.AudioFX, Attributes.AudioSpatialization} <==> r == Err(UnsupportedAttribute)
    ensures a in {Attributes.FXPitch, Attributes.FXTempo} ==> (r.Err? <==> !at.enableFx)
    ensures a in {Attributes.FXPitch, Attributes.FXTempo} && !at.enableFx ==> r == Err(FxNotEnabled)
  {
    match a
    case Unknown => Err(UnknownAttribute)
    case SampleRate => Ok(at.sampleRate)
    case Volume => Ok(at.volume)
    case Pan => Ok(at.pan)
    case FXPitch => if !at.enableFx then Err(FxNotEnabled) else Ok(at.fxPitch)
    case FXTempo => if !at.enableFx then Err(FxNotEnabled) else Ok(at.fxTempo)
    case AudioFX => Err(UnsupportedAttribute)
    case AudioSpatialization => Err(UnsupportedAttribute)
  }

  /** `set_attribute_f32`: pitch and tempo are stored only while the stretcher is enabled. */
  function SetAttributeF32(at: SampleAttributes, a: Attributes.AudioAttribute, v: real): (r: (SampleAttributes, Result<(), AudioError>))
    ensures r.1.Err? ==> r.0 == at
    ensures r.1.Err? <==> a in {Attributes.Unknown, Attributes.AudioFX, Attributes.AudioSpatialization}
                          || (a in {Attributes.FXPitch, Attributes.FXTempo} && !at.enableFx)
    ensures r.0.enableFx == at.enableFx && r.0.enableSpatialization == at.enableSpatialization
  {
    match a
    case Unknown => (at, Err(UnknownAttribute))
    case SampleRate => (at.(sampleRate := v), Ok(()))
    case Volume => (at.(volume := v), Ok(()))
    case Pan => (at.(pan := v), Ok(()))
    case FXPitch => if !at.enableFx then (at, Err(FxNotEnabled)) else (at.(fxPitch := v), Ok(()))
    case FXTempo => if !at.enableFx then (at, Err(FxNotEnabled)) else (at.(fxTempo := v), Ok(()))
    case AudioFX => (at, Err(UnsupportedAttribute))
    case AudioSpatialization => (at, Err(UnsupportedAttribute))
  }

  /** `get_attribute_bool`: only the two switches are boolean. */
  function GetAttributeBool(at: SampleAttributes, a: Attributes.AudioAttribute): (r: Result<bool, AudioError>)
    ensures a == Attributes.AudioFX ==> r == Ok(at.enableFx)
    ensures a == Attributes.AudioSpatialization ==> r == Ok(at.enableSpatialization)
    ensures a == Attributes.Unknown ==> r == Err(UnknownAttribute)
    ensures a !in {Attributes.AudioFX, Attributes.AudioSpatialization, Attributes.Unknown} ==> r == Err(UnsupportedAttribute)
  {
    match a
    case Unknown => Err(UnknownAttribute)
    case AudioFX => Ok(at.enableFx)
    case AudioSpatialization => Ok(at.enableSpatialization)
    case _ => Err(UnsupportedAttribute)
  }

  /** `set_attribute_bool`: only the two switches are stored; anything else leaves the record. */
  function SetAttributeBool(at: SampleAttributes, a: Attributes.AudioAttribute, v: bool): (r: (SampleAttributes, Result<(), AudioError>))
    ensures r.1.Ok? <==> a in {Attributes.AudioFX, Attributes.AudioSpatialization}
    ensures r.1.Err? ==> r.0 == at && r.1.error == (if a == Attributes.Unknown then UnknownAttribute else UnsupportedAttribute)
    ensures r.0.volume == at.volume && r.0.pan == at.pan && r.0.sampleRate == at.sampleRate
    ensures r.0.fxTempo == at.fxTempo && r.0.fxPitch == at.fxPitch
  {
    match a
    case Unknown => (at, Err(UnknownAttribute))
    case AudioFX => (at.(enableFx := v), Ok(()))
    case AudioSpatialization => (at.(enableSpatialization := v), Ok(()))
    case _ => (at, Err(UnsupportedAttribute))
  }

  /**
   * A stored value reads back exactly as given (no clamping, unlike a
   * channel's), and storing one attribute leaves every other reading.
   */
  lemma SetThenGet(at: SampleAttributes, a: Attributes.AudioAttribute, b: Attributes.AudioAttribute, v: real)
    ensures SetAttributeF32(at, a, v).1.Ok? ==> GetAttributeF32(SetAttributeF32(at, a, v).0, a) == Ok(v)
    ensures b != a ==> GetAttributeF32(SetAttributeF32(at, a, v).0, b) == GetAttributeF32(at, b)
  {
  }

  /**
   * Pitch and tempo are gated by the switch in both directions: enabling it
   * exposes the values stored before, disabling it hides them again.
   */
  lemma FxSwitchGates(at: SampleAttributes, v: bool)
    ensures var on := SetAttributeBool(at, Attributes.AudioFX, v).0;
            && GetAttributeBool(on, Attributes.AudioFX) == Ok(v)
            && (v ==> GetAttributeF32(on, Attributes.FXTempo) == Ok(at.fxTempo)
                      && GetAttributeF32(on, Attributes.FXPitch) == Ok(at.fxPitch))
            && (!v ==> GetAttributeF32(on, Attributes.FXTempo) == Err(FxNotEnabled)
                       && GetAttributeF32(on, Attributes.FXPitch) == Err(FxNotEnabled))
  {
  }

  // ---- apply_attributes

  /** `channel.set_attribute_f32(a, v)?`: an error ends the sequence with the state it left. */
  function SetF32Then(r: (Cs.ChannelState, Result<(), AudioError>), a: Attributes.AudioAttribute, v: real)
    : (q: (Cs.ChannelState, Result<(), AudioError>))
    requires r.0.Valid()
    ensures q.0.Valid()
  {
    if r.1.Err? then r else Cs.SetAttributeF32(r.0, a, v)
  }

  /**
   * `apply_attributes`: volume, pan and sample rate; the stretcher switch
   * (the library reporting `latency`); the spatializer switch (miniaudio
   * answering `spatialInit`); then pitch and tempo, only when the stretcher
   * is enabled. The first error ends it.
   */
  function Apply(s: Cs.ChannelState, at: SampleAttributes, latency: Fx.StretchLatency, spatialInit: int)
    : (r: (Cs.ChannelState, Result<(), AudioError>))
    requires s.Valid()
    ensures r.0.Valid()
  {
    var s3 := SetF32Then(SetF32Then(SetF32Then((s, Ok(())), Attributes.Volume, at.volume), Attributes.Pan, at.pan),
                         Attributes.SampleRate, at.sampleRate);
    if s3.1.Err? then s3
    else
      var s4 := Cs.SetAttributeBool(s3.0, Attributes.AudioFX, at.enableFx, latency, spatialInit);
      if s4.1.Err? then s4
      else
        var s5 := Cs.SetAttributeBool(s4.0, Attributes.AudioSpatialization, at.enableSpatialization, latency, spatialInit);
        if s5.1.Err? || !at.enableFx then s5
        else SetF32Then(SetF32Then(s5, Attributes.FXPitch, at.fxPitch), Attributes.FXTempo, at.fxTempo)
  }

  /**
   * What a successful `apply_attributes` leaves on the channel: the
   * sample's volume and pan (clamped, as the channel stores them) and its
   * rate as the resampler's target; the play state is untouched either way.
   */
  lemma ApplySetsLevels(s: Cs.ChannelState, at: SampleAttributes, latency: Fx.StretchLatency, spatialInit: int)
    requires s.Valid()
    ensures var r := Apply(s, at, latency, spatialInit);
            && r.0.playing == s.playing && r.0.markedAsDeleted == s.markedAsDeleted
            && (r.1.Ok? ==>
                  && r.0.gainer.volume == Clamp(at.volume, 0.0, 1.0)
                  && r.0.panner.pan == Clamp(at.pan, -1.0, 1.0)
                  && r.0.resampler.targetSampleRate == Utils.SaturatingCastU32(at.sampleRate))
  {
    var s3 := SetF32Then(SetF32Then(SetF32Then((s, Ok(())), Attributes.Volume, at.volume), Attributes.Pan, at.pan),
                         Attributes.SampleRate, at.sampleRate);
    assert s3.1.Ok? && s3.0.playing == s.playing && s3.0.markedAsDeleted == s.markedAsDeleted;
    assert s3.0.gainer.volume == Clamp(at.volume, 0.0, 1.0) && s3.0.panner.pan == Clamp(at.pan, -1.0, 1.0);
    assert s3.0.resampler.targetSampleRate == Utils.SaturatingCastU32(at.sampleRate);
    var s4 := Cs.SetAttributeBool(s3.0, Attributes.AudioFX, at.enableFx, latency, spatialInit);
    Cs.SetFxEnabledFrame(s3.0, at.enableFx, latency);
    if s4.1.Ok? {
      var s5 := Cs.SetAttributeBool(s4.0, Attributes.AudioSpatialization, at.enableSpatialization, latency, spatialInit);
      assert s5.0 == s4.0.(spatializer := s5.0.spatializer);
      if s5.1.Ok? && at.enableFx {
        var s6 := Cs.SetAttributeF32(s5.0, Attributes.FXPitch, at.fxPitch);
        assert s6.0 == s5.0.(fx := s6.0.fx);
        var s7 := Cs.SetAttributeF32(s6.0, Attributes.FXTempo, at.fxTempo);
        assert s7.0 == s6.0.(fx := s7.0.fx);
      }
    }
  }

  /**
   * The switches of a successful `apply_attributes`: the stretcher is
   * present exactly when the sample enables it, and then carries the
   * sample's pitch and tempo; the spatializer is present exactly when the
   * sample enables it.
   */
  lemma ApplySetsSwitches(s: Cs.ChannelState, at: SampleAttributes, latency: Fx.StretchLatency, spatialInit: int)
    requires s.Valid()
    ensures var r := Apply(s, at, latency, spatialInit);
            r.1.Ok? ==>
              && (r.0.fx.Some? <==> at.enableFx)
              && (r.0.spatializer.Some? <==> at.enableSpatialization)
              && (at.enableFx ==> r.0.fx.value.tempo == at.fxTempo && r.0.fx.value.octave == at.fxPitch)
  {
    var s3 := SetF32Then(SetF32Then(SetF32Then((s, Ok(())), Attributes.Volume, at.volume), Attributes.Pan, at.pan),
                         Attributes.SampleRate, at.sampleRate);
    var s4 := Cs.SetAttributeBool(s3.0, Attributes.AudioFX, at.enableFx, latency, spatialInit);
    if s3.1.Ok? && s4.1.Ok? {
      var s5 := Cs.SetAttributeBool(s4.0, Attributes.AudioSpatialization, at.enableSpatialization, latency, spatialInit);
      assert s5.0.fx == s4.0.fx;
      if s5.1.Ok? && at.enableFx {
        var s6 := Cs.SetAttributeF32(s5.0, Attributes.FXPitch, at.fxPitch);
        assert s6.1.Ok? && s6.0.spatializer == s5.0.spatializer;
        var s7 := Cs.SetAttributeF32(s6.0, Attributes.FXTempo, at.fxTempo);
        assert s7.1.Ok? && s7.0.spatializer == s5.0.spatializer;
      }
    }
  }
}
