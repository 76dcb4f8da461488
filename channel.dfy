/**
 * A channel as the source holds it: `AudioChannelInner` (`channel/inner.rs`),
 * whose fields `read_pcm_frames` and `seek` update in place, and the
 * `AudioChannel` handle (`channel/mod.rs`) that the application holds.
 * Every method is proved to do what the matching `ChannelSpec` function
 * says of the state before it.
 */
module Channel {
  import opened Wrappers
  import opened Errors
  import opened Stages
  import Fx
  import Rs = Resampler
  import Rd = AudioReader
  import Attributes
  import Utils
  import opened ChannelSpec

  class ChannelInner {
    /** The identity `CHANNEL_ID` handed out when the channel was made; the device registry keys on it. */
    const refId: nat
    const reader: Rd.Reader
    var resampler: Rs.Resampler
    var gainer: Gainer
    var panner: Panner
    var fx: Option<Fx.Fx>
    var spatializer: Option<Spatializer>
    var playing: bool
    var isLooping: bool
    var position: nat
    var markedAsDeleted: bool

    /** The channel's fields (and its reader's) as one value. */
    function Snapshot(): ChannelState
      reads this, reader
    {
      ChannelState(reader.State(), resampler, gainer, panner, fx, spatializer, playing, isLooping, position, markedAsDeleted)
    }

    ghost predicate Valid()
      reads this, reader
    {
      Snapshot().Valid()
    }

    /** The fields `create_inner` sets: stopped, at 0, not looping, no stretcher. */
    constructor (refId: nat, reader: Rd.Reader, resampler: Rs.Resampler, gainer: Gainer, panner: Panner, spatializer: Option<Spatializer>)
      ensures this.refId == refId && this.reader == reader
      ensures Snapshot() == ChannelState(reader.State(), resampler, gainer, panner, None, spatializer, false, false, 0, false)
    {
      this.refId := refId;
      this.reader := reader;
      this.resampler := resampler;
      this.gainer := gainer;
      this.panner := panner;
      this.fx := None;
      this.spatializer := spatializer;
      this.playing := false;
      this.isLooping := false;
      this.position := 0;
      this.markedAsDeleted := false;
    }

    /** Feeding the stretcher: read its input while the source lasts and credit it. */
    method FeedStretcher(required: nat, outputLen: nat) returns (r: Result<nat, AudioError>)
      requires Valid() && fx.Some?
      modifies this, reader
      ensures Valid() && fx.Some?
      ensures (Snapshot(), r) == FxFeed(old(Snapshot()), required, outputLen)
    {
      var f := fx.value;
      var target: nat := required;
      if !Fx.TempoBypass(f) {
        target := Fx.GetRequiredInput(f, target).ToOption().UnwrapOr(0);
      }
      var avail := reader.AvailableFrames();
      if avail == 0 {
        return Ok(target);
      }
      var got := reader.Read(outputLen, target);
      if got.Err? {
        return got;
      }
      if got.value >= avail {
        f := f.(frameAvailable := f.frameAvailable + f.latency.output);
      } else {
        f := f.(frameAvailable := f.frameAvailable + required);
      }
      fx := Some(f);
      return got;
    }

    /** Taking frames out of the stretcher: its size checks, then what the credit allows. */
    method DrainStretcher(input: nat, required: nat, outputLen: nat, tempLen: nat) returns (r: Result<nat, AudioError>)
      requires Valid() && fx.Some?
      modifies this
      ensures Valid()
      ensures (Snapshot(), r) == FxHandOut(old(Snapshot()), input, required, outputLen, tempLen)
    {
      var f := fx.value;
      var readed := required;
      if f.frameAvailable > 0 {
        var check := Fx.Process(f, outputLen, input, tempLen, readed);
        if check.Some? {
          return Err(check.value);
        }
        f := f.(frameAvailable := f.frameAvailable - readed);
        if f.frameAvailable < 0 {
          readed := (readed as int + f.frameAvailable) as nat;
          f := f.(frameAvailable := 0);
        }
        fx := Some(f);
      } else {
        readed := 0;
      }
      if !Utils.CopyFits(tempLen, outputLen, 0, 0, readed * reader.channels) {
        return Err(Panic);
      }
      return Ok(readed);
    }

    /** The source stage: through the stretcher when there is one, else straight from the reader. */
    method ReadSource(required: nat, outputLen: nat, tempLen: nat) returns (r: Result<nat, AudioError>)
      requires Valid()
      modifies this, reader
      ensures Valid()
      ensures (Snapshot(), r) == Source(old(Snapshot()), required, outputLen, tempLen)
    {
      if fx.Some? {
        var fed := FeedStretcher(required, outputLen);
        if fed.Err? {
          return Err(fed.error);
        }
        r := DrainStretcher(fed.value, required, outputLen, tempLen);
      } else {
        r := reader.Read(outputLen, required);
      }
    }

    /** The resampler, gainer and panner after the source; they change no field. */
    method RunStages(frames: nat, required: nat, frameCount: nat, outputLen: nat, tempLen: nat) returns (r: Result<nat, AudioError>)
      ensures r == PostStages(Snapshot(), frames, required, frameCount, outputLen, tempLen)
    {
      var n := frames;
      if !Rs.BypassMode(resampler) {
        var rf := Rs.Process(resampler, outputLen, required, tempLen, frameCount);
        if rf.Err? {
          return rf;
        }
        if !Utils.CopyFits(tempLen, outputLen, 0, 0, rf.value * reader.channels) {
          return Err(Panic);
        }
        n := rf.value;
      }
      var gain := StageProcess(gainer.channels, outputLen, tempLen, n);
      if gain.Some? {
        return Err(gain.value);
      }
      var pan := StageProcess(panner.channels, tempLen, outputLen, n);
      if pan.Some? {
        return Err(pan.value);
      }
      return Ok(n);
    }

    /** The position moves on; a short read rewinds a looping channel and stops any other. */
    method AdvanceBy(frames: nat, frameCount: nat)
      requires Valid()
      modifies this, reader
      ensures Valid()
      ensures Snapshot() == Advance(old(Snapshot()), frames, frameCount)
    {
      position := position + frames;
      if frames < frameCount {
        if isLooping {
          var rewound := reader.Seek(0);
        } else {
          playing := false;
        }
      }
    }

    /** `read_pcm_frames`. */
    method ReadPcmFrames(frameCount: nat, outputLen: nat, tempLen: nat, listener: bool, spatialResult: int)
      returns (r: Result<nat, AudioError>)
      requires Valid()
      modifies this, reader
      ensures Valid()
      ensures (Snapshot(), r) == Read(old(Snapshot()), frameCount, outputLen, tempLen, listener, spatialResult)
    {
      ghost var s0 := Snapshot();
      ghost var spec := Read(s0, frameCount, outputLen, tempLen, listener, spatialResult);
      if !playing {
        return Ok(0);
      }
      var required := Rs.GetRequiredInput(resampler, frameCount).value;
      var src := ReadSource(required, outputLen, tempLen);
      ghost var s1 := Snapshot();
      if src.Err? {
        assert spec == (s1, src);
        return src;
      }
      var post := RunStages(src.value, required, frameCount, outputLen, tempLen);
      if post.Err? {
        assert spec == (s1, Err(post.error));
        return post;
      }
      var frames := post.value;
      AdvanceBy(frames, frameCount);
      var spatial := SpatialStage(Snapshot(), frames, outputLen, tempLen, listener, spatialResult);
      if spatial.Some? {
        return Err(spatial.value);
      }
      return Ok(frames);
    }

    /** `seek`. */
    method Seek(p: nat) returns (r: Result<nat, AudioError>)
      requires Valid()
      modifies this, reader
      ensures (Snapshot(), r) == ChannelSpec.Seek(old(Snapshot()), p)
      ensures Valid()
    {
      ChannelSpec.SeekOutcome(Snapshot(), p);
      if p >= reader.pcmLength {
        return Err(SeekOutOfBounds);
      }
      position := p;
      var sought := reader.Seek(p);
      match sought
      case Err(e) => return Err(e);
      case Ok(_) =>
      if fx.Some? && fx.value.latency.input > 0 {
        var lat := fx.value.latency.input;
        var got := reader.Read(lat * 2, lat);
        if got.Err? {
          return Err(got.error);
        }
        match Fx.PreProcess(fx.value, lat * 2, lat)
        case Err(e) => return Err(e);
        case Ok(primed) => fx := Some(primed);
      }
      return Ok(p);
    }

    function IsPlaying(): (b: bool)
      reads this
      ensures b == playing
    {
      playing
    }
  }

  /**
   * `create_inner`, on a reader just loaded: the panner (miniaudio
   * answering `pannerInit`), the gainer, the resampler and the spatializer
   * (`spatialInit`), in that order.
   */
  method NewChannelInner(refId: nat, reader: Rd.Reader, sampleRate: nat, pannerInit: int, spatialInit: int)
    returns (r: Result<ChannelInner, AudioError>)
    requires reader.Valid() && reader.position == 0 && reader.sampleRate == sampleRate
    ensures r.Ok? ==> fresh(r.value) && r.value.reader == reader && r.value.refId == refId && r.value.Valid()
                      && Create(reader.State(), sampleRate, pannerInit, spatialInit) == Ok(r.value.Snapshot())
    ensures r.Err? ==> Create(reader.State(), sampleRate, pannerInit, spatialInit) == Err(r.error)
  {
    if pannerInit != 0 {
      return Err(StageFailed(pannerInit));
    }
    var gainer := NewGainer(reader.channels);
    if gainer.Err? {
      return Err(gainer.error);
    }
    var resampler := Rs.New(reader.channels, sampleRate);
    if resampler.Err? {
      return Err(resampler.error);
    }
    if spatialInit != 0 {
      return Err(StageFailed(spatialInit));
    }
    var inner := new ChannelInner(refId, reader, resampler.value, gainer.value, Panner(reader.channels, 0.0),
                                  Some(Spatializer(reader.channels, reader.channels, FreshSettings())));
    return Ok(inner);
  }

  /**
   * The `AudioChannel` handle: the shared inner channel and the stream's
   * length and rate, copied when the handle was made.
   */
  class AudioChannel {
    const inner: ChannelInner
    const pcmLength: nat
    const sampleRate: nat

    ghost predicate Valid()
      reads this, inner, inner.reader
    {
      inner.Valid() && pcmLength == inner.reader.pcmLength && sampleRate == inner.reader.sampleRate
    }

    constructor (inner: ChannelInner)
      requires inner.Valid()
      ensures Valid() && this.inner == inner
    {
      this.inner := inner;
      this.pcmLength := inner.reader.pcmLength;
      this.sampleRate := inner.reader.sampleRate;
    }

    /** `play`. */
    method Play() returns (r: Result<(), AudioError>)
      requires Valid()
      modifies inner, inner.reader
      ensures Valid()
      ensures (inner.Snapshot(), r) == ChannelSpec.Play(old(inner.Snapshot()))
    {
      inner.playing := true;
      if inner.position == 0 {
        var sought := inner.Seek(0);
        if sought.Err? {
          return Err(sought.error);
        }
      }
      return Ok(());
    }

    /** `stop`. */
    method Stop()
      requires Valid()
      modifies inner
      ensures Valid()
      ensures inner.Snapshot() == ChannelSpec.Stop(old(inner.Snapshot()))
    {
      inner.playing := false;
    }

    /** `seek`. */
    method Seek(p: nat) returns (r: Result<(), AudioError>)
      requires Valid()
      modifies inner, inner.reader
      ensures Valid()
      ensures (inner.Snapshot(), r) == SeekHandle(old(inner.Snapshot()), pcmLength, p)
    {
      if p >= pcmLength {
        return Err(SeekOutOfBounds);
      }
      var sought := inner.Seek(p);
      if sought.Err? {
        return Err(sought.error);
      }
      return Ok(());
    }

    /** `seek_ms`. */
    method SeekMs(ms: nat) returns (r: Result<(), AudioError>)
      requires Valid()
      modifies inner, inner.reader
      ensures Valid()
      ensures (inner.Snapshot(), r) == SeekHandle(old(inner.Snapshot()), pcmLength, MsToFrames(ms, sampleRate))
    {
      r := Seek(ms * sampleRate / 1000);
    }

    function IsPlaying(): (b: bool)
      reads this, inner
      ensures b == inner.playing
    {
      inner.playing
    }

    function GetPosition(): (p: nat)
      reads this, inner
      ensures p == inner.position
    {
      inner.position
    }

    method SetLooping(looping: bool)
      requires Valid()
      modifies inner
      ensures Valid()
      ensures inner.Snapshot() == old(inner.Snapshot()).(isLooping := looping)
    {
      inner.isLooping := looping;
    }

    function IsLooping(): (b: bool)
      reads this, inner
      ensures b == inner.isLooping
    {
      inner.isLooping
    }

    /** `read_pcm_frames` of the handle: no listener. */
    method ReadPcmFrames(frameCount: nat, outputLen: nat, tempLen: nat) returns (r: Result<nat, AudioError>)
      requires Valid()
      modifies inner, inner.reader
      ensures Valid()
      ensures (inner.Snapshot(), r) == Read(old(inner.Snapshot()), frameCount, outputLen, tempLen, false, 0)
    {
      r := inner.ReadPcmFrames(frameCount, outputLen, tempLen, false, 0);
    }

    /** `read_simple`: the number of samples returned. */
    method ReadSimple(frameCount: nat) returns (r: Result<nat, AudioError>)
      requires Valid()
      modifies inner, inner.reader
      ensures Valid()
      ensures (inner.Snapshot(), r) == ChannelSpec.ReadSimple(old(inner.Snapshot()), frameCount)
    {
      if frameCount > MAX_FRAMES {
        return Err(PCMLengthTooLarge);
      }
      var got := inner.ReadPcmFrames(frameCount, SIMPLE_BUFFER, SIMPLE_BUFFER, false, 0);
      r := Interleaved(got, inner.reader.channels);
    }

    function GetAttributeF32(a: Attributes.AudioAttribute): (r: Result<real, AudioError>)
      reads this, inner, inner.reader
      ensures r == ChannelSpec.GetAttributeF32(inner.Snapshot(), a)
    {
      ChannelSpec.GetAttributeF32(inner.Snapshot(), a)
    }

    /** `set_attribute_f32`. */
    method SetAttributeF32(a: Attributes.AudioAttribute, v: real) returns (r: Result<(), AudioError>)
      requires Valid()
      modifies inner
      ensures Valid()
      ensures (inner.Snapshot(), r) == ChannelSpec.SetAttributeF32(old(inner.Snapshot()), a, v)
    {
      match a {
      case FXTempo =>
        if inner.fx.None? {
          return Err(FxNotEnabled);
        }
        inner.fx := Some(Fx.SetTempo(inner.fx.value, v));
      case FXPitch =>
        if inner.fx.None? {
          return Err(FxNotEnabled);
        }
        inner.fx := Some(Fx.SetOctave(inner.fx.value, v));
      case SampleRate =>
        inner.resampler := Rs.SetTargetSampleRate(inner.resampler, Utils.SaturatingCastU32(v));
      case Volume =>
        inner.gainer := SetVolume(inner.gainer, v);
      case Pan =>
        inner.panner := SetPan(inner.panner, v);
      case _ =>
        return Err(UnsupportedAttribute);
      }
      return Ok(());
    }

    function GetAttributeBool(a: Attributes.AudioAttribute): (r: Result<bool, AudioError>)
      reads this, inner, inner.reader
      ensures r == ChannelSpec.GetAttributeBool(inner.Snapshot(), a)
    {
      ChannelSpec.GetAttributeBool(inner.Snapshot(), a)
    }

    /**
     * `set_attribute_bool`: the stretcher (the library reporting `latency`)
     * or the spatializer (miniaudio answering `spatialInit`).
     */
    method SetAttributeBool(a: Attributes.AudioAttribute, v: bool, latency: Fx.StretchLatency, spatialInit: int)
      returns (r: Result<(), AudioError>)
      requires Valid()
      modifies inner, inner.reader
      ensures Valid()
      ensures (inner.Snapshot(), r) == ChannelSpec.SetAttributeBool(old(inner.Snapshot()), a, v, latency, spatialInit)
    {
      match a
      case AudioFX =>
        if v {
          if inner.fx.None? {
            var created := Fx.New(inner.reader.channels, inner.reader.sampleRate, latency);
            if created.Err? {
              return Err(created.error);
            }
            inner.fx := Some(created.value);
          }
        } else {
          inner.fx := None;
        }
        var sought := inner.Seek(inner.position);
        if sought.Err? {
          return Err(sought.error);
        }
        return Ok(());
      case AudioSpatialization =>
        if v {
          if inner.spatializer.None? {
            if spatialInit != 0 {
              return Err(StageFailed(spatialInit));
            }
            inner.spatializer := Some(Spatializer(inner.reader.channels, inner.reader.channels, FreshSettings()));
          }
        } else {
          inner.spatializer := None;
        }
        return Ok(());
      case _ =>
        return Err(UnsupportedAttribute);
    }

    /** The spatial setters (`set_position`, `set_velocity`, ... `set_directional_attenuation_factor`). */
    method SetSpatial(p: SpatialProperty, v: SpatialValue) returns (r: Result<(), AudioError>)
      requires Valid()
      modifies inner
      ensures Valid()
      ensures (inner.Snapshot(), r) == ChannelSpec.SetSpatial(old(inner.Snapshot()), p, v)
    {
      if inner.spatializer.None? {
        return Err(NotInitialized);
      }
      var sp := inner.spatializer.value;
      inner.spatializer := Some(sp.(settings := Store(sp.settings, p, v)));
      return Ok(());
    }

    function GetSpatial(p: SpatialProperty): (r: Result<SpatialValue, AudioError>)
      reads this, inner, inner.reader
      ensures r == ChannelSpec.GetSpatial(inner.Snapshot(), p)
    {
      ChannelSpec.GetSpatial(inner.Snapshot(), p)
    }

    /** `drop`. */
    method Drop()
      requires Valid()
      modifies inner
      ensures Valid()
      ensures inner.Snapshot() == ChannelSpec.Drop(old(inner.Snapshot()))
    {
      inner.markedAsDeleted := true;
      inner.playing := false;
    }
  }

  /**
   * `new_file`, `new_file_buffer` and `new_audio_buffer`, after their
   * loader (`Load`, `LoadFileBuffer`, `LoadAudioBuffer`) answered `loaded`:
   * a loader error is passed on, otherwise a reader is built and the inner
   * channel created at the stream's own rate.
   */
  method NewChannel(refId: nat, loaded: Result<Rd.ReaderConfig, AudioError>, pannerInit: int, spatialInit: int)
    returns (r: Result<AudioChannel, AudioError>)
    ensures loaded.Err? ==> r == Err(loaded.error)
    ensures loaded.Ok? ==> var st := Rd.ReaderState(loaded.value.backing, loaded.value.sampleRate, loaded.value.channels, loaded.value.pcmLength, 0);
                           (r.Ok? <==> Create(st, st.sampleRate, pannerInit, spatialInit).Ok?)
                           && (r.Ok? ==> fresh(r.value) && fresh(r.value.inner) && fresh(r.value.inner.reader) && r.value.Valid()
                                         && r.value.inner.refId == refId
                                         && Create(st, st.sampleRate, pannerInit, spatialInit) == Ok(r.value.inner.Snapshot()))
  {
    if loaded.Err? {
      return Err(loaded.error);
    }
    var reader := new Rd.Reader(loaded.value);
    var inner := NewChannelInner(refId, reader, reader.sampleRate, pannerInit, spatialInit);
    if inner.Err? {
      return Err(inner.error);
    }
    var channel := new AudioChannel(inner.value);
    return Ok(channel);
  }
}
