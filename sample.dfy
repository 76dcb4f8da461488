/**
 * A decoded sample (`AudioSample`, `src/sample/mod.rs`): the stream's
 * length, rate and channel count, the size of the decoded buffer, and the
 * attribute record the property setters update in place. A sample makes
 * channels over its buffer, attaches them to a device and pushes its
 * attributes onto them.
 */
module Sample {
  import opened Wrappers
  import opened Errors
  import Fx
  import Rd = AudioReader
  import Attributes
  import Cs = ChannelSpec
  import Channel
  import Device
  import opened SampleSpec

  /** The inner channels behind a list of channel handles. */
  function Inners(cs: seq<Channel.AudioChannel>): (r: seq<Channel.ChannelInner>)
    ensures |r| == |cs| && forall i | 0 <= i < |cs| :: r[i] == cs[i].inner
  {
    seq(|cs|, i requires 0 <= i < |cs| => cs[i].inner)
  }

  class AudioSample {
    /** Samples in the decoded buffer, `pcm_length * channels` for a loaded stream. */
    const bufferLen: nat
    const pcmLength: nat
    const sampleRate: nat
    const channels: nat
    var attributes: SampleAttributes

    /** `load_audio_buffer`: the caller's buffer and description, taken as they are. */
    constructor (bufferLen: nat, pcmLength: nat, sampleRate: nat, channels: nat)
      ensures this.bufferLen == bufferLen && this.pcmLength == pcmLength
      ensures this.sampleRate == sampleRate && this.channels == channels
      ensures attributes == LoadedAttributes(sampleRate)
    {
      this.bufferLen := bufferLen;
      this.pcmLength := pcmLength;
      this.sampleRate := sampleRate;
      this.channels := channels;
      this.attributes := LoadedAttributes(sampleRate);
    }

    /** The sample as a value. */
    function State(): SampleState
      reads this
    {
      SampleState(bufferLen, pcmLength, sampleRate, channels, attributes)
    }

    function GetAttributeF32(a: Attributes.AudioAttribute): (r: Result<real, AudioError>)
      reads this
      ensures r == SampleSpec.GetAttributeF32(attributes, a)
    {
      SampleSpec.GetAttributeF32(attributes, a)
    }

    /** `set_attribute_f32`. */
    method SetAttributeF32(a: Attributes.AudioAttribute, v: real) returns (r: Result<(), AudioError>)
      modifies this
      ensures (attributes, r) == SampleSpec.SetAttributeF32(old(attributes), a, v)
    {
      match a {
      case Unknown =>
        return Err(UnknownAttribute);
      case SampleRate =>
        attributes := attributes.(sampleRate := v);
      case Volume =>
        attributes := attributes.(volume := v);
      case Pan =>
        attributes := attributes.(pan := v);
      case FXPitch =>
        if !attributes.enableFx {
          return Err(FxNotEnabled);
        }
        attributes := attributes.(fxPitch := v);
      case FXTempo =>
        if !attributes.enableFx {
          return Err(FxNotEnabled);
        }
        attributes := attributes.(fxTempo := v);
      case _ =>
        return Err(UnsupportedAttribute);
      }
      return Ok(());
    }

    function GetAttributeBool(a: Attributes.AudioAttribute): (r: Result<bool, AudioError>)
      reads this
      ensures r == SampleSpec.GetAttributeBool(attributes, a)
    {
      SampleSpec.GetAttributeBool(attributes, a)
    }

    /** `set_attribute_bool`. */
    method SetAttributeBool(a: Attributes.AudioAttribute, v: bool) returns (r: Result<(), AudioError>)
      modifies this
      ensures (attributes, r) == SampleSpec.SetAttributeBool(old(attributes), a, v)
    {
      match a
      case Unknown =>
        return Err(UnknownAttribute);
      case AudioFX =>
        attributes := attributes.(enableFx := v);
        return Ok(());
      case AudioSpatialization =>
        attributes := attributes.(enableSpatialization := v);
        return Ok(());
      case _ =>
        return Err(UnsupportedAttribute);
    }

    /**
     * `apply_attributes`: the record pushed through the channel's setters
     * (the library reporting `latency` for a new stretcher, miniaudio
     * answering `spatialInit` for a new spatializer).
     */
    method ApplyAttributes(channel: Channel.AudioChannel, latency: Fx.StretchLatency, spatialInit: int)
      returns (r: Result<(), AudioError>)
      requires channel.Valid()
      modifies channel.inner, channel.inner.reader
      ensures channel.Valid()
      ensures (channel.inner.Snapshot(), r) == Apply(old(channel.inner.Snapshot()), attributes, latency, spatialInit)
    {
      r := channel.SetAttributeF32(Attributes.Volume, attributes.volume);
      if r.Err? {
        return;
      }
      r := channel.SetAttributeF32(Attributes.Pan, attributes.pan);
      if r.Err? {
        return;
      }
      r := channel.SetAttributeF32(Attributes.SampleRate, attributes.sampleRate);
      if r.Err? {
        return;
      }
      r := channel.SetAttributeBool(Attributes.AudioFX, attributes.enableFx, latency, spatialInit);
      if r.Err? {
        return;
      }
      r := channel.SetAttributeBool(Attributes.AudioSpatialization, attributes.enableSpatialization, latency, spatialInit);
      if r.Err? {
        return;
      }
      if attributes.enableFx {
        r := channel.SetAttributeF32(Attributes.FXPitch, attributes.fxPitch);
        if r.Err? {
          return;
        }
        r := channel.SetAttributeF32(Attributes.FXTempo, attributes.fxTempo);
      }
    }

    /**
     * One channel over the sample's buffer (`AudioChannel::new_audio_buffer`,
     * miniaudio answering `initResult`, `pannerInit` and `spatialInit`),
     * attached to `device` and given the sample's attributes. Once attached,
     * a channel that fails to take the attributes is dropped.
     */
    method MakeChannel(device: Device.AudioDevice, refId: nat, initResult: int, pannerInit: int, spatialInit: int,
                       latency: Fx.StretchLatency)
      returns (r: Result<Channel.AudioChannel, AudioError>)
      requires device.Valid()
      modifies device.inner
      ensures device.Valid()
      ensures r.Ok? ==> fresh(r.value) && fresh(r.value.inner) && fresh(r.value.inner.reader) && r.value.Valid() && r.value.inner.refId == refId
                        && device.inner.channels == old(device.inner.channels) + [r.value.inner]
                        && r.value.inner.playing == false && !r.value.inner.markedAsDeleted
                        && (r.value.inner.fx.Some? <==> attributes.enableFx)
      ensures r.Err? ==> |old(device.inner.channels)| <= |device.inner.channels| <= |old(device.inner.channels)| + 1
                         && device.inner.channels[..|old(device.inner.channels)|] == old(device.inner.channels)
                         && forall k | |old(device.inner.channels)| <= k < |device.inner.channels| ::
                              fresh(device.inner.channels[k]) && device.inner.channels[k].markedAsDeleted
                              && !device.inner.channels[k].playing
    {
      var made := Channel.NewChannel(refId, Rd.LoadAudioBuffer(sampleRate, channels, pcmLength, initResult), pannerInit, spatialInit);
      if made.Err? {
        return Err(made.error);
      }
      var channel := made.value;
      Device.AttachChannel(channel, device);
      ghost var before := channel.inner.Snapshot();
      var applied := ApplyAttributes(channel, latency, spatialInit);
      ApplySetsLevels(before, attributes, latency, spatialInit);
      ApplySetsSwitches(before, attributes, latency, spatialInit);
      if applied.Err? {
        channel.Drop();
        return Err(applied.error);
      }
      return Ok(channel);
    }

    /**
     * `get_channels`: `size` channels over the sample's buffer, each
     * attached to `device` and given the sample's attributes; the counter
     * hands them the identities from `firstRefId` on. When one fails, every
     * channel made so far is dropped.
     */
    method GetChannels(device: Device.AudioDevice, size: nat, firstRefId: nat, initResult: int, pannerInit: int,
                       spatialInit: int, latency: Fx.StretchLatency)
      returns (r: Result<seq<Channel.AudioChannel>, AudioError>)
      requires device.Valid()
      modifies device.inner
      ensures device.Valid()
      ensures r.Ok? ==> |r.value| == size && device.inner.channels == old(device.inner.channels) + Inners(r.value)
      ensures r.Ok? ==> forall i | 0 <= i < size :: r.value[i].inner.refId == firstRefId + i
      ensures r.Ok? ==> forall i | 0 <= i < size :: !r.value[i].inner.markedAsDeleted
                                                     && (r.value[i].inner.fx.Some? <==> attributes.enableFx)
      ensures r.Err? ==> |old(device.inner.channels)| <= |device.inner.channels|
                         && device.inner.channels[..|old(device.inner.channels)|] == old(device.inner.channels)
                         && forall k | |old(device.inner.channels)| <= k < |device.inner.channels| ::
                              device.inner.channels[k].markedAsDeleted && !device.inner.channels[k].playing
    {
      var made: seq<Channel.AudioChannel> := [];
      ghost var listed := device.inner.channels;
      var i := 0;
      while i < size
        invariant 0 <= i <= size && |made| == i
        invariant device.Valid()
        invariant device.inner.channels == listed + Inners(made)
        invariant forall j | 0 <= j < i :: fresh(made[j].inner)
        invariant Made(made, firstRefId, attributes.enableFx)
      {
        var next := MakeNext(device, listed, made, firstRefId, initResult, pannerInit, spatialInit, latency);
        if next.Err? {
          return Err(next.error);
        }
        made := made + [next.value];
        i := i + 1;
      }
      return Ok(made);
    }

    /**
     * One round of `get_channels`' loop: the next channel, to be appended
     * to the handles, or, when it fails, every handle made so far dropped.
     */
    method MakeNext(device: Device.AudioDevice, ghost listed: seq<Channel.ChannelInner>, made: seq<Channel.AudioChannel>,
                    firstRefId: nat, initResult: int, pannerInit: int, spatialInit: int, latency: Fx.StretchLatency)
      returns (r: Result<Channel.AudioChannel, AudioError>)
      requires device.Valid() && device.inner.channels == listed + Inners(made)
      requires Made(made, firstRefId, attributes.enableFx)
      modifies device.inner, set j | 0 <= j < |made| :: made[j].inner
      ensures device.Valid()
      ensures r.Ok? ==> fresh(r.value.inner) && device.inner.channels == listed + Inners(made + [r.value])
                        && Made(made + [r.value], firstRefId, attributes.enableFx)
      ensures r.Err? ==> |listed| <= |device.inner.channels| && device.inner.channels[..|listed|] == listed
                         && forall k | |listed| <= k < |device.inner.channels| ::
                              device.inner.channels[k].markedAsDeleted && !device.inner.channels[k].playing
    {
      var channel := MakeChannel(device, firstRefId + |made|, initResult, pannerInit, spatialInit, latency);
      if channel.Err? {
        DropMade(device, listed, made);
        return Err(channel.error);
      }
      assert Inners(made + [channel.value]) == Inners(made) + [channel.value.inner];
      MadeSnoc(made, channel.value, firstRefId, attributes.enableFx);
      return channel;
    }

    /**
     * `AudioSample::play` as the source writes it: the channel is made,
     * attached, given the attributes and started, and then its handle goes
     * out of scope at the end of the call, whose `Drop` marks it deleted and
     * stops it. It never sounds, and the next render sweeps it away.
     */
    method PlayAsWritten(device: Device.AudioDevice, refId: nat, initResult: int, pannerInit: int, spatialInit: int,
                         latency: Fx.StretchLatency)
      returns (r: Result<(), AudioError>)
      requires device.Valid()
      modifies device.inner
      ensures device.Valid()
      ensures |old(device.inner.channels)| <= |device.inner.channels|
      ensures device.inner.channels[..|old(device.inner.channels)|] == old(device.inner.channels)
      ensures r.Ok? ==> |device.inner.channels| == |old(device.inner.channels)| + 1
      ensures forall k | |old(device.inner.channels)| <= k < |device.inner.channels| ::
                device.inner.channels[k].markedAsDeleted && !device.inner.channels[k].playing
    {
      var made := MakeChannel(device, refId, initResult, pannerInit, spatialInit, latency);
      if made.Err? {
        return Err(made.error);
      }
      var channel := made.value;
      var started := channel.Play();
      channel.Drop();
      if started.Err? {
        return Err(started.error);
      }
      return Ok(());
    }

    /**
     * `AudioSample::play` as intended: the started channel's handle is
     * handed back, so the channel stays attached and playing until the
     * caller drops it.
     */
    method Play(device: Device.AudioDevice, refId: nat, initResult: int, pannerInit: int, spatialInit: int,
                latency: Fx.StretchLatency)
      returns (r: Result<Channel.AudioChannel, AudioError>)
      requires device.Valid()
      modifies device.inner
      ensures device.Valid()
      ensures |old(device.inner.channels)| <= |device.inner.channels|
      ensures device.inner.channels[..|old(device.inner.channels)|] == old(device.inner.channels)
      ensures r.Ok? ==> device.inner.channels == old(device.inner.channels) + [r.value.inner]
                        && r.value.inner.playing && !r.value.inner.markedAsDeleted && r.value.inner.refId == refId
      ensures r.Err? ==> forall k | |old(device.inner.channels)| <= k < |device.inner.channels| ::
                           device.inner.channels[k].markedAsDeleted && !device.inner.channels[k].playing
    {
      var made := MakeChannel(device, refId, initResult, pannerInit, spatialInit, latency);
      if made.Err? {
        return Err(made.error);
      }
      var channel := made.value;
      var started := channel.Play();
      if started.Err? {
        channel.Drop();
        return Err(started.error);
      }
      return Ok(channel);
    }
  }

  /**
   * The handles `get_channels` has made so far: valid, over distinct
   * channels, numbered from `firstRefId` on, live, and with a stretcher
   * exactly when the sample's effects are on.
   */
  ghost predicate Made(made: seq<Channel.AudioChannel>, firstRefId: nat, enableFx: bool)
    reads set j | 0 <= j < |made| :: made[j]
    reads set j | 0 <= j < |made| :: made[j].inner
    reads set j | 0 <= j < |made| :: made[j].inner.reader
  {
    && (forall j | 0 <= j < |made| :: made[j].Valid())
    && (forall j, k | 0 <= j < k < |made| :: made[j].inner != made[k].inner)
    && (forall j | 0 <= j < |made| :: made[j].inner.refId == firstRefId + j && !made[j].inner.markedAsDeleted
                                      && (made[j].inner.fx.Some? <==> enableFx))
  }

  lemma MadeSnoc(made: seq<Channel.AudioChannel>, c: Channel.AudioChannel, firstRefId: nat, enableFx: bool)
    requires Made(made, firstRefId, enableFx)
    requires c.Valid() && c.inner.refId == firstRefId + |made| && !c.inner.markedAsDeleted
    requires c.inner.fx.Some? <==> enableFx
    requires forall j | 0 <= j < |made| :: made[j].inner != c.inner
    ensures Made(made + [c], firstRefId, enableFx)
  {
  }

  /**
   * A failed `get_channels` drops the handles it made: with the channel a
   * failing `MakeChannel` may already have dropped, every channel past the
   * ones listed before the call is deleted and stopped.
   */
  method DropMade(device: Device.AudioDevice, ghost listed: seq<Channel.ChannelInner>, made: seq<Channel.AudioChannel>)
    requires device.Valid()
    requires |listed| + |made| <= |device.inner.channels|
    requires device.inner.channels[..|listed| + |made|] == listed + Inners(made)
    requires forall k | |listed| + |made| <= k < |device.inner.channels| ::
               device.inner.channels[k].markedAsDeleted && !device.inner.channels[k].playing
    requires forall j | 0 <= j < |made| :: made[j].Valid()
    requires forall j, k | 0 <= j < k < |made| :: made[j].inner != made[k].inner
    modifies set j | 0 <= j < |made| :: made[j].inner
    ensures device.Valid()
    ensures device.inner.channels == old(device.inner.channels)
    ensures device.inner.channels[..|listed|] == listed
    ensures forall k | |listed| <= k < |device.inner.channels| ::
              device.inner.channels[k].markedAsDeleted && !device.inner.channels[k].playing
  {
    DropAll(made);
    assert forall k | |listed| <= k < |listed| + |made| :: device.inner.channels[k] == made[k - |listed|].inner;
  }

  /** Dropping every handle of a list: each channel is stopped and marked for the next sweep. */
  method DropAll(cs: seq<Channel.AudioChannel>)
    requires forall j | 0 <= j < |cs| :: cs[j].Valid()
    requires forall j, k | 0 <= j < k < |cs| :: cs[j].inner != cs[k].inner
    modifies set j | 0 <= j < |cs| :: cs[j].inner
    ensures forall j | 0 <= j < |cs| :: cs[j].inner.markedAsDeleted && !cs[j].inner.playing
  {
    var i := 0;
    while i < |cs|
      invariant 0 <= i <= |cs|
      invariant forall j | 0 <= j < i :: cs[j].inner.markedAsDeleted && !cs[j].inner.playing
      invariant forall j | i <= j < |cs| :: cs[j].Valid()
    {
      cs[i].Drop();
      i := i + 1;
    }
  }

  /**
   * `AudioSample::load` and `load_file_buffer`, after the reader's loader
   * answered `loaded`: a reader over the stream reads all of it into a
   * fresh sample, as `SampleSpec.Load` describes.
   */
  method Load(loaded: Result<Rd.ReaderConfig, AudioError>) returns (r: Result<AudioSample, AudioError>)
    ensures r.Ok? ==> fresh(r.value) && SampleSpec.Load(loaded) == Ok(r.value.State())
    ensures r.Err? ==> SampleSpec.Load(loaded) == Err(r.error)
  {
    if loaded.Err? {
      return Err(loaded.error);
    }
    var reader := new Rd.Reader(loaded.value);
    var bufferLen := reader.pcmLength * reader.channels;
    var got := reader.Read(bufferLen, reader.pcmLength);
    if got.Err? {
      return Err(got.error);
    }
    var sample := new AudioSample(bufferLen, reader.pcmLength, reader.sampleRate, reader.channels);
    return Ok(sample);
  }
}
