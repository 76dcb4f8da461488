/**
 * The builders of `src/builders/`: plain records whose setters return an
 * updated copy, and whose `build` validates the record, creates the object
 * and applies the requested switches in a fixed order.
 *
 * What the build steps ask of the outside world is passed in: the
 * device's creation (`AudioDevice::new`, miniaudio), the answers the
 * loaders get from the file system and the decoders, the identity the
 * global counter hands out, and what the stretcher and miniaudio report
 * when a stage is created.
 */
module Builders {
  import opened Wrappers
  import opened Errors
  import Fx
  import Attributes
  import Rd = AudioReader
  import Cs = ChannelSpec
  import Ms = MixerSpec
  import Ds = DeviceSpec
  import Ss = SampleSpec

  /** `AudioBufferDesc`: raw PCM data (its length in samples) and how to read it. */
  datatype BufferDesc = BufferDesc(bufferLen: nat, pcmLength: nat, sampleRate: nat, channels: nat)

  // ---- AudioDeviceBuilder

  /** `AudioDeviceBuilder`; `hardware` is the identity of the chosen playback device, if any. */
  datatype DeviceBuilder = DeviceBuilder(
    channel: nat,
    sampleRate: nat,
    hardware: Option<nat>,
    enableSpatialization: bool,
    enableFx: bool)
  {
    function WithChannel(c: nat): DeviceBuilder { this.(channel := c) }
    function WithSampleRate(rate: nat): DeviceBuilder { this.(sampleRate := rate) }
    function WithHardware(h: nat): DeviceBuilder { this.(hardware := Some(h)) }
    function WithSpatialization(v: bool): DeviceBuilder { this.(enableSpatialization := v) }
    function WithFx(v: bool): DeviceBuilder { this.(enableFx := v) }
  }

  /** `AudioDeviceBuilder::new`: stereo at 44100 Hz on the default hardware, both switches off. */
  const NEW_DEVICE_BUILDER: DeviceBuilder := DeviceBuilder(2, 44100, None, false, false)

  /** The playback channel counts a device accepts: mono, stereo and quad. */
  predicate DeviceChannelOk(c: nat) { c == 1 || c == 2 || c == 4 }

  /** The device rates a device accepts. */
  predicate DeviceRateOk(rate: nat) { rate == 44100 || rate == 48000 }

  /**
   * `AudioDeviceBuilder::build`: the channel count is checked, then the
   * rate; only then is the device created (`created` is what
   * `AudioDevice::new` answers for the builder's hardware, count and rate),
   * and spatialization and then the stretcher switched as requested
   * (the listener's miniaudio answer is `listenerInit`, the stretch
   * library's latency `latency`).
   */
  function BuildDevice(b: DeviceBuilder, created: Result<Ds.DeviceState, AudioError>,
                       latency: Fx.StretchLatency, listenerInit: int): (r: Result<Ds.DeviceState, AudioError>)
    requires created.Ok? ==> created.value.Valid()
    ensures !DeviceChannelOk(b.channel) ==> r == Err(InvalidChannelCount(b.channel))
    ensures DeviceChannelOk(b.channel) && !DeviceRateOk(b.sampleRate) ==> r == Err(InvalidBuildSampleRate(b.sampleRate))
    ensures DeviceChannelOk(b.channel) && DeviceRateOk(b.sampleRate) && created.Err? ==> r == Err(created.error)
    ensures r.Ok? ==> created.Ok? && r.value.Valid()
                      && (r.value.listener.Some? <==> b.enableSpatialization) && (r.value.fx.Some? <==> b.enableFx)
                      && r.value == created.value.(listener := r.value.listener, fx := r.value.fx)
  {
    if !DeviceChannelOk(b.channel) then Err(InvalidChannelCount(b.channel))
    else if !DeviceRateOk(b.sampleRate) then Err(InvalidBuildSampleRate(b.sampleRate))
    else match created
      case Err(e) => Err(e)
      case Ok(d) =>
        var (d1, spatial) := Ds.SetAttributeBool(d, Attributes.AudioSpatialization, b.enableSpatialization, latency, listenerInit);
        if spatial.Err? then Err(spatial.error)
        else
          var (d2, fx) := Ds.SetAttributeBool(d1, Attributes.AudioFX, b.enableFx, latency, listenerInit);
          if fx.Err? then Err(fx.error) else Ok(d2)
  }

  /**
   * The setters change only the field they name, and the hardware and
   * the two switches play no part in the validation: with them changed a
   * build is refused exactly when it was refused before, with the same
   * error.
   */
  lemma DeviceSettersIndependent(b: DeviceBuilder, h: nat, v: bool, w: bool, created: Result<Ds.DeviceState, AudioError>,
                                 latency: Fx.StretchLatency, listenerInit: int)
    requires created.Ok? ==> created.value.Valid()
    ensures b.WithChannel(7).sampleRate == b.sampleRate && b.WithSampleRate(7).channel == b.channel
    ensures b.WithHardware(h) == b.(hardware := Some(h))
    ensures var c := b.WithHardware(h).WithSpatialization(v).WithFx(w);
            !(DeviceChannelOk(b.channel) && DeviceRateOk(b.sampleRate)) ==>
              BuildDevice(c, created, latency, listenerInit) == BuildDevice(b, created, latency, listenerInit)
  {
  }

  /**
   * The defaults pass validation, and the last value given for a field is
   * the one `build` checks: a builder set to an accepted count and rate,
   * whatever was set before, fails only when the device's creation fails,
   * or a switch it asked for.
   */
  lemma DeviceBuilderDefaultsValid(b: DeviceBuilder, c: nat, rate: nat, created: Result<Ds.DeviceState, AudioError>,
                                   latency: Fx.StretchLatency, listenerInit: int)
    requires created.Ok? ==> created.value.Valid()
    requires DeviceChannelOk(c) && DeviceRateOk(rate)
    ensures DeviceChannelOk(NEW_DEVICE_BUILDER.channel) && DeviceRateOk(NEW_DEVICE_BUILDER.sampleRate)
    ensures var r := BuildDevice(b.WithSampleRate(17).WithChannel(c).WithSampleRate(rate), created, latency, listenerInit);
            && (created.Err? ==> r == Err(created.error))
            && (created.Ok? && !b.enableSpatialization && !b.enableFx ==> r.Ok?)
  {
  }

  /**
   * With both switches off a validated build yields the created device
   * itself: no listener and no stretcher are made, so nothing can fail.
   */
  lemma DefaultDeviceBuildIsCreated(d: Ds.DeviceState, latency: Fx.StretchLatency, listenerInit: int)
    requires d.Valid()
    ensures BuildDevice(NEW_DEVICE_BUILDER, Ok(d), latency, listenerInit) == Ok(d.(listener := None, fx := None))
  {
  }

  // ---- AudioMixerBuilder

  /** `AudioMixerBuilder`; `device` is the device to attach the new mixer to, if any. */
  datatype MixerBuilder = MixerBuilder(
    device: Option<Ds.DeviceState>,
    channel: nat,
    sampleRate: nat,
    enableSpatialization: bool,
    enableFx: bool)
  {
    function WithDevice(d: Ds.DeviceState): MixerBuilder { this.(device := Some(d)) }
    function WithChannel(c: nat): MixerBuilder { this.(channel := c) }
    function WithSampleRate(rate: nat): MixerBuilder { this.(sampleRate := rate) }
    function WithSpatialization(v: bool): MixerBuilder { this.(enableSpatialization := v) }
    function WithFx(v: bool): MixerBuilder { this.(enableFx := v) }
  }

  /** `AudioMixerBuilder::new`: no device, stereo at 44100 Hz, both switches off. */
  const NEW_MIXER_BUILDER: MixerBuilder := MixerBuilder(None, 2, 44100, false, false)

  predicate MixerChannelOk(c: nat) { 1 <= c <= 8 }

  predicate MixerRateOk(rate: nat) { 8000 <= rate <= 192000 }

  /**
   * `AudioMixerBuilder::build`: the channel count is checked, then the
   * rate; the mixer is created (miniaudio answering `pannerInit`) and,
   * when a device was given, registered with it under `refId` before
   * spatialization and then the stretcher are switched as requested. The
   * result pairs the device as the build leaves it with the mixer.
   */
  function BuildMixer(b: MixerBuilder, refId: nat, pannerInit: int, latency: Fx.StretchLatency)
    : (r: (Option<Ds.DeviceState>, Result<Ms.MixerTree, AudioError>))
    ensures !MixerChannelOk(b.channel) ==> r == (b.device, Err(InvalidChannelCount(b.channel)))
    ensures MixerChannelOk(b.channel) && !MixerRateOk(b.sampleRate) ==> r == (b.device, Err(InvalidBuildSampleRate(b.sampleRate)))
    ensures MixerChannelOk(b.channel) && MixerRateOk(b.sampleRate) && pannerInit != 0 ==> r == (b.device, Err(StageFailed(pannerInit)))
    ensures b.device.None? ==> r.0.None?
    ensures b.device.Some? && r.0 != b.device ==>
              r.0.Some? && r.0.value == b.device.value.(mixers := b.device.value.mixers + [Ds.Node(refId, false)])
    ensures b.device.Some? && r.1.Ok? ==> r.0 != b.device && !Ds.HasId(b.device.value.mixers, refId)
    ensures b.device.Some? && Ds.HasId(b.device.value.mixers, refId) ==> r.0 == b.device && r.1.Err?
    ensures r.1.Ok? ==> Ms.Valid(r.1.value) && r.1.value.channelCount == b.channel && r.1.value.sampleRate == b.sampleRate
                        && (r.1.value.fx.Some? <==> b.enableFx) && !r.1.value.playing
                        && |r.1.value.channels| == 0 && |r.1.value.mixers| == 0
  {
    if !MixerChannelOk(b.channel) then (b.device, Err(InvalidChannelCount(b.channel)))
    else if !MixerRateOk(b.sampleRate) then (b.device, Err(InvalidBuildSampleRate(b.sampleRate)))
    else match Ms.Create(b.channel, b.sampleRate, pannerInit)
      case Err(e) => (b.device, Err(e))
      case Ok(t) =>
        var (device, added) :=
          if b.device.None? then (None, Ok(()))
          else var (d, a) := Ds.AddMixer(b.device.value, Ds.Node(refId, false)); (Some(d), a);
        if added.Err? then (device, Err(added.error))
        else
          var (t1, spatial) := Ms.SetAttributeBool(t, Attributes.AudioSpatialization, b.enableSpatialization, latency);
          if spatial.Err? then (device, Err(spatial.error))
          else
            Ms.SetAttributeBoolFrame(t1, Attributes.AudioFX, b.enableFx, latency);
            var (t2, fx) := Ms.SetAttributeBool(t1, Attributes.AudioFX, b.enableFx, latency);
            if fx.Err? then (device, Err(fx.error)) else (device, Ok(t2))
  }

  /**
   * The switches are applied after the registration: a mixer that passes
   * validation and creation is registered with the device even when
   * switching its stretcher on fails.
   */
  lemma MixerRegisteredBeforeSwitches(b: MixerBuilder, refId: nat, latency: Fx.StretchLatency)
    requires b.device.Some? && !Ds.HasId(b.device.value.mixers, refId)
    requires MixerChannelOk(b.channel) && MixerRateOk(b.sampleRate)
    ensures BuildMixer(b, refId, 0, latency).0 == Some(b.device.value.(mixers := b.device.value.mixers + [Ds.Node(refId, false)]))
  {
  }

  /** The defaults pass validation; without a device nothing is registered anywhere. */
  lemma MixerBuilderDefaults(refId: nat, latency: Fx.StretchLatency)
    ensures MixerChannelOk(NEW_MIXER_BUILDER.channel) && MixerRateOk(NEW_MIXER_BUILDER.sampleRate)
    ensures var r := BuildMixer(NEW_MIXER_BUILDER, refId, 0, latency);
            r.0.None? && r.1.Ok? && r.1.value.fx.None? && r.1.value.channelCount == 2 && r.1.value.sampleRate == 44100
  {
  }

  // ---- sources of channels and samples

  /** The one source a channel or sample is loaded from. */
  datatype Source =
    | FilePath(path: string)
    | FileBytes(bytes: seq<bv8>)
    | Pcm(desc: BufferDesc)

  /**
   * What the outside world answers a loader: the file's contents (`None`
   * when it cannot be read), the Opus and Vorbis decoders, miniaudio's
   * decoder, and miniaudio's answer for a raw PCM buffer.
   */
  datatype LoaderAnswers = LoaderAnswers(
    contents: Option<seq<bv8>>,
    opus: Result<Rd.OggDecoded, OggError>,
    vorbis: Result<Rd.OggDecoded, OggError>,
    decoder: Rd.DecoderReport,
    initResult: int)

  /** The reader's loader for a source: `load`, `load_file_buffer` or `load_audio_buffer`. */
  function LoadSource(src: Source, env: LoaderAnswers): (r: Result<Rd.ReaderConfig, AudioError>)
    ensures src.FilePath? && env.contents.None? ==> r == Err(FileNotFound)
    ensures src.Pcm? ==> (r.Ok? <==> env.initResult == 0)
    ensures src.Pcm? && r.Ok? ==> r.value == Rd.ReaderConfig(Rd.Buffer, src.desc.sampleRate, src.desc.channels, src.desc.pcmLength)
  {
    match src
    case FilePath(p) => Rd.Load(p, env.contents, env.opus, env.vorbis, env.decoder)
    case FileBytes(bytes) => Rd.LoadFileBuffer(bytes, env.opus, env.vorbis, env.decoder)
    case Pcm(d) => Rd.LoadAudioBuffer(d.sampleRate, d.channels, d.pcmLength, env.initResult)
  }

  // ---- AudioChannelBuilder

  /** `AudioChannelBuilder`; `device` is the device to attach the new channel to, if any. */
  datatype ChannelBuilder = ChannelBuilder(
    device: Option<Ds.DeviceState>,
    filePath: Option<string>,
    fileBuffer: Option<seq<bv8>>,
    audioBuffer: Option<BufferDesc>,
    enableFx: bool,
    enableSpatialization: bool)
  {
    /** Each source setter sets its own source and clears the other two. */
    function WithFile(p: string): ChannelBuilder { this.(filePath := Some(p), fileBuffer := None, audioBuffer := None) }
    function WithFileBuffer(bytes: seq<bv8>): ChannelBuilder { this.(fileBuffer := Some(bytes), filePath := None, audioBuffer := None) }
    function WithAudioBuffer(d: BufferDesc): ChannelBuilder { this.(audioBuffer := Some(d), filePath := None, fileBuffer := None) }
    function WithDevice(d: Ds.DeviceState): ChannelBuilder { this.(device := Some(d)) }
    function WithFx(v: bool): ChannelBuilder { this.(enableFx := v) }
    function WithSpatialization(v: bool): ChannelBuilder { this.(enableSpatialization := v) }

    /** At most one source is set. */
    predicate OneSource()
    {
      (if filePath.Some? then 1 else 0) + (if fileBuffer.Some? then 1 else 0) + (if audioBuffer.Some? then 1 else 0) <= 1
    }

    /** The source `build` takes: the file path, else the file buffer, else the PCM buffer. */
    function Selected(): (r: Option<Source>)
      ensures r.None? <==> filePath.None? && fileBuffer.None? && audioBuffer.None?
    {
      if filePath.Some? then Some(FilePath(filePath.value))
      else if fileBuffer.Some? then Some(FileBytes(fileBuffer.value))
      else if audioBuffer.Some? then Some(Pcm(audioBuffer.value))
      else None
    }
  }

  /** `AudioChannelBuilder::new`: no device, no source, both switches off. */
  const NEW_CHANNEL_BUILDER: ChannelBuilder := ChannelBuilder(None, None, None, None, false, false)

  /** The default holds no source, and every setter keeps at most one source set. */
  lemma ChannelSettersKeepOneSource(b: ChannelBuilder, p: string, bytes: seq<bv8>, d: BufferDesc, dev: Ds.DeviceState, v: bool)
    requires b.OneSource()
    ensures NEW_CHANNEL_BUILDER.OneSource() && NEW_CHANNEL_BUILDER.Selected().None?
    ensures b.WithFile(p).OneSource() && b.WithFileBuffer(bytes).OneSource() && b.WithAudioBuffer(d).OneSource()
    ensures b.WithDevice(dev).OneSource() && b.WithFx(v).OneSource() && b.WithSpatialization(v).OneSource()
  {
  }

  /**
   * The last source set is the one `build` loads, whatever was set
   * before it, and the other setters leave the selection alone.
   */
  lemma ChannelLastSourceWins(b: ChannelBuilder, p: string, bytes: seq<bv8>, d: BufferDesc, dev: Ds.DeviceState, v: bool)
    ensures b.WithFile(p).Selected() == Some(FilePath(p))
    ensures b.WithFileBuffer(bytes).Selected() == Some(FileBytes(bytes))
    ensures b.WithAudioBuffer(d).Selected() == Some(Pcm(d))
    ensures b.WithDevice(dev).Selected() == b.Selected() && b.WithFx(v).Selected() == b.Selected()
            && b.WithSpatialization(v).Selected() == b.Selected()
  {
  }

  /**
   * `new_file`, `new_file_buffer` or `new_audio_buffer` for a loaded
   * stream: the inner channel is created at the stream's own rate, with
   * the reader at its start.
   */
  function ChannelOf(loaded: Result<Rd.ReaderConfig, AudioError>, pannerInit: int, spatialInit: int)
    : (r: Result<Cs.ChannelState, AudioError>)
    ensures loaded.Err? ==> r == Err(loaded.error)
    ensures r.Ok? ==> r.value.Valid() && !r.value.playing && r.value.position == 0 && r.value.fx.None?
                      && r.value.reader == Rd.ReaderState(loaded.value.backing, loaded.value.sampleRate,
                                                          loaded.value.channels, loaded.value.pcmLength, 0)
  {
    match loaded
    case Err(e) => Err(e)
    case Ok(c) =>
      Cs.Create(Rd.ReaderState(c.backing, c.sampleRate, c.channels, c.pcmLength, 0), c.sampleRate, pannerInit, spatialInit)
  }

  /**
   * `AudioChannelBuilder::build`: the selected source is loaded (no source
   * is an error) and the channel created with identity `refId`;
   * spatialization and then the stretcher are switched as requested, and
   * only then is the channel registered with the device, when one was
   * given. The result pairs the device as the build leaves it with the
   * channel.
   */
  function BuildChannel(b: ChannelBuilder, refId: nat, env: LoaderAnswers, pannerInit: int, spatialInit: int,
                        latency: Fx.StretchLatency): (r: (Option<Ds.DeviceState>, Result<Cs.ChannelState, AudioError>))
    ensures b.Selected().None? ==> r == (b.device, Err(NoFileOrBufferProvided))
    ensures b.Selected().Some? && LoadSource(b.Selected().value, env).Err? ==> r == (b.device, Err(LoadSource(b.Selected().value, env).error))
    ensures r.1.Err? ==> r.0 == b.device
    ensures r.1.Ok? ==> r.0 == (if b.device.None? then None
                                else Some(b.device.value.(channels := b.device.value.channels + [Ds.Node(refId, false)])))
    ensures r.1.Ok? ==> r.1.value.Valid() && !r.1.value.playing && r.1.value.position == 0
                        && (r.1.value.fx.Some? <==> b.enableFx) && (r.1.value.spatializer.Some? <==> b.enableSpatialization)
  {
    match b.Selected()
    case None => (b.device, Err(NoFileOrBufferProvided))
    case Some(src) =>
      match ChannelOf(LoadSource(src, env), pannerInit, spatialInit)
      case Err(e) => (b.device, Err(e))
      case Ok(s) =>
        var (s1, spatial) := Cs.SetAttributeBool(s, Attributes.AudioSpatialization, b.enableSpatialization, latency, spatialInit);
        if spatial.Err? then (b.device, Err(spatial.error))
        else
          Cs.SetFxEnabledFrame(s1, b.enableFx, latency);
          var (s2, fx) := Cs.SetAttributeBool(s1, Attributes.AudioFX, b.enableFx, latency, spatialInit);
          if fx.Err? then (b.device, Err(fx.error))
          else if b.device.None? then (None, Ok(s2))
          else
            var (d, added) := Ds.AddChannel(b.device.value, Ds.Node(refId, false));
            if added.Err? then (b.device, Err(added.error)) else (Some(d), Ok(s2))
  }

  /**
   * The stretcher switch reseeks the channel even when it turns the
   * stretcher off, and a seek needs a frame to land on: a channel over an
   * empty PCM buffer is never built, whatever the switches say.
   */
  lemma EmptyBufferChannelRefused(b: ChannelBuilder, d: BufferDesc, refId: nat, env: LoaderAnswers, pannerInit: int,
                                  spatialInit: int, latency: Fx.StretchLatency)
    requires d.pcmLength == 0
    ensures BuildChannel(b.WithAudioBuffer(d), refId, env, pannerInit, spatialInit, latency).1.Err?
  {
  }

  // ---- AudioSampleBuilder

  /** `AudioSampleBuilder`. */
  datatype SampleBuilder = SampleBuilder(
    enableFx: bool,
    enableSpatialization: bool,
    file: Option<string>,
    buffer: Option<seq<bv8>>,
    audioBufferDesc: Option<BufferDesc>)
  {
    /** Each source setter sets its own source and clears the other two. */
    function WithFile(p: string): SampleBuilder { this.(file := Some(p), audioBufferDesc := None, buffer := None) }
    function WithBuffer(bytes: seq<bv8>): SampleBuilder { this.(buffer := Some(bytes), audioBufferDesc := None, file := None) }
    function WithAudioBufferDesc(d: BufferDesc): SampleBuilder { this.(audioBufferDesc := Some(d), buffer := None, file := None) }
    function WithFx(v: bool): SampleBuilder { this.(enableFx := v) }
    function WithSpatialization(v: bool): SampleBuilder { this.(enableSpatialization := v) }

    /** At most one source is set. */
    predicate OneSource()
    {
      (if file.Some? then 1 else 0) + (if buffer.Some? then 1 else 0) + (if audioBufferDesc.Some? then 1 else 0) <= 1
    }

    /** The source `build` takes: the file, else the file buffer, else the PCM description. */
    function Selected(): (r: Option<Source>)
      ensures r.None? <==> file.None? && buffer.None? && audioBufferDesc.None?
    {
      if file.Some? then Some(FilePath(file.value))
      else if buffer.Some? then Some(FileBytes(buffer.value))
      else if audioBufferDesc.Some? then Some(Pcm(audioBufferDesc.value))
      else None
    }
  }

  /** `AudioSampleBuilder::new`: no source, both switches off. */
  const NEW_SAMPLE_BUILDER: SampleBuilder := SampleBuilder(false, false, None, None, None)

  lemma SampleSettersKeepOneSource(b: SampleBuilder, p: string, bytes: seq<bv8>, d: BufferDesc, v: bool)
    requires b.OneSource()
    ensures NEW_SAMPLE_BUILDER.OneSource() && NEW_SAMPLE_BUILDER.Selected().None?
    ensures b.WithFile(p).OneSource() && b.WithBuffer(bytes).OneSource() && b.WithAudioBufferDesc(d).OneSource()
    ensures b.WithFx(v).OneSource() && b.WithSpatialization(v).OneSource()
  {
  }

  lemma SampleLastSourceWins(b: SampleBuilder, p: string, bytes: seq<bv8>, d: BufferDesc, v: bool)
    ensures b.WithFile(p).Selected() == Some(FilePath(p))
    ensures b.WithBuffer(bytes).Selected() == Some(FileBytes(bytes))
    ensures b.WithAudioBufferDesc(d).Selected() == Some(Pcm(d))
    ensures b.WithFx(v).Selected() == b.Selected() && b.WithSpatialization(v).Selected() == b.Selected()
  {
  }

  /**
   * A sample's loading: a file or file buffer through the reader, whose
   * whole stream is read; a PCM description taken as it is.
   */
  function SampleOf(src: Source, env: LoaderAnswers): (r: Result<Ss.SampleState, AudioError>)
    ensures src.Pcm? ==> r == Ok(Ss.SampleState(src.desc.bufferLen, src.desc.pcmLength, src.desc.sampleRate,
                                                src.desc.channels, Ss.LoadedAttributes(src.desc.sampleRate)))
    ensures !src.Pcm? ==> r == Ss.Load(LoadSource(src, env))
  {
    match src
    case Pcm(d) => Ok(Ss.SampleState(d.bufferLen, d.pcmLength, d.sampleRate, d.channels, Ss.LoadedAttributes(d.sampleRate)))
    case _ => Ss.Load(LoadSource(src, env))
  }

  /**
   * `AudioSampleBuilder::build`: no source is an error; the selected one
   * is loaded and the stretcher and then the spatialization switch are
   * stored in the sample's attributes.
   */
  function BuildSample(b: SampleBuilder, env: LoaderAnswers): (r: Result<Ss.SampleState, AudioError>)
    ensures b.Selected().None? ==> r == Err(NoFileOrBufferProvided)
    ensures b.Selected().Some? ==> (r.Ok? <==> SampleOf(b.Selected().value, env).Ok?)
    ensures r.Ok? ==> var loaded := SampleOf(b.Selected().value, env).value;
                      r.value == loaded.(attributes := loaded.attributes.(enableFx := b.enableFx,
                                                                          enableSpatialization := b.enableSpatialization))
  {
    match b.Selected()
    case None => Err(NoFileOrBufferProvided)
    case Some(src) =>
      match SampleOf(src, env)
      case Err(e) => Err(e)
      case Ok(s) =>
        var (at1, fx) := Ss.SetAttributeBool(s.attributes, Attributes.AudioFX, b.enableFx);
        match fx
        case Err(e) => Err(e)
        case Ok(_) =>
          var (at2, spatial) := Ss.SetAttributeBool(at1, Attributes.AudioSpatialization, b.enableSpatialization);
          match spatial
          case Err(e) => Err(e)
          case Ok(_) => Ok(s.(attributes := at2))
  }

  /**
   * A sample built from a PCM description always succeeds and carries the
   * description and the switches: its rate attribute is the stream's rate,
   * and pitch and tempo read back exactly when the stretcher was asked for.
   */
  lemma PcmSampleBuilds(b: SampleBuilder, d: BufferDesc, env: LoaderAnswers)
    ensures var r := BuildSample(b.WithAudioBufferDesc(d), env);
            && r.Ok? && r.value.pcmLength == d.pcmLength && r.value.channels == d.channels && r.value.bufferLen == d.bufferLen
            && Ss.GetAttributeF32(r.value.attributes, Attributes.SampleRate) == Ok(d.sampleRate as real)
            && (Ss.GetAttributeF32(r.value.attributes, Attributes.FXTempo).Ok? <==> b.enableFx)
            && Ss.GetAttributeBool(r.value.attributes, Attributes.AudioSpatialization) == Ok(b.enableSpatialization)
  {
  }
}
