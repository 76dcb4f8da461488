/**
 * The state of one channel (`AudioChannelInner` in `channel/inner.rs`) as a
 * value, and each channel operation as a function from the state before to
 * the state after and the result. The `Channel` module's classes update
 * their fields in place and are proved to follow these functions; the
 * mixer and device specifications are built on them.
 *
 * A buffer is represented by its length: which samples a stage writes is
 * not modelled, only the frame counts and the size checks that can fail.
 */
module ChannelSpec {
  import opened Wrappers
  import opened Errors
  import opened Stages
  import Fx
  import Rs = Resampler
  import Rd = AudioReader
  import Attributes
  import Utils

  datatype ChannelState = ChannelState(
    reader: Rd.ReaderState,
    resampler: Rs.Resampler,
    gainer: Gainer,
    panner: Panner,
    fx: Option<Fx.Fx>,
    spatializer: Option<Spatializer>,
    playing: bool,
    isLooping: bool,
    position: nat,
    markedAsDeleted: bool)
  {
    /** Sample channels of the channel's stream; every stage runs with this many. */
    function Channels(): nat { reader.channels }

    /**
     * What every operation keeps: the reader cursor inside the stream, a
     * valid resampler at the stream's rate, a non-negative stretch credit,
     * and every stage configured for the stream's channel count.
     */
    ghost predicate Valid()
    {
      reader.Valid() && resampler.Valid()
      && resampler.channels == Channels() && resampler.sampleRate == reader.sampleRate
      && gainer.channels == Channels() && panner.channels == Channels()
      && (fx.Some? ==> fx.value.Valid() && fx.value.channels == Channels() && fx.value.sampleRate == reader.sampleRate)
      && (spatializer.Some? ==> spatializer.value.channelsIn == Channels() && spatializer.value.channelsOut == Channels())
    }
  }

  /** Everything but the play flag, the cursors and the stretch credit is left alone by rendering. */
  ghost predicate SameSetup(a: ChannelState, b: ChannelState)
  {
    a.reader == b.reader.(position := a.reader.position)
    && a.resampler == b.resampler && a.gainer == b.gainer && a.panner == b.panner
    && a.spatializer == b.spatializer && a.isLooping == b.isLooping
    && a.markedAsDeleted == b.markedAsDeleted && a.fx.Some? == b.fx.Some?
    && (a.fx.Some? ==> a.fx.value == b.fx.value.(frameAvailable := a.fx.value.frameAvailable))
  }

  /**
   * `AudioChannel::create_inner`: the panner (miniaudio answering
   * `pannerInit`), the gainer, the resampler and a spatializer with as many
   * output channels as input channels (`spatialInit`), in that order;
   * stopped, at position 0, not looping, without a stretcher.
   */
  function Create(reader: Rd.ReaderState, sampleRate: nat, pannerInit: int, spatialInit: int): (r: Result<ChannelState, AudioError>)
    requires reader.Valid() && reader.position == 0 && reader.sampleRate == sampleRate
    ensures r.Ok? <==> pannerInit == 0 && 1 <= reader.channels <= 8 && 8000 <= sampleRate <= 192000 && spatialInit == 0
    ensures pannerInit != 0 ==> r == Err(StageFailed(pannerInit))
    ensures pannerInit == 0 && !(1 <= reader.channels <= 8) ==> r == Err(InvalidChannels(reader.channels))
    ensures r.Ok? ==> r.value.Valid() && !r.value.playing && r.value.position == 0 && !r.value.isLooping
                      && r.value.fx.None? && r.value.spatializer.Some? && r.value.reader == reader
                      && Rs.BypassMode(r.value.resampler) && r.value.gainer.volume == 1.0 && r.value.panner.pan == 0.0
  {
    if pannerInit != 0 then Err(StageFailed(pannerInit))
    else
      var gainer := NewGainer(reader.channels);
      if gainer.Err? then Err(gainer.error)
      else
        var resampler := Rs.New(reader.channels, sampleRate);
        if resampler.Err? then Err(resampler.error)
        else if spatialInit != 0 then Err(StageFailed(spatialInit))
        else Ok(ChannelState(reader, resampler.value, gainer.value, Panner(reader.channels, 0.0), None,
                             Some(Spatializer(reader.channels, reader.channels, FreshSettings())),
                             false, false, 0, false))
  }

  /**
   * The feeding half of the source stage with the stretcher on
   * (`read_pcm_frames`, fx branch): while the source lasts, read the input
   * the stretcher needs for `required` frames and credit it; the result is
   * the input frame count handed to the stretcher.
   */
  function FxFeed(s: ChannelState, required: nat, outputLen: nat): (r: (ChannelState, Result<nat, AudioError>))
    requires s.Valid() && s.fx.Some?
    ensures r.0.Valid() && SameSetup(s, r.0)
    ensures r.0 == s.(reader := r.0.reader, fx := r.0.fx)
    ensures r.0.fx.value.frameAvailable >= s.fx.value.frameAvailable
    ensures Rd.AvailableFrames(s.reader) == 0 ==> r.0 == s
    ensures Rd.AvailableFrames(s.reader) > 0 && r.1.Ok? ==>
              r.0.reader.position == s.reader.position + r.1.value
              && r.0.fx.value.frameAvailable == s.fx.value.frameAvailable
                   + if r.1.value >= Rd.AvailableFrames(s.reader) then s.fx.value.latency.output else required
  {
    var fx := s.fx.value;
    var target: nat := if Fx.TempoBypass(fx) then required else Fx.GetRequiredInput(fx, required).ToOption().UnwrapOr(0);
    var avail := Rd.AvailableFrames(s.reader);
    if avail == 0 then (s, Ok(target))
    else
      var (rd, got) := Rd.ReadStep(s.reader, outputLen, target);
      if got.Err? then (s, got)
      else (s.(reader := rd, fx := Some(Fx.Credit(fx, got.value >= avail, required))), got)
  }

  /**
   * The handing-out half: with credit, the stretcher's size checks and
   * `Drain`; without, nothing. The frames then go back to the output buffer.
   */
  function FxHandOut(s: ChannelState, input: nat, required: nat, outputLen: nat, tempLen: nat): (r: (ChannelState, Result<nat, AudioError>))
    requires s.Valid() && s.fx.Some?
    ensures r.0.Valid() && SameSetup(s, r.0)
    ensures r.0 == s.(fx := r.0.fx)
    ensures r.1.Ok? ==> r.1.value == Min(required, s.fx.value.frameAvailable as nat)
                        && r.0.fx.value.frameAvailable == s.fx.value.frameAvailable - r.1.value
  {
    var fx := s.fx.value;
    if fx.frameAvailable > 0 then
      var check := Fx.Process(fx, outputLen, input, tempLen, required);
      if check.Some? then (s, Err(check.value))
      else
        var (drained, readed) := Fx.Drain(fx, required);
        var s1 := s.(fx := Some(drained));
        if !Utils.CopyFits(tempLen, outputLen, 0, 0, readed * s.Channels()) then (s1, Err(Panic))
        else (s1, Ok(readed))
    else (s, Ok(0))
  }

  /** The source stage with the stretcher on: feed, then hand out. */
  function FxSource(s: ChannelState, required: nat, outputLen: nat, tempLen: nat): (r: (ChannelState, Result<nat, AudioError>))
    requires s.Valid() && s.fx.Some?
    ensures r.0.Valid() && SameSetup(s, r.0)
    ensures r.0.playing == s.playing && r.0.position == s.position
    ensures r.1.Ok? ==> r.1.value <= required
  {
    var (s1, fed) := FxFeed(s, required, outputLen);
    if fed.Err? then (s1, Err(fed.error))
    else FxHandOut(s1, fed.value, required, outputLen, tempLen)
  }

  /** The source stage with the stretcher off: a plain reader read. */
  function DirectSource(s: ChannelState, required: nat, outputLen: nat): (r: (ChannelState, Result<nat, AudioError>))
    requires s.Valid()
    ensures r.0.Valid() && SameSetup(s, r.0)
    ensures r.0 == s.(reader := r.0.reader)
    ensures r.1.Ok? ==> r.1.value == Min(required, Rd.AvailableFrames(s.reader))
                        && r.0.reader.position == s.reader.position + r.1.value
  {
    var (rd, got) := Rd.ReadStep(s.reader, outputLen, required);
    (s.(reader := rd), got)
  }

  /**
   * The stages after the source: the resampler (outside bypass it turns
   * the frames into exactly `frameCount` frames), the gainer and the panner.
   */
  function PostStages(s: ChannelState, frames: nat, required: nat, frameCount: nat, outputLen: nat, tempLen: nat)
    : (r: Result<nat, AudioError>)
    ensures r.Ok? ==> r.value == if Rs.BypassMode(s.resampler) then frames else frameCount
    ensures r.Ok? ==> outputLen >= r.value * s.gainer.channels && tempLen >= r.value * s.gainer.channels
  {
    var resampled :=
      if Rs.BypassMode(s.resampler) then Ok(frames)
      else
        var rf := Rs.Process(s.resampler, outputLen, required, tempLen, frameCount);
        if rf.Err? then rf
        else if !Utils.CopyFits(tempLen, outputLen, 0, 0, rf.value * s.Channels()) then Err(Panic)
        else rf;
    if resampled.Err? then resampled
    else
      var n := resampled.value;
      var gain := StageProcess(s.gainer.channels, outputLen, tempLen, n);
      if gain.Some? then Err(gain.value)
      else
        var pan := StageProcess(s.panner.channels, tempLen, outputLen, n);
        if pan.Some? then Err(pan.value)
        else Ok(n)
  }

  /** The source stage: through the stretcher when there is one, else straight from the reader. */
  function Source(s: ChannelState, required: nat, outputLen: nat, tempLen: nat): (r: (ChannelState, Result<nat, AudioError>))
    requires s.Valid()
    ensures r.0.Valid() && SameSetup(s, r.0)
    ensures r.0.playing == s.playing && r.0.position == s.position
    ensures r.1.Ok? ==> r.1.value <= required
    ensures s.fx.None? && r.1.Ok? ==> r.1.value == Min(required, Rd.AvailableFrames(s.reader))
  {
    if s.fx.Some? then FxSource(s, required, outputLen, tempLen) else DirectSource(s, required, outputLen)
  }

  /**
   * After the stages: the public position moves by the frames rendered,
   * and a short read rewinds a looping channel and stops any other.
   */
  function Advance(s: ChannelState, frames: nat, frameCount: nat): (r: ChannelState)
    requires s.Valid()
    ensures r.Valid() && SameSetup(s, r)
    ensures r.position == s.position + frames
    ensures frames >= frameCount ==> r == s.(position := s.position + frames)
    ensures frames < frameCount && s.isLooping ==> r == s.(position := s.position + frames, reader := s.reader.(position := 0))
    ensures frames < frameCount && !s.isLooping ==> r == s.(position := s.position + frames, playing := false)
  {
    var s1 := s.(position := s.position + frames);
    if frames < frameCount then
      if s1.isLooping then s1.(reader := Rd.SeekStep(s1.reader, 0).0) else s1.(playing := false)
    else s1
  }

  /**
   * The spatializer stage, run only with a spatializer and a listener:
   * miniaudio answers `spatialResult`, then the frames are copied back.
   */
  function SpatialStage(s: ChannelState, frames: nat, outputLen: nat, tempLen: nat, listener: bool, spatialResult: int)
    : (r: Option<AudioError>)
    ensures !(s.spatializer.Some? && listener) ==> r.None?
    ensures r.None? <==> !(s.spatializer.Some? && listener)
                         || (spatialResult == 0 && Utils.CopyFits(tempLen, outputLen, 0, 0, frames * s.Channels()))
  {
    if s.spatializer.Some? && listener then
      if spatialResult != 0 then Some(StageFailed(spatialResult))
      else if !Utils.CopyFits(tempLen, outputLen, 0, 0, frames * s.Channels()) then Some(Panic)
      else None
    else None
  }

  /**
   * `AudioChannelInner::read_pcm_frames`: renders up to `frameCount`
   * frames into a buffer of `outputLen` samples, using a scratch buffer of
   * `tempLen` samples. `listener` says whether a listener was handed in and
   * `spatialResult` is what miniaudio's spatializer then answers.
   */
  function Read(s: ChannelState, frameCount: nat, outputLen: nat, tempLen: nat, listener: bool, spatialResult: int)
    : (r: (ChannelState, Result<nat, AudioError>))
    requires s.Valid()
    ensures r.0.Valid() && SameSetup(s, r.0)
    ensures !s.playing ==> r == (s, Ok(0))
    ensures r.1.Ok? ==> r.1.value <= frameCount && r.0.position == s.position + r.1.value
    ensures r.1.Ok? ==> r.1.value * s.Channels() <= outputLen
    ensures r.1.Ok? && s.playing && r.1.value == frameCount ==> r.0.playing
    ensures r.1.Ok? && s.playing && r.1.value < frameCount ==>
              if s.isLooping then r.0.playing && r.0.reader.position == 0 else !r.0.playing
    ensures s.playing && s.fx.None? && Rs.BypassMode(s.resampler) && r.1.Ok? ==>
              r.1.value == Min(frameCount, Rd.AvailableFrames(s.reader))
    ensures s.playing && !Rs.BypassMode(s.resampler) && r.1.Ok? ==> r.1.value == frameCount
    ensures r.1.Err? && !(s.spatializer.Some? && listener) ==> r.0.position == s.position && r.0.playing == s.playing
  {
    if !s.playing then (s, Ok(0))
    else
      var required := Rs.GetRequiredInput(s.resampler, frameCount).value;
      var (s1, src) := Source(s, required, outputLen, tempLen);
      if src.Err? then (s1, src)
      else
        match PostStages(s1, src.value, required, frameCount, outputLen, tempLen)
        case Err(e) => (s1, Err(e))
        case Ok(frames) =>
          var s2 := Advance(s1, frames, frameCount);
          match SpatialStage(s2, frames, outputLen, tempLen, listener, spatialResult)
          case Some(e) => (s2, Err(e))
          case None => (s2, Ok(frames))
  }

  /**
   * Whether priming the stretcher after a seek succeeds: its latency's
   * worth of frames is read into a buffer of twice that many samples, so
   * the stream may have at most two channels.
   */
  predicate PrimeFits(s: ChannelState)
  {
    s.fx.None? || s.fx.value.latency.input == 0 || s.Channels() <= 2
  }

  /**
   * `AudioChannelInner::seek`: moves the public position and the reader
   * to `p`, then primes the stretcher with its input latency.
   */
  function Seek(s: ChannelState, p: nat): (r: (ChannelState, Result<nat, AudioError>))
    requires s.Valid()
    ensures r.0 == s.(position := r.0.position, reader := r.0.reader, fx := r.0.fx)
  {
    if p >= s.reader.pcmLength then (s, Err(SeekOutOfBounds))
    else
      var s1 := s.(position := p, reader := Rd.SeekStep(s.reader, p).0);
      if s1.fx.Some? && s1.fx.value.latency.input > 0 then
        var lat := s1.fx.value.latency.input;
        PrimeSize(lat, s.Channels());
        var (rd, got) := Rd.ReadStep(s1.reader, lat * 2, lat);
        if got.Err? then (s1, Err(got.error))
        else
          var s2 := s1.(reader := rd);
          match Fx.PreProcess(s1.fx.value, lat * 2, lat)
          case Err(e) => (s2, Err(e))
          case Ok(primed) => (s2.(fx := Some(primed)), Ok(p))
      else (s1, Ok(p))
  }

  /**
   * What a seek does: a target past the stream fails with `SeekOutOfBounds`
   * and changes nothing; otherwise the public position and the reader go
   * to the target (the reader then past the primed frames), and the seek
   * succeeds exactly when priming fits, leaving the credit at the latency.
   */
  lemma SeekOutcome(s: ChannelState, p: nat)
    requires s.Valid()
    ensures var r := Seek(s, p);
            && r.0.Valid() && r.0.playing == s.playing
            && (r.1.Ok? <==> p < s.reader.pcmLength && PrimeFits(s))
            && (p >= s.reader.pcmLength ==> r == (s, Err(SeekOutOfBounds)))
            && (r.1.Ok? ==> r.1.value == p && r.0.position == p)
            && (r.1.Ok? && (s.fx.None? || s.fx.value.latency.input == 0) ==> r.0.reader.position == p && r.0.fx == s.fx)
            && (r.1.Ok? && s.fx.Some? && s.fx.value.latency.input > 0 ==>
                  r.0.reader.position == p + Min(s.fx.value.latency.input, s.reader.pcmLength - p)
                  && r.0.fx.Some? && r.0.fx.value.frameAvailable == s.fx.value.latency.input)
  {
    if p < s.reader.pcmLength && s.fx.Some? && s.fx.value.latency.input > 0 {
      PrimeSize(s.fx.value.latency.input, s.Channels());
    }
  }

  lemma PrimeSize(lat: nat, channels: nat)
    requires lat > 0
    ensures lat * 2 >= lat * channels <==> channels <= 2
  {
    if channels > 2 {
      assert lat * channels == lat * 2 + lat * (channels - 2);
    } else {
      assert lat * 2 == lat * channels + lat * (2 - channels);
    }
  }

  /** `AudioChannel::play`: start, and rewind (priming the stretcher) only when the position is 0. */
  function Play(s: ChannelState): (r: (ChannelState, Result<(), AudioError>))
    requires s.Valid()
    ensures r.0.Valid() && r.0.playing
    ensures s.position != 0 ==> r == (s.(playing := true), Ok(()))
    ensures s.position == 0 ==> (r.1.Ok? <==> 0 < s.reader.pcmLength && PrimeFits(s))
    ensures s.position == 0 && r.1.Ok? ==> r.0.position == 0
  {
    var s1 := s.(playing := true);
    if s1.position == 0 then
      SeekOutcome(s1, 0);
      var (s2, sought) := Seek(s1, 0);
      (s2, if sought.Ok? then Ok(()) else Err(sought.error))
    else (s1, Ok(()))
  }

  /** `AudioChannel::stop`: only the play flag changes. */
  function Stop(s: ChannelState): (r: ChannelState)
    requires s.Valid()
    ensures r.Valid() && !r.playing && r == s.(playing := false)
  {
    s.(playing := false)
  }

  /**
   * `AudioChannel::seek`: the handle checks the bound against its own copy
   * of the length (`pcmLength`, taken from the reader when the handle was
   * made), then seeks.
   */
  function SeekHandle(s: ChannelState, pcmLength: nat, p: nat): (r: (ChannelState, Result<(), AudioError>))
    requires s.Valid() && pcmLength == s.reader.pcmLength
    ensures r.0.Valid()
    ensures r.1.Ok? <==> p < pcmLength && PrimeFits(s)
    ensures p >= pcmLength ==> r == (s, Err(SeekOutOfBounds))
    ensures r.1.Ok? ==> r.0.position == p
  {
    if p >= pcmLength then (s, Err(SeekOutOfBounds))
    else
      SeekOutcome(s, p);
      var (s1, sought) := Seek(s, p);
      (s1, if sought.Ok? then Ok(()) else Err(sought.error))
  }

  /** `AudioChannel::seek_ms`: milliseconds to frames, rounding down. */
  function MsToFrames(ms: nat, sampleRate: nat): (frames: nat)
    ensures frames * 1000 <= ms * sampleRate < (frames + 1) * 1000
  {
    ms * sampleRate / 1000
  }

  /** The sizes of the two buffers `read_simple` allocates. */
  const SIMPLE_BUFFER: nat := 8192
  /** The largest frame count `read_simple` accepts. */
  const MAX_FRAMES: nat := 4096

  /**
   * The length of the interleaved vector `read_simple` hands back for a
   * read that delivered `got`: every frame carries `channels` samples; a
   * failed read passes its error on.
   */
  function Interleaved(got: Result<nat, AudioError>, channels: nat): (r: Result<nat, AudioError>)
    ensures r.Ok? <==> got.Ok?
    ensures got.Err? ==> r == Err(got.error)
    ensures got.Ok? ==> r.value == got.value * channels
  {
    match got
    case Err(e) => Err(e)
    case Ok(frames) => Ok(frames * channels)
  }

  /**
   * `AudioChannel::read_simple`: a read into two 8192-sample buffers,
   * refused above 4096 frames. The final copy out of the buffer cannot
   * panic: the gainer has already checked that the frames fit it, so at
   * most 8192 samples come back.
   */
  function ReadSimple(s: ChannelState, frameCount: nat): (r: (ChannelState, Result<nat, AudioError>))
    requires s.Valid()
    ensures r.0.Valid()
    ensures frameCount > MAX_FRAMES ==> r == (s, Err(PCMLengthTooLarge))
    ensures frameCount <= MAX_FRAMES ==>
              var rd := Read(s, frameCount, SIMPLE_BUFFER, SIMPLE_BUFFER, false, 0);
              r == (rd.0, Interleaved(rd.1, s.Channels()))
    ensures r.1.Ok? ==> r.1.value <= SIMPLE_BUFFER
  {
    if frameCount > MAX_FRAMES then (s, Err(PCMLengthTooLarge))
    else
      var rd := Read(s, frameCount, SIMPLE_BUFFER, SIMPLE_BUFFER, false, 0);
      (rd.0, Interleaved(rd.1, s.Channels()))
  }

  // ---- the property interface of a channel

  /** `get_attribute_f32`. */
  function GetAttributeF32(s: ChannelState, a: Attributes.AudioAttribute): (r: Result<real, AudioError>)
    ensures a in {Attributes.FXTempo, Attributes.FXPitch} ==> (r.Err? <==> s.fx.None?)
    ensures a in {Attributes.FXTempo, Attributes.FXPitch} && s.fx.None? ==> r == Err(FxNotEnabled)
    ensures a in {Attributes.AudioFX, Attributes.AudioSpatialization, Attributes.Unknown} ==> r == Err(UnsupportedAttribute)
    ensures a in {Attributes.SampleRate, Attributes.Volume, Attributes.Pan} ==> r.Ok?
  {
    match a
    case FXTempo => if s.fx.None? then Err(FxNotEnabled) else Ok(s.fx.value.tempo)
    case FXPitch => if s.fx.None? then Err(FxNotEnabled) else Ok(s.fx.value.octave)
    case SampleRate => Ok(s.resampler.targetSampleRate as real)
    case Volume => Ok(s.gainer.volume)
    case Pan => Ok(s.panner.pan)
    case _ => Err(UnsupportedAttribute)
  }

  /** `set_attribute_f32`: a refused attribute leaves the channel as it was. */
  function SetAttributeF32(s: ChannelState, a: Attributes.AudioAttribute, v: real): (r: (ChannelState, Result<(), AudioError>))
    requires s.Valid()
    ensures r.0.Valid()
    ensures r.1.Err? ==> r.0 == s
    ensures a in {Attributes.FXTempo, Attributes.FXPitch} ==> (r.1.Err? <==> s.fx.None?)
    ensures a in {Attributes.AudioFX, Attributes.AudioSpatialization, Attributes.Unknown} ==> r == (s, Err(UnsupportedAttribute))
    ensures r.0.playing == s.playing && r.0.position == s.position && r.0.reader == s.reader
    ensures a in {Attributes.FXTempo, Attributes.FXPitch} ==> r.0 == s.(fx := r.0.fx)
  {
    match a
    case FXTempo => if s.fx.None? then (s, Err(FxNotEnabled)) else (s.(fx := Some(Fx.SetTempo(s.fx.value, v))), Ok(()))
    case FXPitch => if s.fx.None? then (s, Err(FxNotEnabled)) else (s.(fx := Some(Fx.SetOctave(s.fx.value, v))), Ok(()))
    case SampleRate => (s.(resampler := Rs.SetTargetSampleRate(s.resampler, Utils.SaturatingCastU32(v))), Ok(()))
    case Volume => (s.(gainer := SetVolume(s.gainer, v)), Ok(()))
    case Pan => (s.(panner := SetPan(s.panner, v)), Ok(()))
    case _ => (s, Err(UnsupportedAttribute))
  }

  /** `get_attribute_bool`: whether the stretcher or the spatializer is present. */
  function GetAttributeBool(s: ChannelState, a: Attributes.AudioAttribute): (r: Result<bool, AudioError>)
    ensures a == Attributes.AudioFX ==> r == Ok(s.fx.Some?)
    ensures a == Attributes.AudioSpatialization ==> r == Ok(s.spatializer.Some?)
    ensures a !in {Attributes.AudioFX, Attributes.AudioSpatialization} ==> r == Err(UnsupportedAttribute)
  {
    match a
    case AudioFX => Ok(s.fx.Some?)
    case AudioSpatialization => Ok(s.spatializer.Some?)
    case _ => Err(UnsupportedAttribute)
  }

  /**
   * Turning the stretcher on or off (`set_attribute_bool`, `AudioFX`): on
   * creates one only if there is none (the library reporting `latency`),
   * off drops it; either way the channel then reseeks to its position,
   * which primes a new stretcher.
   */
  function SetFxEnabled(s: ChannelState, v: bool, latency: Fx.StretchLatency): (r: (ChannelState, Result<(), AudioError>))
    requires s.Valid()
    ensures r.0.Valid() && r.0.playing == s.playing
    ensures !v ==> r.0.fx.None?
    ensures v && s.fx.Some? ==> r.0.fx.Some? && r.0.fx.value.tempo == s.fx.value.tempo && r.0.fx.value.octave == s.fx.value.octave
    ensures v && r.1.Ok? ==> r.0.fx.Some? && r.0.position == s.position
    ensures r.1.Ok? <==> s.position < s.reader.pcmLength && PrimeFits(r.0)
  {
    var made: Result<Option<Fx.Fx>, AudioError> :=
      if !v then Ok(None)
      else if s.fx.Some? then Ok(s.fx)
      else
        var created := Fx.New(s.reader.channels, s.reader.sampleRate, latency);
        if created.Err? then Err(created.error) else Ok(Some(created.value));
    if made.Err? then (s, Err(made.error))
    else
      var s1 := s.(fx := made.value);
      SeekOutcome(s1, s1.position);
      var (s2, sought) := Seek(s1, s1.position);
      (s2, if sought.Ok? then Ok(()) else Err(sought.error))
  }

  /** Turning the stretcher on or off touches only the stretcher and the cursor. */
  lemma SetFxEnabledFrame(s: ChannelState, v: bool, latency: Fx.StretchLatency)
    requires s.Valid()
    ensures var r := SetFxEnabled(s, v, latency);
            r.0 == s.(fx := r.0.fx, position := r.0.position, reader := r.0.reader)
  {
  }

  /**
   * Turning the spatializer on or off (`set_attribute_bool`,
   * `AudioSpatialization`), with a spatializer of as many output channels
   * as input channels, as `create_inner` builds it; miniaudio answers
   * `spatialInit`. No reseek.
   */
  function SetSpatializationEnabled(s: ChannelState, v: bool, spatialInit: int): (r: (ChannelState, Result<(), AudioError>))
    requires s.Valid()
    ensures r.0.Valid()
    ensures !v ==> r == (s.(spatializer := None), Ok(()))
    ensures v && s.spatializer.Some? ==> r == (s, Ok(()))
    ensures v && s.spatializer.None? ==> (r.1.Ok? <==> spatialInit == 0)
    ensures r.1.Err? ==> r.0 == s && r.1 == Err(StageFailed(spatialInit))
    ensures r.1.Ok? ==> (r.0.spatializer.Some? <==> v) && r.0 == s.(spatializer := r.0.spatializer)
  {
    if !v then (s.(spatializer := None), Ok(()))
    else if s.spatializer.Some? then (s, Ok(()))
    else if spatialInit != 0 then (s, Err(StageFailed(spatialInit)))
    else (s.(spatializer := Some(Spatializer(s.Channels(), s.Channels(), FreshSettings()))), Ok(()))
  }

  /**
   * The spatializer branch of `set_attribute_bool` as the source writes it:
   * the stream's sample rate is passed where the output channel count goes.
   */
  function SetSpatializationEnabledAsWritten(s: ChannelState, v: bool, spatialInit: int): (r: (ChannelState, Result<(), AudioError>))
    ensures v && s.spatializer.None? && spatialInit == 0 ==>
              r.1.Ok? && r.0.spatializer == Some(Spatializer(s.Channels(), s.reader.sampleRate, FreshSettings()))
  {
    if !v then (s.(spatializer := None), Ok(()))
    else if s.spatializer.Some? then (s, Ok(()))
    else if spatialInit != 0 then (s, Err(StageFailed(spatialInit)))
    else (s.(spatializer := Some(Spatializer(s.Channels(), s.reader.sampleRate, FreshSettings()))), Ok(()))
  }

  /**
   * The spatializer the source creates on re-enabling never has the
   * channel count `create_inner` gives it: a stream rate is at least 8000
   * and a channel count at most 8.
   */
  lemma ReenabledSpatializerHasWrongOutputs(s: ChannelState)
    requires s.Valid() && s.spatializer.None?
    ensures SetSpatializationEnabledAsWritten(s, true, 0).0.spatializer.value.channelsOut != s.Channels()
    ensures !SetSpatializationEnabledAsWritten(s, true, 0).0.Valid()
    ensures SetSpatializationEnabled(s, true, 0).0.spatializer.value.channelsOut == s.Channels()
  {
  }

  /** `set_attribute_bool`. */
  function SetAttributeBool(s: ChannelState, a: Attributes.AudioAttribute, v: bool,
                            latency: Fx.StretchLatency, spatialInit: int): (r: (ChannelState, Result<(), AudioError>))
    requires s.Valid()
    ensures r.0.Valid()
    ensures a !in {Attributes.AudioFX, Attributes.AudioSpatialization} ==> r == (s, Err(UnsupportedAttribute))
    ensures a == Attributes.AudioFX ==> r == SetFxEnabled(s, v, latency)
    ensures a == Attributes.AudioSpatialization ==> r == SetSpatializationEnabled(s, v, spatialInit)
  {
    match a
    case AudioFX => SetFxEnabled(s, v, latency)
    case AudioSpatialization => SetSpatializationEnabled(s, v, spatialInit)
    case _ => (s, Err(UnsupportedAttribute))
  }

  /** The spatial setters: refused without a spatializer, otherwise stored. */
  function SetSpatial(s: ChannelState, p: SpatialProperty, v: SpatialValue): (r: (ChannelState, Result<(), AudioError>))
    requires s.Valid()
    ensures r.0.Valid()
    ensures s.spatializer.None? <==> r.1 == Err(NotInitialized)
    ensures s.spatializer.None? ==> r.0 == s
    ensures r.1.Ok? ==> r.0.spatializer.Some? && Fetch(r.0.spatializer.value.settings, p) == v
  {
    match s.spatializer
    case None => (s, Err(NotInitialized))
    case Some(sp) => (s.(spatializer := Some(sp.(settings := Store(sp.settings, p, v)))), Ok(()))
  }

  /** The spatial getters: refused without a spatializer. */
  function GetSpatial(s: ChannelState, p: SpatialProperty): (r: Result<SpatialValue, AudioError>)
    ensures s.spatializer.None? <==> r == Err(NotInitialized)
  {
    match s.spatializer
    case None => Err(NotInitialized)
    case Some(sp) => Ok(Fetch(sp.settings, p))
  }

  /**
   * `get_relative_position_and_direction`: needs both the channel's
   * spatializer and the device's listener; the pose itself is computed by
   * miniaudio and not modelled.
   */
  function RelativePose(s: ChannelState, listener: Option<Listener>): (r: Result<(), AudioError>)
    ensures s.spatializer.None? ==> r == Err(NotInitialized)
    ensures s.spatializer.Some? && listener.None? ==> r == Err(ListenerNotInitialized)
    ensures r.Ok? <==> s.spatializer.Some? && listener.Some?
  {
    if s.spatializer.None? then Err(NotInitialized)
    else if listener.None? then Err(ListenerNotInitialized)
    else Ok(())
  }

  /** Dropping the handle marks the channel deleted and stops it. */
  function Drop(s: ChannelState): (r: ChannelState)
    ensures r.markedAsDeleted && !r.playing && r == s.(markedAsDeleted := true, playing := false)
  {
    s.(markedAsDeleted := true, playing := false)
  }

  // ---- properties across operations

  /** A stored volume, pan, tempo or pitch reads back (volume and pan after clamping). */
  lemma SetThenGet(s: ChannelState, a: Attributes.AudioAttribute, v: real)
    requires s.Valid()
    requires SetAttributeF32(s, a, v).1.Ok?
    ensures a == Attributes.Volume ==> GetAttributeF32(SetAttributeF32(s, a, v).0, a) == Ok(Clamp(v, 0.0, 1.0))
    ensures a == Attributes.Pan ==> GetAttributeF32(SetAttributeF32(s, a, v).0, a) == Ok(Clamp(v, -1.0, 1.0))
    ensures a in {Attributes.FXTempo, Attributes.FXPitch} ==> GetAttributeF32(SetAttributeF32(s, a, v).0, a) == Ok(v)
    ensures a == Attributes.SampleRate && v == v.Floor as real && 0.0 <= v < Utils.U32_MAX as real ==>
              GetAttributeF32(SetAttributeF32(s, a, v).0, a) == Ok(v)
  {
  }

  /** Stopping keeps the position, so a later `Play` does not rewind unless nothing was played. */
  lemma StopThenPlayResumes(s: ChannelState)
    requires s.Valid() && s.position != 0
    ensures Play(Stop(s)) == (s.(playing := true), Ok(()))
  {
  }

  /** Toggling the spatializer off and on again (with miniaudio succeeding) gives a fresh one of the original shape. */
  lemma SpatializationToggle(s: ChannelState)
    requires s.Valid()
    ensures var off := SetSpatializationEnabled(s, false, 0).0;
            SetSpatializationEnabled(off, true, 0).0.spatializer == Some(Spatializer(s.Channels(), s.Channels(), FreshSettings()))
  {
  }

  /**
   * While the source lasts and the stretcher has nothing banked, a
   * bypassed read through the stretcher returns every frame asked for and
   * keeps the credit at 0.
   */
  lemma StretchSteadyState(s: ChannelState, frameCount: nat, outputLen: nat, tempLen: nat)
    requires s.Valid() && s.playing && s.fx.Some? && Rs.BypassMode(s.resampler)
    requires Fx.TempoBypass(s.fx.value) && s.fx.value.frameAvailable == 0
    requires frameCount < Rd.AvailableFrames(s.reader)
    requires Read(s, frameCount, outputLen, tempLen, false, 0).1.Ok?
    ensures Read(s, frameCount, outputLen, tempLen, false, 0).1.value == frameCount
    ensures Read(s, frameCount, outputLen, tempLen, false, 0).0.fx.value.frameAvailable == 0
  {
  }

  // ---- playback over several reads

  /**
   * A read as the device's callback makes it: `frameCount` frames into
   * buffers of exactly that many frames, without a listener.
   */
  function CallbackRead(frameCount: nat): (r: ChannelState --> (ChannelState, Result<nat, AudioError>))
    ensures ValidStep(r)
  {
    (s: ChannelState) requires s.Valid() => Read(s, frameCount, frameCount * s.Channels(), frameCount * s.Channels(), false, 0)
  }

  /** A read step takes any valid channel to a valid channel. */
  ghost predicate ValidStep(step: ChannelState --> (ChannelState, Result<nat, AudioError>))
  {
    forall t: ChannelState | t.Valid() :: step.requires(t) && step(t).0.Valid()
  }

  /**
   * `count` successive read steps: the state after them and the frames
   * delivered in total, or the first error.
   */
  function Run(s: ChannelState, step: ChannelState --> (ChannelState, Result<nat, AudioError>), count: nat)
    : (r: (ChannelState, Result<nat, AudioError>))
    requires s.Valid() && ValidStep(step)
    ensures r.0.Valid()
    decreases count
  {
    if count == 0 then (s, Ok(0))
    else
      var (s1, got) := step(s);
      if got.Err? then (s1, got)
      else
        var (s2, rest) := Run(s1, step, count - 1);
        if rest.Err? then (s2, rest) else (s2, Ok(got.value + rest.value))
  }

  /** `count` successive reads as the device's callback makes them. */
  function PlayRun(s: ChannelState, frameCount: nat, count: nat): (r: (ChannelState, Result<nat, AudioError>))
    requires s.Valid()
    ensures r.0.Valid()
  {
    Run(s, CallbackRead(frameCount), count)
  }

  /** A stopped channel stays put and delivers nothing, however often it is read. */
  lemma {:induction false} StoppedRunIsSilent(s: ChannelState, frameCount: nat, count: nat)
    requires s.Valid() && !s.playing
    ensures PlayRun(s, frameCount, count) == (s, Ok(0))
    decreases count
  {
    if count > 0 {
      StoppedRunIsSilent(s, frameCount, count - 1);
    }
  }

  lemma MulMono(a: nat, b: nat, c: nat)
    requires a <= b
    ensures a * c <= b * c
  {
    assert b * c == a * c + (b - a) * c;
  }

  /**
   * One read of a playing, non-looping channel over an audio buffer, with
   * no stretcher and no resampling, succeeds and delivers what is left, up
   * to the request; a short read stops the channel.
   */
  lemma PlainReadSucceeds(s: ChannelState, frameCount: nat)
    requires s.Valid() && s.playing && s.fx.None? && Rs.BypassMode(s.resampler) && !s.isLooping
    requires s.reader.backing == Rd.Buffer && frameCount > 0
    ensures var r := Read(s, frameCount, frameCount * s.Channels(), frameCount * s.Channels(), false, 0);
            r.1 == Ok(Min(frameCount, Rd.AvailableFrames(s.reader)))
            && r.0 == s.(reader := s.reader.(position := s.reader.position + r.1.value),
                         position := s.position + r.1.value,
                         playing := r.1.value == frameCount)
  {
    var len := frameCount * s.Channels();
    var required := Rs.GetRequiredInput(s.resampler, frameCount).value;
    assert required == frameCount;
    var got := Min(frameCount, Rd.AvailableFrames(s.reader));
    MulMono(got, frameCount, s.Channels());
    assert PostStages(s.(reader := s.reader.(position := s.reader.position + got)), got, required, frameCount, len, len) == Ok(got);
  }

  /**
   * The same read into scratch buffers of any size that holds the request,
   * with or without a listener, when the spatializer (if any) succeeds.
   */
  lemma PlainReadInto(s: ChannelState, frameCount: nat, bufferLen: nat, listener: bool)
    requires s.Valid() && s.playing && s.fx.None? && Rs.BypassMode(s.resampler) && !s.isLooping
    requires s.reader.backing == Rd.Buffer && frameCount > 0 && frameCount * s.Channels() <= bufferLen
    ensures var got := Min(frameCount, Rd.AvailableFrames(s.reader));
            Read(s, frameCount, bufferLen, bufferLen, listener, 0)
            == (s.(reader := s.reader.(position := s.reader.position + got), position := s.position + got,
                   playing := got == frameCount), Ok(got))
  {
    var required := Rs.GetRequiredInput(s.resampler, frameCount).value;
    assert required == frameCount;
    var got := Min(frameCount, Rd.AvailableFrames(s.reader));
    MulMono(got, frameCount, s.Channels());
    var s1 := s.(reader := s.reader.(position := s.reader.position + got));
    assert PostStages(s1, got, required, frameCount, bufferLen, bufferLen) == Ok(got);
  }

  /**
   * A channel a plain run reads: over an audio buffer, not looping,
   * with no stretcher and no resampling.
   */
  ghost predicate Plain(t: ChannelState)
  {
    t.Valid() && t.fx.None? && Rs.BypassMode(t.resampler) && !t.isLooping && t.reader.backing == Rd.Buffer
  }

  /**
   * What one read of a plain channel does: what is left, up to the
   * request, is delivered; a short read stops the channel.
   */
  function PlainNext(t: ChannelState, frameCount: nat): (ChannelState, Result<nat, AudioError>)
    requires t.Valid()
  {
    if !t.playing then (t, Ok(0))
    else
      var got := Min(frameCount, Rd.AvailableFrames(t.reader));
      (t.(reader := t.reader.(position := t.reader.position + got), position := t.position + got,
          playing := got == frameCount), Ok(got))
  }

  /** The callback's read behaves as `PlainNext` on every plain channel. */
  lemma CallbackReadIsPlain(frameCount: nat)
    requires frameCount > 0
    ensures ValidStep(CallbackRead(frameCount))
    ensures forall t | Plain(t) :: CallbackRead(frameCount)(t) == PlainNext(t, frameCount)
  {
    forall t | Plain(t)
      ensures CallbackRead(frameCount)(t) == PlainNext(t, frameCount)
    {
      if t.playing {
        PlainReadSucceeds(t, frameCount);
      }
    }
  }

  /**
   * Where a plain run of `count` reads of `frameCount` frames leaves the
   * channel: every remaining frame up to `count * frameCount` delivered,
   * and still playing only if the reads never asked for more than remained.
   */
  function PlainEnd(s: ChannelState, frameCount: nat, count: nat): (r: ChannelState)
    requires s.Valid()
    ensures r.Valid()
  {
    var d := Min(count * frameCount, Rd.AvailableFrames(s.reader));
    s.(reader := s.reader.(position := s.reader.position + d), position := s.position + d,
       playing := s.playing && count * frameCount <= Rd.AvailableFrames(s.reader))
  }

  /** Reading a full first buffer and then the rest ends where the whole run ends. */
  lemma PlainEndStep(s: ChannelState, frameCount: nat, count: nat)
    requires s.Valid() && s.playing && count > 0 && frameCount <= Rd.AvailableFrames(s.reader)
    ensures var s1 := PlainNext(s, frameCount).0;
            && s1.Valid() && Rd.AvailableFrames(s1.reader) == Rd.AvailableFrames(s.reader) - frameCount
            && PlainEnd(s1, frameCount, count - 1) == PlainEnd(s, frameCount, count)
            && frameCount + Min((count - 1) * frameCount, Rd.AvailableFrames(s1.reader))
               == Min(count * frameCount, Rd.AvailableFrames(s.reader))
  {
    assert (count - 1) * frameCount + frameCount == count * frameCount;
  }

  /** A first read that falls short ends the run: what remained is all that is delivered. */
  lemma PlainEndShort(s: ChannelState, frameCount: nat, count: nat)
    requires s.Valid() && count > 0 && Rd.AvailableFrames(s.reader) < frameCount
    ensures var avail := Rd.AvailableFrames(s.reader);
            && Min(count * frameCount, avail) == avail
            && PlainEnd(s, frameCount, count)
               == s.(reader := s.reader.(position := s.reader.position + avail), position := s.position + avail,
                     playing := false)
  {
    MulMono(1, count, frameCount);
  }

  /** A run of plain reads over a stopped channel leaves it where it is. */
  lemma {:induction false} PlainStoppedRun(s: ChannelState, step: ChannelState --> (ChannelState, Result<nat, AudioError>),
                                           frameCount: nat, count: nat)
    requires Plain(s) && !s.playing && ValidStep(step)
    requires forall t | Plain(t) :: step(t) == PlainNext(t, frameCount)
    ensures Run(s, step, count) == (s, Ok(0))
    decreases count
  {
    if count > 0 {
      PlainStoppedRun(s, step, frameCount, count - 1);
    }
  }

  /**
   * A run of plain reads drains the buffer: `count` reads deliver every
   * remaining frame up to `count * frameCount` and end where `PlainEnd`
   * says.
   */
  lemma {:induction false} PlainRunDrains(s: ChannelState, step: ChannelState --> (ChannelState, Result<nat, AudioError>),
                                          frameCount: nat, count: nat)
    requires Plain(s) && s.playing && frameCount > 0 && ValidStep(step)
    requires forall t | Plain(t) :: step(t) == PlainNext(t, frameCount)
    ensures Run(s, step, count) == (PlainEnd(s, frameCount, count), Ok(Min(count * frameCount, Rd.AvailableFrames(s.reader))))
    decreases count
  {
    if count > 0 {
      var got := Min(frameCount, Rd.AvailableFrames(s.reader));
      var s1 := PlainNext(s, frameCount).0;
      assert Plain(s1);
      assert step(s) == (s1, Result<nat, AudioError>.Ok(got));
      if got < frameCount {
        PlainStoppedRun(s1, step, frameCount, count - 1);
        PlainEndShort(s, frameCount, count);
        assert Run(s, step, count) == (s1, Result<nat, AudioError>.Ok(got));
        assert Run(s, step, count) == (PlainEnd(s, frameCount, count), Result<nat, AudioError>.Ok(Min(count * frameCount, Rd.AvailableFrames(s.reader))));
      } else {
        PlainEndStep(s, frameCount, count);
        PlainRunDrains(s1, step, frameCount, count - 1);
        var rest := Min((count - 1) * frameCount, Rd.AvailableFrames(s1.reader));
        assert Run(s, step, count) == (PlainEnd(s1, frameCount, count - 1), Result<nat, AudioError>.Ok(got + rest));
        assert Run(s, step, count) == (PlainEnd(s, frameCount, count), Result<nat, AudioError>.Ok(Min(count * frameCount, Rd.AvailableFrames(s.reader))));
      }
    } else {
      assert PlainEnd(s, frameCount, count) == s;
        assert Run(s, step, count) == (PlainEnd(s, frameCount, count), Result<nat, AudioError>.Ok(Min(count * frameCount, Rd.AvailableFrames(s.reader))));
    }
  }

  /**
   * Playing a non-looping channel over an audio buffer to the end (no
   * stretcher, no resampling): `count` reads of the device's callback
   * deliver every remaining frame up to `count * frameCount`, and once the
   * reads ask for more than remains, the channel has stopped.
   */
  lemma PlaybackDrainsBuffer(s: ChannelState, frameCount: nat, count: nat)
    requires Plain(s) && s.playing && frameCount > 0
    ensures PlayRun(s, frameCount, count)
            == (PlainEnd(s, frameCount, count), Ok(Min(count * frameCount, Rd.AvailableFrames(s.reader))))
  {
    CallbackReadIsPlain(frameCount);
    PlainRunDrains(s, CallbackRead(frameCount), frameCount, count);
  }

  /**
   * A decoder reports "at end" when asked for frames after the last one, so
   * a playing channel whose stream ended exactly on a read boundary gets
   * `InvalidOperation` on the next read instead of stopping.
   */
  lemma DecoderAtEndFails(s: ChannelState, frameCount: nat)
    requires s.Valid() && s.playing && s.fx.None? && Rs.BypassMode(s.resampler)
    requires s.reader.backing == Rd.Decoder && Rd.AvailableFrames(s.reader) == 0 && frameCount > 0
    ensures Read(s, frameCount, frameCount * s.Channels(), frameCount * s.Channels(), false, 0)
            == (s, Err(InvalidOperation))
  {
  }
}
