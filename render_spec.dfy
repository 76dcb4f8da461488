/**
 * A render of the device (`AudioDeviceInner::process` in `device/inner.rs`)
 * together with the channels and mixers it reads. `DeviceSpec.Process`
 * says what the device does with the frames its nodes answer; this module
 * says which read each node is asked for and what that read does to the
 * node, in the terms of `ChannelSpec.Read` and `MixerSpec.Read`.
 */
module RenderSpec {
  import opened Wrappers
  import opened Errors
  import Fx
  import Rs = Resampler
  import Rd = AudioReader
  import Cs = ChannelSpec
  import Ms = MixerSpec
  import opened DeviceSpec

  /**
   * The frame count `process` asks every node for, or `None` when it
   * returns before reading any node: nothing is registered, or the
   * stretcher cannot say how much input it needs. Without a stretcher, or
   * at tempo 1, it is the resampler's request.
   */
  function ReadTarget(s: DeviceState, frameCount: nat): (r: Option<nat>)
    requires s.Valid()
    ensures s.channels == [] && s.mixers == [] ==> r.None?
    ensures (s.channels != [] || s.mixers != []) && (s.fx.None? || Fx.TempoBypass(s.fx.value)) ==>
              r == Some(Rs.GetRequiredInput(s.resampler, frameCount).value)
    ensures (s.channels != [] || s.mixers != []) && s.fx.Some? && !Fx.TempoBypass(s.fx.value) ==>
              r == (match Fx.GetRequiredInput(s.fx.value, frameCount) case Ok(t) => Some(t) case Err(_) => None)
  {
    if s.channels == [] && s.mixers == [] then None
    else
      var required := Rs.GetRequiredInput(s.resampler, frameCount).value;
      if s.fx.None? then Some(required)
      else
        match StretchInput(s.fx.value, frameCount, required)
        case Ok(t) => Some(t)
        case Err(_) => None
  }

  /**
   * One channel's read in a render: the channel after it and the frames it
   * counts for, 0 for a failed read as `unwrap_or(0)` makes it. A stopped
   * channel is left as it is; a read never counts more than it was asked
   * for and never touches the deletion mark.
   */
  function ChannelRead(c: Cs.ChannelState, target: nat, bufferLen: nat, listener: bool, spatialResult: int)
    : (r: (Cs.ChannelState, nat))
    requires c.Valid()
    ensures r.0.Valid() && Cs.SameSetup(c, r.0) && r.1 <= target
    ensures !c.playing ==> r == (c, 0)
  {
    var rd := Cs.Read(c, target, bufferLen, bufferLen, listener, spatialResult);
    (rd.0, if rd.1.Ok? then rd.1.value else 0)
  }

  /**
   * One mixer's read in a render: the mixer after it and the frames it
   * counts for, 0 for a failed read. A stopped mixer is left as it is, and
   * a successful read of a playing one counts the whole request.
   */
  function MixerRead(m: Ms.MixerTree, target: nat, bufferLen: nat): (r: (Ms.MixerTree, nat))
    requires Ms.Valid(m)
    ensures Ms.Valid(r.0) && Ms.SameSetup(m, r.0) && r.1 <= target
    ensures !m.playing ==> r == (m, 0)
    ensures m.position <= r.0.position
  {
    Ms.ReadOutcome(m, target, bufferLen, bufferLen);
    var rd := Ms.Read(m, target, bufferLen, bufferLen);
    (rd.0, if rd.1.Ok? then rd.1.value else 0)
  }

  ghost predicate AllChannelsValid(cs: seq<Cs.ChannelState>)
  {
    forall i | 0 <= i < |cs| :: cs[i].Valid()
  }

  ghost predicate AllMixersValid(ms: seq<Ms.MixerTree>)
  {
    forall i | 0 <= i < |ms| :: Ms.Valid(ms[i])
  }

  /** The channel loop of `process`: every channel read in turn, each with its spatializer's answer. */
  function ChannelReads(cs: seq<Cs.ChannelState>, target: nat, bufferLen: nat, listener: bool, spatialResults: seq<int>)
    : (r: (seq<Cs.ChannelState>, seq<nat>))
    requires AllChannelsValid(cs) && |spatialResults| == |cs|
    ensures |r.0| == |cs| && |r.1| == |cs| && AllChannelsValid(r.0)
    ensures forall i | 0 <= i < |cs| :: (r.0[i], r.1[i]) == ChannelRead(cs[i], target, bufferLen, listener, spatialResults[i])
  {
    (seq(|cs|, i requires 0 <= i < |cs| => ChannelRead(cs[i], target, bufferLen, listener, spatialResults[i]).0),
     seq(|cs|, i requires 0 <= i < |cs| => ChannelRead(cs[i], target, bufferLen, listener, spatialResults[i]).1))
  }

  /** The mixer loop of `process`: every mixer read in turn. */
  function MixerReads(ms: seq<Ms.MixerTree>, target: nat, bufferLen: nat): (r: (seq<Ms.MixerTree>, seq<nat>))
    requires AllMixersValid(ms)
    ensures |r.0| == |ms| && |r.1| == |ms| && AllMixersValid(r.0)
    ensures forall i | 0 <= i < |ms| :: (r.0[i], r.1[i]) == MixerRead(ms[i], target, bufferLen)
  {
    (seq(|ms|, i requires 0 <= i < |ms| => MixerRead(ms[i], target, bufferLen).0),
     seq(|ms|, i requires 0 <= i < |ms| => MixerRead(ms[i], target, bufferLen).1))
  }

  function Zeros(n: nat): (r: seq<nat>)
    ensures |r| == n && forall i | 0 <= i < n :: r[i] == 0
  {
    seq(n, _ => 0)
  }

  /**
   * `process` with its nodes: the device's new state, every channel's and
   * every mixer's new state, and the result. When no node is read the
   * nodes stay as they were; otherwise each node is read once, for the
   * same target, into the device's scratch buffers, with the device's
   * listener handed to the channels, and the device goes on with the
   * frames they counted.
   */
  function Render(s: DeviceState, cs: seq<Cs.ChannelState>, ms: seq<Ms.MixerTree>, frameCount: nat, outputLen: nat,
                  spatialResults: seq<int>)
    : (r: (DeviceState, seq<Cs.ChannelState>, seq<Ms.MixerTree>, Result<(), AudioError>))
    requires s.Valid() && |cs| == |s.channels| && |ms| == |s.mixers| && |spatialResults| == |cs|
    requires AllChannelsValid(cs) && AllMixersValid(ms)
    ensures r.0.Valid() && |r.1| == |cs| && |r.2| == |ms| && AllChannelsValid(r.1) && AllMixersValid(r.2)
  {
    match ReadTarget(s, frameCount)
    case None =>
      var (s1, res) := Process(s, frameCount, outputLen, Zeros(|cs|), Zeros(|ms|));
      (s1, cs, ms, res)
    case Some(target) =>
      var (cs1, channelFrames) := ChannelReads(cs, target, BufferLen(s), s.listener.Some?, spatialResults);
      var (ms1, mixerFrames) := MixerReads(ms, target, BufferLen(s));
      var (s1, res) := Process(s, frameCount, outputLen, channelFrames, mixerFrames);
      (s1, cs1, ms1, res)
  }

  /** With nothing registered a render is silent and changes nothing. */
  lemma RenderNothingRegistered(s: DeviceState, cs: seq<Cs.ChannelState>, ms: seq<Ms.MixerTree>, frameCount: nat,
                                outputLen: nat, spatialResults: seq<int>)
    requires s.Valid() && |cs| == |s.channels| && |ms| == |s.mixers| && |spatialResults| == |cs|
    requires AllChannelsValid(cs) && AllMixersValid(ms)
    requires s.channels == [] && s.mixers == []
    ensures Render(s, cs, ms, frameCount, outputLen, spatialResults) == (s, cs, ms, Ok(()))
  {
  }

  /**
   * When the stretcher cannot say how much input it needs, a render fails
   * with the stretcher's error before any node is read, and nothing changes.
   */
  lemma RenderStretcherFails(s: DeviceState, cs: seq<Cs.ChannelState>, ms: seq<Ms.MixerTree>, frameCount: nat,
                             outputLen: nat, spatialResults: seq<int>)
    requires s.Valid() && |cs| == |s.channels| && |ms| == |s.mixers| && |spatialResults| == |cs|
    requires AllChannelsValid(cs) && AllMixersValid(ms)
    requires s.channels != [] || s.mixers != []
    requires s.fx.Some? && StretchInput(s.fx.value, frameCount, Rs.GetRequiredInput(s.resampler, frameCount).value).Err?
    ensures Render(s, cs, ms, frameCount, outputLen, spatialResults)
            == (s, cs, ms, Err(StretchInput(s.fx.value, frameCount, Rs.GetRequiredInput(s.resampler, frameCount).value).error))
  {
  }

  /**
   * Once a render reads its nodes, the device goes on as `DeviceSpec.Process`
   * says with the frames the nodes counted, and the nodes end as their
   * reads leave them.
   */
  lemma RenderReadsNodes(s: DeviceState, cs: seq<Cs.ChannelState>, ms: seq<Ms.MixerTree>, frameCount: nat,
                         outputLen: nat, spatialResults: seq<int>)
    requires s.Valid() && |cs| == |s.channels| && |ms| == |s.mixers| && |spatialResults| == |cs|
    requires AllChannelsValid(cs) && AllMixersValid(ms)
    requires ReadTarget(s, frameCount).Some?
    ensures var target := ReadTarget(s, frameCount).value;
            var chanReads := ChannelReads(cs, target, BufferLen(s), s.listener.Some?, spatialResults);
            var mixReads := MixerReads(ms, target, BufferLen(s));
            var p := Process(s, frameCount, outputLen, chanReads.1, mixReads.1);
            Render(s, cs, ms, frameCount, outputLen, spatialResults) == (p.0, chanReads.0, mixReads.0, p.1)
  {
  }

  /**
   * What a render does to its nodes: with nothing registered, or when the
   * stretcher fails before the loops, no node changes; otherwise every
   * stopped node stays as it was, every node keeps its setup and its
   * deletion mark, and no mixer's cursor moves back. The device's own
   * state is what `DeviceSpec.Process` makes of the frames the nodes
   * counted, which never exceed the target.
   */
  lemma RenderOutcome(s: DeviceState, cs: seq<Cs.ChannelState>, ms: seq<Ms.MixerTree>, frameCount: nat,
                        outputLen: nat, spatialResults: seq<int>)
    requires s.Valid() && |cs| == |s.channels| && |ms| == |s.mixers| && |spatialResults| == |cs|
    requires AllChannelsValid(cs) && AllMixersValid(ms)
    ensures var r := Render(s, cs, ms, frameCount, outputLen, spatialResults);
            && (ReadTarget(s, frameCount).None? ==> r.1 == cs && r.2 == ms)
            && (forall i | 0 <= i < |cs| :: Cs.SameSetup(cs[i], r.1[i]) && (!cs[i].playing ==> r.1[i] == cs[i]))
            && (forall i | 0 <= i < |ms| ::
                  Ms.SameSetup(ms[i], r.2[i]) && ms[i].position <= r.2[i].position && (!ms[i].playing ==> r.2[i] == ms[i]))
            && (ReadTarget(s, frameCount).Some? ==>
                  var target := ReadTarget(s, frameCount).value;
                  var chanReads := ChannelReads(cs, target, BufferLen(s), s.listener.Some?, spatialResults);
                  var mixReads := MixerReads(ms, target, BufferLen(s));
                  (forall i | 0 <= i < |cs| :: chanReads.1[i] <= target)
                  && (forall i | 0 <= i < |ms| :: mixReads.1[i] <= target)
                  && (r.0, r.3) == Process(s, frameCount, outputLen, chanReads.1, mixReads.1))
  {
  }

  /**
   * When the target fits the device's scratch buffers (at most 4096 frames
   * for a node of the device's channel count), the frames the nodes count
   * always fit too: a render never panics in its node loops, whatever the
   * nodes answer.
   */
  lemma RenderedFramesFit(s: DeviceState, cs: seq<Cs.ChannelState>, ms: seq<Ms.MixerTree>, frameCount: nat,
                          spatialResults: seq<int>)
    requires s.Valid() && |cs| == |s.channels| && |ms| == |s.mixers| && |spatialResults| == |cs|
    requires AllChannelsValid(cs) && AllMixersValid(ms)
    requires ReadTarget(s, frameCount).Some? && ReadTarget(s, frameCount).value <= DEVICE_FRAMES
    ensures var target := ReadTarget(s, frameCount).value;
            && AddsFit(ChannelReads(cs, target, BufferLen(s), s.listener.Some?, spatialResults).1, s.channelCount, BufferLen(s))
            && AddsFit(MixerReads(ms, target, BufferLen(s)).1, s.channelCount, BufferLen(s))
  {
    var target := ReadTarget(s, frameCount).value;
    var chanReads := ChannelReads(cs, target, BufferLen(s), s.listener.Some?, spatialResults).1;
    var mixReads := MixerReads(ms, target, BufferLen(s)).1;
    forall i | 0 <= i < |chanReads| ensures chanReads[i] * s.channelCount <= BufferLen(s) {
      Cs.MulMono(chanReads[i], DEVICE_FRAMES, s.channelCount);
    }
    forall i | 0 <= i < |mixReads| ensures mixReads[i] * s.channelCount <= BufferLen(s) {
      Cs.MulMono(mixReads[i], DEVICE_FRAMES, s.channelCount);
    }
  }

  /**
   * A render reads a playing channel over an audio buffer, not looping,
   * with no stretcher and no resampling, exactly as playback promises: it
   * counts what is left up to the target, and a channel with fewer frames
   * left than the target ends the render stopped at the end of its stream.
   */
  lemma RenderPlaysPlainChannel(s: DeviceState, c: Cs.ChannelState, target: nat)
    requires s.Valid() && Cs.Plain(c) && c.playing && target > 0
    requires target * c.Channels() <= BufferLen(s)
    ensures var got := Min(target, Rd.AvailableFrames(c.reader));
            ChannelRead(c, target, BufferLen(s), s.listener.Some?, 0)
            == (c.(reader := c.reader.(position := c.reader.position + got), position := c.position + got,
                   playing := got == target), got)
    ensures Rd.AvailableFrames(c.reader) < target ==>
              var r := ChannelRead(c, target, BufferLen(s), s.listener.Some?, 0).0;
              !r.playing && Rd.AvailableFrames(r.reader) == 0
  {
    Cs.PlainReadInto(c, target, BufferLen(s), s.listener.Some?);
  }
}
