/**
 * The device as the source holds it: `AudioDeviceInner` (`device/inner.rs`),
 * whose node lists and stretcher `process` and the registry operations
 * update in place, and the `AudioDevice` handle (`device/mod.rs`). The
 * lists hold the very channel and mixer objects their handles share, so a
 * node dropped through its handle is swept out by the next `process`.
 * Every method is proved to do what the matching `DeviceSpec` function
 * says of the state before it.
 */
module Device {
  import opened Wrappers
  import opened Errors
  import opened Stages
  import Fx
  import Rs = Resampler
  import Attributes
  import Utils
  import Channel
  import Mixer
  import Cs = ChannelSpec
  import Ms = MixerSpec
  import RenderSpec
  import opened DeviceSpec

  /** The registry's view of a list of channels. */
  function ChannelNodes(cs: seq<Channel.ChannelInner>): (r: seq<Node>)
    reads cs
    ensures |r| == |cs|
    ensures forall i | 0 <= i < |cs| :: r[i] == Node(cs[i].refId, cs[i].markedAsDeleted)
  {
    seq(|cs|, i requires 0 <= i < |cs| reads cs => Node(cs[i].refId, cs[i].markedAsDeleted))
  }

  /** Appending a channel appends its node to the registry's view. */
  lemma ChannelNodesSnoc(cs: seq<Channel.ChannelInner>, c: Channel.ChannelInner)
    ensures ChannelNodes(cs + [c]) == ChannelNodes(cs) + [Node(c.refId, c.markedAsDeleted)]
  {
  }

  /** The registry's view of a list of mixers. */
  function MixerNodes(ms: seq<Mixer.MixerInner>): (r: seq<Node>)
    reads ms
    ensures |r| == |ms|
    ensures forall i | 0 <= i < |ms| :: r[i] == Node(ms[i].refId, ms[i].markedAsDeleted)
  {
    seq(|ms|, i requires 0 <= i < |ms| reads ms => Node(ms[i].refId, ms[i].markedAsDeleted))
  }

  /** Appending a mixer appends its node to the registry's view. */
  lemma MixerNodesSnoc(ms: seq<Mixer.MixerInner>, m: Mixer.MixerInner)
    ensures MixerNodes(ms + [m]) == MixerNodes(ms) + [Node(m.refId, m.markedAsDeleted)]
  {
  }

  /** The state of each channel of a list, in order. */
  function ChannelStates(cs: seq<Channel.ChannelInner>): (r: seq<Cs.ChannelState>)
    reads cs, set c | c in cs :: c.reader
    ensures |r| == |cs| && forall i | 0 <= i < |cs| :: r[i] == cs[i].Snapshot()
  {
    seq(|cs|, i requires 0 <= i < |cs| reads cs, set c | c in cs :: c.reader => cs[i].Snapshot())
  }

  /** The state of each mixer of a list, in order. */
  function MixerStates(ms: seq<Mixer.MixerInner>): (r: seq<Ms.MixerTree>)
    reads ms
    ensures |r| == |ms| && forall i | 0 <= i < |ms| :: r[i] == ms[i].Snapshot()
  {
    seq(|ms|, i requires 0 <= i < |ms| reads ms => ms[i].Snapshot())
  }

  /**
   * The channel loop of `process`: each channel's `read_pcm_frames` in
   * turn, into the device's scratch buffers, with `unwrap_or(0)` of each
   * answer kept as that channel's frames. The channels end as
   * `RenderSpec.ChannelReads` says.
   */
  method ReadChannels(cs: seq<Channel.ChannelInner>, target: nat, bufferLen: nat, listener: bool, spatialResults: seq<int>)
    returns (frames: seq<nat>)
    requires |spatialResults| == |cs|
    requires RenderSpec.AllChannelsValid(ChannelStates(cs))
    requires forall i, j | 0 <= i < j < |cs| :: cs[i] != cs[j] && cs[i].reader != cs[j].reader
    modifies cs, set c | c in cs :: c.reader
    ensures RenderSpec.AllChannelsValid(ChannelStates(cs)) && ChannelNodes(cs) == old(ChannelNodes(cs))
    ensures (ChannelStates(cs), frames)
            == RenderSpec.ChannelReads(old(ChannelStates(cs)), target, bufferLen, listener, spatialResults)
  {
    ghost var before := ChannelStates(cs);
    ghost var spec := RenderSpec.ChannelReads(before, target, bufferLen, listener, spatialResults);
    frames := [];
    var i := 0;
    while i < |cs|
      invariant 0 <= i <= |cs| && |frames| == i
      invariant forall k | 0 <= k < i :: cs[k].Snapshot() == spec.0[k] && frames[k] == spec.1[k]
      invariant forall k | i <= k < |cs| :: cs[k].Snapshot() == before[k]
    {
      var got := cs[i].ReadPcmFrames(target, bufferLen, bufferLen, listener, spatialResults[i]);
      frames := frames + [if got.Ok? then got.value else 0];
      i := i + 1;
    }
    assert ChannelStates(cs) == spec.0 && frames == spec.1;
    assert forall k | 0 <= k < |cs| :: cs[k].markedAsDeleted == spec.0[k].markedAsDeleted == before[k].markedAsDeleted;
    assert ChannelNodes(cs) == old(ChannelNodes(cs));
  }

  /**
   * The mixer loop of `process`: each mixer's `read_pcm_frames` in turn,
   * with `unwrap_or(0)` of each answer kept as that mixer's frames. The
   * mixers end as `RenderSpec.MixerReads` says.
   */
  method ReadMixers(ms: seq<Mixer.MixerInner>, target: nat, bufferLen: nat) returns (frames: seq<nat>)
    requires RenderSpec.AllMixersValid(MixerStates(ms))
    requires forall i, j | 0 <= i < j < |ms| :: ms[i] != ms[j]
    modifies ms
    ensures RenderSpec.AllMixersValid(MixerStates(ms)) && MixerNodes(ms) == old(MixerNodes(ms))
    ensures (MixerStates(ms), frames) == RenderSpec.MixerReads(old(MixerStates(ms)), target, bufferLen)
  {
    ghost var before := MixerStates(ms);
    ghost var spec := RenderSpec.MixerReads(before, target, bufferLen);
    frames := [];
    var i := 0;
    while i < |ms|
      invariant 0 <= i <= |ms| && |frames| == i
      invariant forall k | 0 <= k < i :: ms[k].Snapshot() == spec.0[k] && frames[k] == spec.1[k]
      invariant forall k | i <= k < |ms| :: ms[k].Snapshot() == before[k]
    {
      var got := ms[i].ReadPcmFrames(target, bufferLen, bufferLen);
      frames := frames + [if got.Ok? then got.value else 0];
      i := i + 1;
    }
    assert MixerStates(ms) == spec.0 && frames == spec.1;
    assert forall k | 0 <= k < |ms| :: ms[k].markedAsDeleted == spec.0[k].markedAsDeleted == before[k].markedAsDeleted;
    assert MixerNodes(ms) == old(MixerNodes(ms));
  }

  /**
   * The two node loops of `process`: every channel, then every mixer,
   * read for `target` frames into the device's scratch buffers. The
   * registry sees every node as before.
   */
  method ReadNodes(cs: seq<Channel.ChannelInner>, ms: seq<Mixer.MixerInner>, target: nat, bufferLen: nat, listener: bool,
                   spatialResults: seq<int>)
    returns (channelFrames: seq<nat>, mixerFrames: seq<nat>)
    requires |spatialResults| == |cs|
    requires RenderSpec.AllChannelsValid(ChannelStates(cs))
    requires forall i, j | 0 <= i < j < |cs| :: cs[i] != cs[j] && cs[i].reader != cs[j].reader
    requires RenderSpec.AllMixersValid(MixerStates(ms))
    requires forall i, j | 0 <= i < j < |ms| :: ms[i] != ms[j]
    modifies cs, set c | c in cs :: c.reader, ms
    ensures ChannelNodes(cs) == old(ChannelNodes(cs)) && MixerNodes(ms) == old(MixerNodes(ms))
    ensures (ChannelStates(cs), channelFrames) == RenderSpec.ChannelReads(old(ChannelStates(cs)), target, bufferLen, listener, spatialResults)
    ensures (MixerStates(ms), mixerFrames) == RenderSpec.MixerReads(old(MixerStates(ms)), target, bufferLen)
  {
    channelFrames := ReadChannels(cs, target, bufferLen, listener, spatialResults);
    mixerFrames := ReadMixers(ms, target, bufferLen);
  }

  /**
   * One node loop of `process`: each node's frames are added into
   * `resampler_buffer` when it gave any, which panics once they do not fit;
   * the most frames any node gave is carried on from `most0`.
   */
  method AddReads(frames: seq<nat>, channelCount: nat, bufferLen: nat, most0: nat) returns (most: nat, panicked: bool)
    ensures panicked <==> !AddsFit(frames, channelCount, bufferLen)
    ensures !panicked ==> most == Max(most0, MaxFrames(frames))
  {
    most := most0;
    var i := 0;
    while i < |frames|
      invariant 0 <= i <= |frames|
      invariant AddsFit(frames[..i], channelCount, bufferLen)
      invariant most == Max(most0, MaxFrames(frames[..i]))
    {
      if frames[i] > 0 && frames[i] * channelCount > bufferLen {
        assert !AddsFit(frames, channelCount, bufferLen) by {
          assert frames[i] * channelCount > bufferLen;
        }
        return most, true;
      }
      ghost var prefix := frames[..i + 1];
      assert prefix[..i] == frames[..i] && prefix[i] == frames[i];
      assert MaxFrames(prefix) == Max(MaxFrames(frames[..i]), frames[i]);
      most := Max(most, frames[i]);
      i := i + 1;
    }
    assert frames[..i] == frames;
    return most, false;
  }

  /** The channels of `channels` that are not marked deleted, in order: the `retain` of `process`. */
  method RetainChannels(channels: seq<Channel.ChannelInner>) returns (kept: seq<Channel.ChannelInner>)
    ensures ChannelNodes(kept) == Retain(ChannelNodes(channels))
    ensures forall c :: c in kept <==> c in channels && !c.markedAsDeleted
  {
    kept := [];
    var i := 0;
    while i < |channels|
      invariant 0 <= i <= |channels|
      invariant ChannelNodes(kept) == Retain(ChannelNodes(channels[..i]))
      invariant forall c :: c in kept <==> c in channels[..i] && !c.markedAsDeleted
    {
      var c := channels[i];
      assert channels[..i + 1] == channels[..i] + [c];
      ChannelNodesSnoc(channels[..i], c);
      RetainAppend(ChannelNodes(channels[..i]), [Node(c.refId, c.markedAsDeleted)]);
      if !c.markedAsDeleted {
        ChannelNodesSnoc(kept, c);
        kept := kept + [c];
      }
      i := i + 1;
    }
    assert channels[..i] == channels;
  }

  /** The mixers of `mixers` that are not marked deleted, in order: the `retain` of `process`. */
  method RetainMixers(mixers: seq<Mixer.MixerInner>) returns (kept: seq<Mixer.MixerInner>)
    ensures MixerNodes(kept) == Retain(MixerNodes(mixers))
    ensures forall m :: m in kept <==> m in mixers && !m.markedAsDeleted
  {
    kept := [];
    var i := 0;
    while i < |mixers|
      invariant 0 <= i <= |mixers|
      invariant MixerNodes(kept) == Retain(MixerNodes(mixers[..i]))
      invariant forall m :: m in kept <==> m in mixers[..i] && !m.markedAsDeleted
    {
      var m := mixers[i];
      assert mixers[..i + 1] == mixers[..i] + [m];
      MixerNodesSnoc(mixers[..i], m);
      RetainAppend(MixerNodes(mixers[..i]), [Node(m.refId, m.markedAsDeleted)]);
      if !m.markedAsDeleted {
        MixerNodesSnoc(kept, m);
        kept := kept + [m];
      }
      i := i + 1;
    }
    assert mixers[..i] == mixers;
  }

  /** The credit step, then the copy of the stretched frames back into the buffer. */
  method FinishStretch(fx: Fx.Fx, most: nat, target: nat, channelCount: nat, required: nat) returns (f: Fx.Fx, r: Option<AudioError>)
    requires fx.Valid()
    ensures var drawn := CreditDraw(fx, most, target, DEVICE_FRAMES * channelCount, required);
            f == drawn.0
            && r == if drawn.1.Some? then drawn.1
                    else if Utils.CopyFits(DEVICE_FRAMES * channelCount, DEVICE_FRAMES * channelCount, 0, 0, required * channelCount) then None
                    else Some(Panic)
  {
    var bufferLen := DEVICE_FRAMES * channelCount;
    var drawn := CreditDraw(fx, most, target, bufferLen, required);
    f, r := drawn.0, drawn.1;
    if r.None? && !Utils.CopyFits(bufferLen, bufferLen, 0, 0, required * channelCount) {
      r := Some(Panic);
    }
  }

  /**
   * The stretcher branch of `process` on the stretcher alone: the input
   * it needs, the nodes' frames added up, then the credit step and the
   * final copy back.
   */
  method StretchStep(fx: Fx.Fx, channelCount: nat, frameCount: nat, required: nat, channelFrames: seq<nat>, mixerFrames: seq<nat>)
    returns (f: Fx.Fx, r: Option<AudioError>)
    requires fx.Valid()
    ensures (f, r) == StretchCredit(fx, channelCount, frameCount, required, channelFrames, mixerFrames)
  {
    f := fx;
    var bufferLen := DEVICE_FRAMES * channelCount;
    var target := StretchInput(fx, frameCount, required);
    if target.Err? {
      return f, Some(target.error);
    }
    var most, panicked := AddReads(channelFrames, channelCount, bufferLen, 0);
    if panicked {
      return f, Some(Panic);
    }
    most, panicked := AddReads(mixerFrames, channelCount, bufferLen, most);
    if panicked {
      return f, Some(Panic);
    }
    f, r := FinishStretch(fx, most, target.value, channelCount, required);
  }

  class AudioDeviceInner {
    const channelCount: nat
    var channels: seq<Channel.ChannelInner>
    var mixers: seq<Mixer.MixerInner>
    var resampler: Rs.Resampler
    var panner: Panner
    var volume: Gainer
    var fx: Option<Fx.Fx>
    var listener: Option<Listener>

    /** The device's fields, and the identity and mark of each node it lists, as one value. */
    function Snapshot(): DeviceState
      reads this, channels, mixers
    {
      DeviceState(channelCount, ChannelNodes(channels), MixerNodes(mixers), resampler, panner, volume, fx, listener)
    }

    ghost predicate Valid()
      reads this, channels, mixers
    {
      Snapshot().Valid()
    }

    /** The fields `AudioDeviceInner::new` sets: no nodes, no stretcher, no listener. */
    constructor (channelCount: nat, resampler: Rs.Resampler, panner: Panner, volume: Gainer)
      ensures channels == [] && mixers == []
      ensures Snapshot() == DeviceState(channelCount, [], [], resampler, panner, volume, None, None)
    {
      this.channelCount := channelCount;
      this.channels := [];
      this.mixers := [];
      this.resampler := resampler;
      this.panner := panner;
      this.volume := volume;
      this.fx := None;
      this.listener := None;
    }

    /** `add_channel`: refused when a channel with the same identity is listed, appended otherwise. */
    method AddChannel(c: Channel.ChannelInner) returns (r: Result<(), AudioError>)
      requires Valid()
      modifies this
      ensures (Snapshot(), r) == DeviceSpec.AddChannel(old(Snapshot()), Node(c.refId, c.markedAsDeleted))
      ensures channels == if r.Ok? then old(channels) + [c] else old(channels)
      ensures Valid()
    {
      var i := 0;
      while i < |channels|
        invariant 0 <= i <= |channels|
        invariant forall k | 0 <= k < i :: channels[k].refId != c.refId
      {
        if channels[i].refId == c.refId {
          assert ChannelNodes(channels)[i].refId == c.refId;
          return Err(ChannelAlreadyExists(c.refId));
        }
        i := i + 1;
      }
      ghost var before := ChannelNodes(channels);
      channels := channels + [c];
      assert ChannelNodes(channels) == before + [Node(c.refId, c.markedAsDeleted)];
      return Ok(());
    }

    /** `add_mixer`: refused when a mixer with the same identity is listed, appended otherwise. */
    method AddMixer(m: Mixer.MixerInner) returns (r: Result<(), AudioError>)
      requires Valid()
      modifies this
      ensures (Snapshot(), r) == DeviceSpec.AddMixer(old(Snapshot()), Node(m.refId, m.markedAsDeleted))
      ensures mixers == if r.Ok? then old(mixers) + [m] else old(mixers)
      ensures Valid()
    {
      var i := 0;
      while i < |mixers|
        invariant 0 <= i <= |mixers|
        invariant forall k | 0 <= k < i :: mixers[k].refId != m.refId
      {
        if mixers[i].refId == m.refId {
          assert MixerNodes(mixers)[i].refId == m.refId;
          return Err(MixerAlreadyExists(m.refId));
        }
        i := i + 1;
      }
      ghost var before := MixerNodes(mixers);
      mixers := mixers + [m];
      assert MixerNodes(mixers) == before + [Node(m.refId, m.markedAsDeleted)];
      return Ok(());
    }

    /** `remove_channel`: the channel at `index`, if there is one. */
    method RemoveChannel(index: nat) returns (r: Result<(), AudioError>)
      requires Valid()
      modifies this
      ensures (Snapshot(), r) == DeviceSpec.RemoveChannel(old(Snapshot()), index)
      ensures channels == if r.Ok? then old(channels[..index] + channels[index + 1..]) else old(channels)
      ensures Valid()
    {
      if index < |channels| {
        ghost var before := ChannelNodes(channels);
        channels := channels[..index] + channels[index + 1..];
        assert ChannelNodes(channels) == before[..index] + before[index + 1..];
        return Ok(());
      }
      return Err(ChannelNotFound(index));
    }

    /** `remove_mixer`: the first mixer with identity `id`, if there is one. */
    method RemoveMixer(id: nat) returns (r: Result<(), AudioError>)
      requires Valid()
      modifies this
      ensures (Snapshot(), r) == DeviceSpec.RemoveMixer(old(Snapshot()), id)
      ensures r.Err? ==> mixers == old(mixers)
      ensures Valid()
    {
      var i := 0;
      while i < |mixers|
        invariant 0 <= i <= |mixers|
        invariant forall k | 0 <= k < i :: mixers[k].refId != id
      {
        if mixers[i].refId == id {
          ghost var before := MixerNodes(mixers);
          assert FirstIndex(before, id) == Some(i) by {
            assert before[i].refId == id;
          }
          mixers := mixers[..i] + mixers[i + 1..];
          assert MixerNodes(mixers) == before[..i] + before[i + 1..];
          return Ok(());
        }
        i := i + 1;
      }
      assert !HasId(MixerNodes(mixers), id);
      return Err(MixerNotFound(id));
    }

    /** The channel half of the sweep at the end of `process`: channels marked deleted go. */
    method SweepChannels()
      requires Valid()
      modifies this
      ensures Snapshot() == old(Snapshot()).(channels := Retain(old(Snapshot()).channels))
      ensures forall c :: c in channels <==> c in old(channels) && !c.markedAsDeleted
      ensures mixers == old(mixers) && Valid()
    {
      channels := RetainChannels(channels);
    }

    /** The mixer half of the sweep at the end of `process`: mixers marked deleted go. */
    method SweepMixers()
      requires Valid()
      modifies this
      ensures Snapshot() == old(Snapshot()).(mixers := Retain(old(Snapshot()).mixers))
      ensures forall m :: m in mixers <==> m in old(mixers) && !m.markedAsDeleted
      ensures channels == old(channels) && Valid()
    {
      mixers := RetainMixers(mixers);
    }

    /** The sweep at the end of `process`: channels and mixers marked deleted go. */
    method Sweep()
      requires Valid()
      modifies this
      ensures Snapshot() == old(Snapshot()).(channels := Retain(old(Snapshot()).channels), mixers := Retain(old(Snapshot()).mixers))
      ensures forall c :: c in channels <==> c in old(channels) && !c.markedAsDeleted
      ensures forall m :: m in mixers <==> m in old(mixers) && !m.markedAsDeleted
      ensures Valid()
    {
      SweepChannels();
      ghost var s1 := Snapshot();
      SweepMixers();
      assert Snapshot() == s1.(mixers := Retain(s1.mixers));
    }

    /**
     * The stretcher branch of `process` once the nodes have been read: their
     * frames added into the scratch buffer, the credit, and the stretcher's
     * size checks.
     */
    method StretchNodes(frameCount: nat, required: nat, channelFrames: seq<nat>, mixerFrames: seq<nat>) returns (r: Option<AudioError>)
      requires Valid() && fx.Some?
      modifies this
      ensures (Snapshot(), r) == StretchMix(old(Snapshot()), frameCount, required, channelFrames, mixerFrames)
      ensures channels == old(channels) && mixers == old(mixers) && Valid()
    {
      var f;
      f, r := StretchStep(fx.value, channelCount, frameCount, required, channelFrames, mixerFrames);
      fx := Some(f);
    }

    /**
     * The mixing half of `process`, given the frames each node answered: the
     * stretcher branch, or the frames added into the scratch buffer alone.
     */
    method MixNodes(frameCount: nat, required: nat, channelFrames: seq<nat>, mixerFrames: seq<nat>) returns (r: Option<AudioError>)
      requires Valid()
      modifies this
      ensures (Snapshot(), r) == Mix(old(Snapshot()), frameCount, required, channelFrames, mixerFrames)
      ensures channels == old(channels) && mixers == old(mixers) && Valid()
    {
      if fx.Some? {
        r := StretchNodes(frameCount, required, channelFrames, mixerFrames);
        return;
      }
      var most, panicked := AddReads(channelFrames, channelCount, DEVICE_FRAMES * channelCount, 0);
      if panicked {
        return Some(Panic);
      }
      most, panicked := AddReads(mixerFrames, channelCount, DEVICE_FRAMES * channelCount, 0);
      if panicked {
        return Some(Panic);
      }
      return None;
    }

    /**
     * The nodes a render reads: every listed channel and mixer is
     * well-formed, no object is listed twice, and no two channels share a
     * reader (each channel owns its own).
     */
    ghost predicate NodesReady()
      reads this, channels, set c | c in channels :: c.reader, mixers
    {
      RenderSpec.AllChannelsValid(ChannelStates(channels))
      && (forall i, j | 0 <= i < j < |channels| :: channels[i] != channels[j] && channels[i].reader != channels[j].reader)
      && RenderSpec.AllMixersValid(MixerStates(mixers))
      && (forall i, j | 0 <= i < j < |mixers| :: mixers[i] != mixers[j])
    }

    /**
     * `process`: the output is zero-filled first and stays silent when
     * nothing is registered; otherwise every listed channel and mixer is
     * read in turn (each channel's spatializer answering as
     * `spatialResults` says), their frames mixed, the output rendered and,
     * when all of that succeeded, the nodes marked deleted swept out. The
     * device and every node it read end as `RenderSpec.Render` says.
     */
    method Process(output: array<real>, frameCount: nat, spatialResults: seq<int>) returns (r: Result<(), AudioError>)
      requires Valid() && NodesReady() && |spatialResults| == |channels|
      modifies this, output, channels, set c | c in channels :: c.reader, mixers
      ensures var rendered := RenderSpec.Render(old(Snapshot()), old(ChannelStates(channels)), old(MixerStates(mixers)),
                                                frameCount, output.Length, spatialResults);
              && (Snapshot(), r) == (rendered.0, rendered.3)
              && ChannelStates(old(channels)) == rendered.1 && MixerStates(old(mixers)) == rendered.2
      ensures old(channels) == [] && old(mixers) == [] ==> forall i | 0 <= i < output.Length :: output[i] == 0.0
      ensures r.Err? ==> channels == old(channels) && mixers == old(mixers)
      ensures r.Ok? ==> (forall c :: c in channels <==> c in old(channels) && !c.markedAsDeleted)
                        && (forall m :: m in mixers <==> m in old(mixers) && !m.markedAsDeleted)
      ensures Valid()
    {
      ghost var s0 := Snapshot();
      ghost var cs0 := ChannelStates(channels);
      ghost var ms0 := MixerStates(mixers);
      Utils.ArrayFastSetValue(output, 0.0);
      if |channels| == 0 && |mixers| == 0 {
        RenderSpec.RenderNothingRegistered(s0, cs0, ms0, frameCount, output.Length, spatialResults);
        return Ok(());
      }
      r := RenderRegistered(frameCount, output.Length, spatialResults);
    }

    /**
     * `process` once some node is registered: the resampler's (and the
     * stretcher's) input need, then every node read, mixed and rendered.
     */
    method RenderRegistered(frameCount: nat, outputLen: nat, spatialResults: seq<int>) returns (r: Result<(), AudioError>)
      requires Valid() && NodesReady() && |spatialResults| == |channels| && (channels != [] || mixers != [])
      modifies this, channels, set c | c in channels :: c.reader, mixers
      ensures var rendered := RenderSpec.Render(old(Snapshot()), old(ChannelStates(channels)), old(MixerStates(mixers)),
                                                frameCount, outputLen, spatialResults);
              && (Snapshot(), r) == (rendered.0, rendered.3)
              && ChannelStates(old(channels)) == rendered.1 && MixerStates(old(mixers)) == rendered.2
      ensures r.Err? ==> channels == old(channels) && mixers == old(mixers)
      ensures r.Ok? ==> (forall c :: c in channels <==> c in old(channels) && !c.markedAsDeleted)
                        && (forall m :: m in mixers <==> m in old(mixers) && !m.markedAsDeleted)
      ensures Valid()
    {
      ghost var s0 := Snapshot();
      ghost var cs0 := ChannelStates(channels);
      ghost var ms0 := MixerStates(mixers);
      var required := Rs.GetRequiredInput(resampler, frameCount).value;
      var target := required;
      if fx.Some? {
        var input := StretchInput(fx.value, frameCount, required);
        if input.Err? {
          RenderSpec.RenderStretcherFails(s0, cs0, ms0, frameCount, outputLen, spatialResults);
          return Err(input.error);
        }
        target := input.value;
      }
      r := RenderTarget(frameCount, outputLen, spatialResults, required, target);
    }

    /** `process` once the frames to read from every node are known: read them all, then mix and render. */
    method RenderTarget(frameCount: nat, outputLen: nat, spatialResults: seq<int>, required: nat, target: nat)
      returns (r: Result<(), AudioError>)
      requires Valid() && NodesReady() && |spatialResults| == |channels| && (channels != [] || mixers != [])
      requires required == Rs.GetRequiredInput(resampler, frameCount).value
      requires RenderSpec.ReadTarget(Snapshot(), frameCount) == Some(target)
      modifies this, channels, set c | c in channels :: c.reader, mixers
      ensures var rendered := RenderSpec.Render(old(Snapshot()), old(ChannelStates(channels)), old(MixerStates(mixers)),
                                                frameCount, outputLen, spatialResults);
              && (Snapshot(), r) == (rendered.0, rendered.3)
              && ChannelStates(old(channels)) == rendered.1 && MixerStates(old(mixers)) == rendered.2
      ensures r.Err? ==> channels == old(channels) && mixers == old(mixers)
      ensures r.Ok? ==> (forall c :: c in channels <==> c in old(channels) && !c.markedAsDeleted)
                        && (forall m :: m in mixers <==> m in old(mixers) && !m.markedAsDeleted)
      ensures Valid()
    {
      ghost var s0 := Snapshot();
      ghost var cs0 := ChannelStates(channels);
      ghost var ms0 := MixerStates(mixers);
      var channelFrames, mixerFrames := ReadNodes(channels, mixers, target, DEVICE_FRAMES * channelCount, listener.Some?, spatialResults);
      r := ProcessRest(outputLen, frameCount, required, channelFrames, mixerFrames);
      RenderSpec.RenderReadsNodes(s0, cs0, ms0, frameCount, outputLen, spatialResults);
    }

    /**
     * The rest of `process` once the nodes have answered: mix their
     * frames, render the output and, when all of that succeeded, sweep.
     */
    method ProcessRest(outputLen: nat, frameCount: nat, required: nat, channelFrames: seq<nat>, mixerFrames: seq<nat>)
      returns (r: Result<(), AudioError>)
      requires Valid() && |channelFrames| == |channels| && |mixerFrames| == |mixers| && (channels != [] || mixers != [])
      requires required == Rs.GetRequiredInput(resampler, frameCount).value
      modifies this
      ensures (Snapshot(), r) == DeviceSpec.Process(old(Snapshot()), frameCount, outputLen, channelFrames, mixerFrames)
      ensures r.Err? ==> channels == old(channels) && mixers == old(mixers)
      ensures r.Ok? ==> (forall c :: c in channels <==> c in old(channels) && !c.markedAsDeleted)
                        && (forall m :: m in mixers <==> m in old(mixers) && !m.markedAsDeleted)
      ensures Valid()
    {
      ghost var s0 := Snapshot();
      var mixed := MixNodes(frameCount, required, channelFrames, mixerFrames);
      ghost var s1 := Snapshot();
      if mixed.Some? {
        assert DeviceSpec.Process(s0, frameCount, outputLen, channelFrames, mixerFrames) == (s1, Err(mixed.value));
        return Err(mixed.value);
      }
      var rendered := Output(Snapshot(), required, frameCount, outputLen);
      if rendered.Some? {
        assert DeviceSpec.Process(s0, frameCount, outputLen, channelFrames, mixerFrames) == (s1, Err(rendered.value));
        return Err(rendered.value);
      }
      assert Mix(s0, frameCount, required, channelFrames, mixerFrames) == (s1, None);
      assert Output(s1, required, frameCount, outputLen).None?;
      Sweep();
      assert DeviceSpec.Process(s0, frameCount, outputLen, channelFrames, mixerFrames)
             == (s1.(channels := Retain(s1.channels), mixers := Retain(s1.mixers)), Ok(()));
      return Ok(());
    }
  }

  /** The `AudioDevice` handle: the shared inner device. */
  class AudioDevice {
    const inner: AudioDeviceInner

    ghost predicate Valid()
      reads this, inner, inner.channels, inner.mixers
    {
      inner.Valid()
    }

    constructor (inner: AudioDeviceInner)
      requires inner.Valid()
      ensures Valid() && this.inner == inner
    {
      this.inner := inner;
    }

    /** `add_channel`. */
    method AddChannel(channel: Channel.AudioChannel) returns (r: Result<(), AudioError>)
      requires Valid()
      modifies inner
      ensures (inner.Snapshot(), r) == DeviceSpec.AddChannel(old(inner.Snapshot()), Node(channel.inner.refId, channel.inner.markedAsDeleted))
      ensures Valid()
    {
      r := inner.AddChannel(channel.inner);
    }

    /**
     * `remove_channel`, removing the channel with the handle's identity
     * (the source hands the identity to a removal by position; see
     * `DeviceSpec.RemoveChannelAsWritten`).
     */
    method RemoveChannel(channel: Channel.AudioChannel) returns (r: Result<(), AudioError>)
      requires Valid()
      modifies inner
      ensures (inner.Snapshot(), r) == DeviceSpec.RemoveChannelOf(old(inner.Snapshot()), channel.inner.refId)
      ensures Valid()
    {
      r := RemoveChannelByRef(channel.inner.refId);
    }

    /** `remove_channel_by_ref`, removing the channel with identity `refId`. */
    method RemoveChannelByRef(refId: nat) returns (r: Result<(), AudioError>)
      requires Valid()
      modifies inner
      ensures (inner.Snapshot(), r) == DeviceSpec.RemoveChannelOf(old(inner.Snapshot()), refId)
      ensures Valid()
    {
      var i := 0;
      while i < |inner.channels|
        invariant 0 <= i <= |inner.channels|
        invariant forall k | 0 <= k < i :: inner.channels[k].refId != refId
      {
        if inner.channels[i].refId == refId {
          assert FirstIndex(inner.Snapshot().channels, refId) == Some(i) by {
            assert inner.Snapshot().channels[i].refId == refId;
          }
          r := inner.RemoveChannel(i);
          return;
        }
        i := i + 1;
      }
      assert !HasId(inner.Snapshot().channels, refId);
      return Err(ChannelNotFound(refId));
    }

    /** `add_mixer`. */
    method AddMixer(mixer: Mixer.AudioMixer) returns (r: Result<(), AudioError>)
      requires Valid()
      modifies inner
      ensures (inner.Snapshot(), r) == DeviceSpec.AddMixer(old(inner.Snapshot()), Node(mixer.inner.refId, mixer.inner.markedAsDeleted))
      ensures Valid()
    {
      r := inner.AddMixer(mixer.inner);
    }

    /** `remove_mixer`: the mixer with the handle's identity. */
    method RemoveMixer(mixer: Mixer.AudioMixer) returns (r: Result<(), AudioError>)
      requires Valid()
      modifies inner
      ensures (inner.Snapshot(), r) == DeviceSpec.RemoveMixer(old(inner.Snapshot()), mixer.inner.refId)
      ensures Valid()
    {
      r := inner.RemoveMixer(mixer.inner.refId);
    }

    /** `remove_mixer_by_ref`. */
    method RemoveMixerByRef(refId: nat) returns (r: Result<(), AudioError>)
      requires Valid()
      modifies inner
      ensures (inner.Snapshot(), r) == DeviceSpec.RemoveMixer(old(inner.Snapshot()), refId)
      ensures Valid()
    {
      r := inner.RemoveMixer(refId);
    }

    /** `get_attribute_f32`. */
    method GetAttributeF32(a: Attributes.AudioAttribute) returns (r: Result<real, AudioError>)
      ensures r == DeviceSpec.GetAttributeF32(inner.Snapshot(), a)
    {
      match a
      case Unknown =>
        return Err(UnknownAttribute);
      case SampleRate =>
        return Ok(inner.resampler.sampleRate as real);
      case Volume =>
        return Ok(inner.volume.volume);
      case Pan =>
        return Ok(inner.panner.pan);
      case FXPitch =>
        if inner.fx.None? {
          return Err(FxNotEnabled);
        }
        return Ok(inner.fx.value.octave);
      case FXTempo =>
        if inner.fx.None? {
          return Err(FxNotEnabled);
        }
        return Ok(inner.fx.value.tempo);
      case _ =>
        return Err(UnsupportedAttribute);
    }

    /** `get_attribute_bool`. */
    method GetAttributeBool(a: Attributes.AudioAttribute) returns (r: Result<bool, AudioError>)
      ensures r == DeviceSpec.GetAttributeBool(inner.Snapshot(), a)
    {
      match a
      case Unknown =>
        return Err(UnknownAttribute);
      case AudioFX =>
        return Ok(inner.fx.Some?);
      case AudioSpatialization =>
        return Ok(inner.listener.Some?);
      case _ =>
        return Err(UnsupportedAttribute);
    }

    /** `set_attribute_f32`. */
    method SetAttributeF32(a: Attributes.AudioAttribute, v: real) returns (r: Result<(), AudioError>)
      requires Valid()
      modifies inner
      ensures (inner.Snapshot(), r) == DeviceSpec.SetAttributeF32(old(inner.Snapshot()), a, v)
      ensures Valid()
    {
      match a
      case Unknown =>
        return Err(UnknownAttribute);
      case SampleRate =>
        inner.resampler := Rs.SetTargetSampleRate(inner.resampler, Utils.SaturatingCastU32(v));
        return Ok(());
      case Volume =>
        inner.volume := SetVolume(inner.volume, v);
        return Ok(());
      case Pan =>
        inner.panner := SetPan(inner.panner, v);
        return Ok(());
      case FXPitch =>
        if inner.fx.None? {
          return Err(FxNotEnabled);
        }
        inner.fx := Some(Fx.SetOctave(inner.fx.value, v));
        return Ok(());
      case FXTempo =>
        if inner.fx.None? {
          return Err(FxNotEnabled);
        }
        inner.fx := Some(Fx.SetTempo(inner.fx.value, v));
        return Ok(());
      case _ =>
        return Err(UnsupportedAttribute);
    }

    /** `set_attribute_bool`: a new stretcher (the library reporting `latency`) or listener (miniaudio answering `listenerInit`), or none. */
    method SetAttributeBool(a: Attributes.AudioAttribute, v: bool, latency: Fx.StretchLatency, listenerInit: int)
      returns (r: Result<(), AudioError>)
      requires Valid()
      modifies inner
      ensures (inner.Snapshot(), r) == DeviceSpec.SetAttributeBool(old(inner.Snapshot()), a, v, latency, listenerInit)
      ensures Valid()
    {
      match a
      case Unknown =>
        return Err(UnknownAttribute);
      case AudioFX =>
        if !v {
          inner.fx := None;
          return Ok(());
        }
        var made := Fx.New(inner.resampler.channels, inner.resampler.sampleRate, latency);
        if made.Err? {
          return Err(made.error);
        }
        inner.fx := Some(made.value);
        return Ok(());
      case AudioSpatialization =>
        if !v {
          inner.listener := None;
          return Ok(());
        }
        var made := NewListener(inner.channelCount, listenerInit);
        if made.Err? {
          return Err(made.error);
        }
        inner.listener := Some(made.value);
        return Ok(());
      case _ =>
        return Err(UnsupportedAttribute);
    }

    /** The listener setters (`set_position`, `set_cone`, ...). */
    method SetListener(p: ListenerProperty, v: SpatialValue) returns (r: Result<(), AudioError>)
      requires Valid()
      modifies inner
      ensures (inner.Snapshot(), r) == DeviceSpec.SetListener(old(inner.Snapshot()), p, v)
      ensures Valid()
    {
      if inner.listener.None? {
        return Err(SpatializationNotEnabled);
      }
      var l := inner.listener.value;
      inner.listener := Some(l.(settings := Store(l.settings, p, v)));
      return Ok(());
    }
    /** The listener getters (`get_position`, `get_cone`, ...). */
    method GetListener(p: ListenerProperty) returns (r: Result<SpatialValue, AudioError>)
      ensures r == DeviceSpec.GetListener(inner.Snapshot(), p)
    {
      if inner.listener.None? {
        return Err(SpatializationNotEnabled);
      }
      return Ok(Fetch(inner.listener.value.settings, p));
    }
  }

  /**
   * `AudioChannel::attach`: the channel object is appended to the device's
   * list as it is, with no duplicate check.
   */
  method AttachChannel(channel: Channel.AudioChannel, device: AudioDevice)
    requires device.Valid()
    modifies device.inner
    ensures device.inner.channels == old(device.inner.channels) + [channel.inner]
    ensures device.inner.Snapshot() == old(device.inner.Snapshot()).(channels := DeviceSpec.Attach(old(device.inner.Snapshot()).channels,
                                          Node(channel.inner.refId, channel.inner.markedAsDeleted)))
    ensures device.Valid()
  {
    ghost var before := ChannelNodes(device.inner.channels);
    device.inner.channels := device.inner.channels + [channel.inner];
    assert ChannelNodes(device.inner.channels) == before + [Node(channel.inner.refId, channel.inner.markedAsDeleted)];
  }

  /**
   * The duplicate check of `add_channel` as the source writes it: the
   * incoming channel is locked, then each listed channel is locked in turn
   * to compare identities. Locking a listed channel that is the incoming
   * one again never returns (a `std::sync::Mutex` is not reentrant): the
   * answer is `None`. Otherwise the answer is whether an identity matched.
   */
  function DuplicateCheckAsWritten(cs: seq<Channel.ChannelInner>, c: Channel.ChannelInner): (r: Option<bool>)
    reads cs, c
    ensures r.None? ==> c in cs
    ensures r == Some(true) ==> HasId(ChannelNodes(cs), c.refId)
    ensures c !in cs ==> r == Some(HasId(ChannelNodes(cs), c.refId))
    decreases |cs|
  {
    if cs == [] then Some(false)
    else if cs[0] == c then None
    else if cs[0].refId == c.refId then Some(true)
    else DuplicateCheckAsWritten(cs[1..], c)
  }

  /**
   * Identities come from a counter that hands each channel its own, so a
   * listed channel with the incoming one's identity is that very channel:
   * whenever the refusal `ChannelAlreadyExists` is due, the check as
   * written never returns. The check as modelled (`AudioDeviceInner.AddChannel`)
   * refuses it.
   */
  lemma {:induction false} DuplicateCheckBlocks(cs: seq<Channel.ChannelInner>, c: Channel.ChannelInner)
    requires forall k | 0 <= k < |cs| :: cs[k].refId == c.refId ==> cs[k] == c
    requires HasId(ChannelNodes(cs), c.refId)
    ensures DuplicateCheckAsWritten(cs, c).None?
    ensures Register(ChannelNodes(cs), Node(c.refId, c.markedAsDeleted)).None?
    decreases |cs|
  {
    if cs[0] != c {
      assert cs[0].refId != c.refId;
      var k :| 0 <= k < |cs| && ChannelNodes(cs)[k].refId == c.refId;
      assert ChannelNodes(cs[1..])[k - 1].refId == c.refId;
      DuplicateCheckBlocks(cs[1..], c);
    }
  }

  /**
   * The duplicate check of `add_mixer` as the source writes it, the same
   * pattern as `add_channel`'s: the incoming mixer is locked, then each
   * listed mixer in turn. Reaching the incoming mixer itself locks it a
   * second time and never returns (`None`).
   */
  function MixerDuplicateCheckAsWritten(ms: seq<Mixer.MixerInner>, m: Mixer.MixerInner): (r: Option<bool>)
    reads ms, m
    ensures r.None? ==> m in ms
    ensures r == Some(true) ==> HasId(MixerNodes(ms), m.refId)
    ensures m !in ms ==> r == Some(HasId(MixerNodes(ms), m.refId))
    decreases |ms|
  {
    if ms == [] then Some(false)
    else if ms[0] == m then None
    else if ms[0].refId == m.refId then Some(true)
    else MixerDuplicateCheckAsWritten(ms[1..], m)
  }

  /**
   * A listed mixer with the incoming one's identity is that very mixer
   * (identities come from `MIXER_ID`), so whenever `MixerAlreadyExists` is
   * due the check as written never returns. The check as modelled
   * (`AudioDeviceInner.AddMixer`) refuses it.
   */
  lemma {:induction false} MixerDuplicateCheckBlocks(ms: seq<Mixer.MixerInner>, m: Mixer.MixerInner)
    requires forall k | 0 <= k < |ms| :: ms[k].refId == m.refId ==> ms[k] == m
    requires HasId(MixerNodes(ms), m.refId)
    ensures MixerDuplicateCheckAsWritten(ms, m).None?
    ensures Register(MixerNodes(ms), Node(m.refId, m.markedAsDeleted)).None?
    decreases |ms|
  {
    if ms[0] != m {
      assert ms[0].refId != m.refId;
      var k :| 0 <= k < |ms| && MixerNodes(ms)[k].refId == m.refId;
      assert MixerNodes(ms[1..])[k - 1].refId == m.refId;
      MixerDuplicateCheckBlocks(ms[1..], m);
    }
  }
}
