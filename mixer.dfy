/**
 * A mixer as the source holds it: `AudioMixerInner` (`mixer/inner.rs`),
 * whose cursor, flags, stages, stretcher and child lists `read_pcm_frames`,
 * `seek` and `compute_mixer_length` update in place, and the `AudioMixer`
 * handle (`mixer/mod.rs`). Every method is proved to do what the matching
 * `MixerSpec` function says of the state before it.
 *
 * A node's children are held as values (`ChannelChild`, `MixerChild`): a
 * child is read, sought and recomputed through the `MixerSpec` function for
 * it, and the node stores the child's new state in its list. The entry is
 * the child's state when it was added; the source shares the child's node
 * with its handle instead, so later calls through that handle reach it.
 */
module Mixer {
  import opened Wrappers
  import opened Errors
  import opened Stages
  import Fx
  import Rs = Resampler
  import Cs = ChannelSpec
  import Channel
  import Attributes
  import Utils
  import opened MixerSpec

  class MixerInner {
    /** The identity `MIXER_ID` handed out when the mixer was made; the device registry keys on it. */
    const refId: nat
    const channelCount: nat
    const sampleRate: nat
    var playing: bool
    var markedAsDeleted: bool
    var position: nat
    var maxLength: nat
    var isInfinite: bool
    var resampler: Rs.Resampler
    var panner: Panner
    var volume: Gainer
    var fx: Option<Fx.Fx>
    var channels: seq<ChannelChild>
    var mixers: seq<MixerChild>

    /** The mixer's fields as one value. */
    function Snapshot(): MixerTree
      reads this
    {
      MixerTree(playing, markedAsDeleted, position, maxLength, isInfinite, channelCount, sampleRate,
                resampler, panner, volume, fx, channels, mixers)
    }

    ghost predicate Valid()
      reads this
    {
      MixerSpec.Valid(Snapshot())
    }

    /** The fields `AudioMixerInner::new` sets: stopped, empty, at 0, no stretcher. */
    constructor (refId: nat, channelCount: nat, sampleRate: nat, resampler: Rs.Resampler, panner: Panner, volume: Gainer)
      ensures this.refId == refId
      ensures Snapshot() == MixerTree(false, false, 0, 0, false, channelCount, sampleRate, resampler, panner, volume, None, [], [])
    {
      this.refId := refId;
      this.channelCount := channelCount;
      this.sampleRate := sampleRate;
      this.playing := false;
      this.markedAsDeleted := false;
      this.position := 0;
      this.maxLength := 0;
      this.isInfinite := false;
      this.resampler := resampler;
      this.panner := panner;
      this.volume := volume;
      this.fx := None;
      this.channels := [];
      this.mixers := [];
    }

    /** The channel loop of `compute_mixer_length`: the latest window end, and whether a channel loops. */
    method ChannelsLength() returns (longest: nat, infinite: bool)
      ensures longest == MaxChannelEnd(channels) && (infinite <==> AnyLooping(channels))
    {
      longest, infinite := 0, false;
      var i := 0;
      while i < |channels|
        invariant 0 <= i <= |channels|
        invariant longest == MaxChannelEnd(channels[..i])
        invariant infinite <==> AnyLooping(channels[..i])
      {
        var c := channels[i];
        infinite := infinite || c.state.isLooping;
        longest := Max(longest, ChannelEnd(c));
        assert channels[..i + 1][..i] == channels[..i];
        assert channels[..i + 1][i] == c;
        i := i + 1;
      }
      assert channels[..i] == channels;
    }

    /**
     * The nested-mixer loop of `compute_mixer_length`: each nested mixer
     * recomputes its own length, and the running maximum and flag take in
     * its window end and whether it is infinite.
     */
    method MixersLength(longest0: nat, infinite0: bool) returns (ms: seq<MixerChild>, longest: nat, infinite: bool)
      requires Valid()
      ensures ms == MixerSpec.MixersLength(Snapshot(), |mixers|)
      ensures longest == Max(longest0, MaxMixerEnd(ms)) && (infinite <==> infinite0 || AnyInfinite(ms))
    {
      ghost var t := Snapshot();
      ms, longest, infinite := mixers, longest0, infinite0;
      var j := 0;
      while j < |mixers|
        invariant 0 <= j <= |mixers| == |ms|
        invariant ms == MixerSpec.MixersLength(t, j)
        invariant longest == Max(longest0, MaxMixerEnd(ms[..j]))
        invariant infinite <==> infinite0 || AnyInfinite(ms[..j])
      {
        ghost var before := ms;
        var m := mixers[j];
        ms := ms[j := m.(tree := MixerSpec.ComputeLength(m.tree))];
        assert ms[..j] == before[..j];
        infinite := infinite || ms[j].tree.isInfinite;
        longest := Max(longest, MixerEnd(ms[j]));
        MixersPrefixStep(ms, j);
        j := j + 1;
      }
      assert ms[..j] == ms;
    }

    /** `compute_mixer_length`. */
    method ComputeLength()
      requires Valid()
      modifies this
      ensures Snapshot() == MixerSpec.ComputeLength(old(Snapshot()))
      ensures Valid()
    {
      ghost var t := Snapshot();
      var longest, infinite := ChannelsLength();
      var ms;
      ms, longest, infinite := MixersLength(longest, infinite);
      ComputedFrom(t, ms);
      ComputeLengthFrame(t);
      mixers := ms;
      maxLength := longest;
      isInfinite := infinite;
    }

    /** The channel loop of `recursive_play`. */
    method ChannelsPlaying(v: bool) returns (cs: seq<ChannelChild>)
      ensures cs == MixerSpec.ChannelsPlaying(channels, v)
    {
      cs := channels;
      var i := 0;
      while i < |cs|
        invariant 0 <= i <= |cs| == |channels|
        invariant forall k | 0 <= k < i :: cs[k] == channels[k].(state := channels[k].state.(playing := v))
        invariant forall k | i <= k < |cs| :: cs[k] == channels[k]
      {
        cs := cs[i := cs[i].(state := cs[i].state.(playing := v))];
        i := i + 1;
      }
    }

    /** The nested-mixer loop of `recursive_play`. */
    method MixersPlaying(v: bool) returns (ms: seq<MixerChild>)
      requires Valid()
      ensures ms == MixerSpec.MixersPlaying(Snapshot(), v, |mixers|)
    {
      ghost var t := Snapshot();
      ms := mixers;
      var j := 0;
      while j < |ms|
        invariant 0 <= j <= |ms| == |t.mixers|
        invariant ms == MixerSpec.MixersPlaying(t, v, j)
      {
        ms := ms[j := mixers[j].(tree := MixerSpec.SetPlaying(mixers[j].tree, v))];
        j := j + 1;
      }
    }

    /** `AudioMixer::recursive_play`: the node's flag, each channel's, then each nested mixer, recursively. */
    method SetPlaying(v: bool)
      requires Valid()
      modifies this
      ensures Snapshot() == MixerSpec.SetPlaying(old(Snapshot()), v)
      ensures Valid()
    {
      SetPlayingOutcome(Snapshot(), v);
      var cs := ChannelsPlaying(v);
      var ms := MixersPlaying(v);
      playing := v;
      channels := cs;
      mixers := ms;
    }

    /** The channel loop of `mix_children_into_buffer`, returning at the first error. */
    method MixChannels(tempLen: nat, frameCount: nat) returns (cs: seq<ChannelChild>, r: Result<nat, AudioError>)
      requires Valid()
      ensures (cs, r) == MixerSpec.MixChannels(Snapshot(), frameCount, tempLen, |channels|)
    {
      ghost var t := Snapshot();
      cs := channels;
      var mixed := 0;
      var i := 0;
      while i < |channels|
        invariant 0 <= i <= |channels|
        invariant (cs, Ok(mixed)) == MixerSpec.MixChannels(t, frameCount, tempLen, i)
      {
        var c := channels[i];
        r := Ok(mixed);
        if InWindow(position, ChannelStart(c), ChannelDuration(c)) {
          var (st, got) := Cs.Read(c.state, Clip(position, ChannelStart(c), ChannelDuration(c), frameCount),
                                   MIX_FRAMES * channelCount, tempLen, false, 0);
          cs := cs[i := c.(state := st)];
          r := if got.Err? then Err(got.error) else Ok(mixed + if got.value > 0 then 1 else 0);
        }
        assert (cs, r) == MixerSpec.MixChannels(t, frameCount, tempLen, i + 1);
        if r.Err? {
          MixChannelsStops(t, frameCount, tempLen, i + 1, |channels|);
          return;
        }
        mixed := r.value;
        i := i + 1;
      }
      return cs, Ok(mixed);
    }

    /**
     * The nested-mixer loop of `mix_children_into_buffer`; once a read has
     * failed the remaining rounds do nothing, as the early return does.
     */
    method MixMixers(tempLen: nat, frameCount: nat) returns (ms: seq<MixerChild>, r: Result<nat, AudioError>)
      requires Valid()
      ensures (ms, r) == MixerSpec.MixMixers(Snapshot(), frameCount, tempLen, |mixers|)
    {
      ghost var t := Snapshot();
      ms, r := mixers, Ok(0);
      var j := 0;
      while j < |ms|
        invariant 0 <= j <= |ms| == |t.mixers|
        invariant (ms, r) == MixerSpec.MixMixers(t, frameCount, tempLen, j)
      {
        var m := mixers[j];
        if r.Ok? && InWindow(position, MixerStart(m), MixerDuration(m)) {
          var (tree, got) := MixerSpec.Read(m.tree, Clip(position, MixerStart(m), MixerDuration(m), frameCount),
                                            MIX_FRAMES * channelCount, tempLen);
          ms := ms[j := m.(tree := tree)];
          r := if got.Err? then Err(got.error) else Ok(r.value + if got.value > 0 then 1 else 0);
        }
        assert (ms, r) == MixerSpec.MixMixers(t, frameCount, tempLen, j + 1);
        j := j + 1;
      }
    }

    /** `mix_children_into_buffer`: the size check of clearing `buffer`, then the sources. */
    method MixChildren(tempLen: nat, frameCount: nat) returns (r: Result<nat, AudioError>)
      requires Valid()
      modifies this
      ensures (Snapshot(), r) == MixerSpec.MixChildren(old(Snapshot()), tempLen, frameCount)
      ensures Valid()
    {
      if frameCount * channelCount > MIX_FRAMES * channelCount {
        return Err(Panic);
      }
      r := MixSources(tempLen, frameCount);
    }

    /** The channel loop, the nested-mixer loop, then the cursor. */
    method MixSources(tempLen: nat, frameCount: nat) returns (r: Result<nat, AudioError>)
      requires Valid()
      modifies this
      ensures (Snapshot(), r) == MixerSpec.MixSources(old(Snapshot()), tempLen, frameCount)
      ensures Valid()
    {
      ghost var t := Snapshot();
      var cs, fromChannels := MixChannels(tempLen, frameCount);
      if fromChannels.Err? {
        channels := cs;
        assert Snapshot() == t.(channels := cs);
        return Err(fromChannels.error);
      }
      var ms, fromMixers := MixMixers(tempLen, frameCount);
      channels := cs;
      mixers := ms;
      assert Snapshot() == t.(channels := cs, mixers := ms);
      if fromMixers.Err? {
        return Err(fromMixers.error);
      }
      position := position + frameCount;
      assert Snapshot() == t.(channels := cs, mixers := ms, position := t.position + frameCount);
      return Ok(fromChannels.value + fromMixers.value);
    }

    /** The stretcher's feed in `read_pcm_frames`: mix what it needs while the timeline lasts, and credit it. */
    method FeedStretcher(required: nat, tempLen: nat) returns (r: Result<nat, AudioError>)
      requires Valid() && fx.Some?
      modifies this
      ensures Valid() && fx.Some?
      ensures (Snapshot(), r) == StretchFeed(old(Snapshot()), required, tempLen)
    {
      var target := required;
      if !Fx.TempoBypass(fx.value) {
        target := Fx.GetRequiredInput(fx.value, target).UnwrapOr(0);
      }
      var available := SaturatingSub(maxLength, position);
      if available == 0 {
        return Ok(0);
      }
      r := MixChildren(tempLen, target);
      if r.Err? {
        return r;
      }
      fx := Some(Fx.Credit(fx.value, target >= available, required));
    }

    /** What the stretcher hands out in `read_pcm_frames`: at most its credit, copied into `buffer`. */
    method DrainStretcher(required: nat, tempLen: nat) returns (r: Option<AudioError>)
      requires Valid() && fx.Some?
      modifies this
      ensures (Snapshot(), r) == StretchTake(old(Snapshot()), required, tempLen)
      ensures Valid()
    {
      var f := fx.value;
      var readed := required;
      if f.frameAvailable > 0 {
        var check := Fx.Process(f, MIX_FRAMES * channelCount, StretchTarget(f, required), tempLen, readed);
        if check.Some? {
          return check;
        }
        f := f.(frameAvailable := f.frameAvailable - readed);
        if f.frameAvailable < 0 {
          readed := (readed as int + f.frameAvailable) as nat;
          f := f.(frameAvailable := 0);
        }
        fx := Some(f);
      } else {
        readed := 0;
      }
      if !Utils.CopyFits(tempLen, MIX_FRAMES * channelCount, 0, 0, readed * channelCount) {
        return Some(Panic);
      }
      return None;
    }

    /** `read_pcm_frames`. */
    method ReadPcmFrames(frameCount: nat, outputLen: nat, tempLen: nat) returns (r: Result<nat, AudioError>)
      requires Valid()
      modifies this
      ensures (Snapshot(), r) == MixerSpec.Read(old(Snapshot()), frameCount, outputLen, tempLen)
      ensures Valid()
    {
      if !playing {
        return Ok(0);
      }
      var required := Rs.GetRequiredInput(resampler, frameCount).value;
      var mixed: Result<nat, AudioError>;
      if fx.Some? {
        mixed := FeedStretcher(required, tempLen);
        if mixed.Err? {
          return Err(mixed.error);
        }
        var taken := DrainStretcher(required, tempLen);
        if taken.Some? {
          return Err(taken.value);
        }
      } else {
        mixed := MixChildren(tempLen, required);
        if mixed.Err? {
          return Err(mixed.error);
        }
      }
      var rendered := Render(Snapshot(), mixed.value, required, frameCount, outputLen, tempLen);
      if rendered.Some? {
        return Err(rendered.value);
      }
      if position >= maxLength && !isInfinite {
        playing := false;
      }
      return Ok(frameCount);
    }

    /**
     * The stretcher's priming at the end of `seek`: mix its input latency
     * into `buffer`, hand that to the stretcher, and credit the latency.
     */
    method Prime() returns (r: Result<(), AudioError>)
      requires Valid()
      modifies this
      ensures (Snapshot(), r) == MixerSpec.Prime(old(Snapshot()))
      ensures Valid()
    {
      if fx.None? || fx.value.latency.input == 0 {
        return Ok(());
      }
      ghost var t := Snapshot();
      var latency := fx.value.latency.input;
      var mixed := MixChildren(MIX_FRAMES * channelCount, latency);
      if mixed.Err? {
        return Err(mixed.error);
      }
      assert MixerSpec.MixChildren(t, BufferLen(t), latency).1.Ok?;
      var primed := Fx.PreProcess(fx.value, MIX_FRAMES * channelCount, latency).value;
      fx := Some(primed.(frameAvailable := primed.frameAvailable + latency));
      return Ok(());
    }

    /** The channel loop of `seek`, returning at the first error. */
    method SeekChannels(target: nat) returns (cs: seq<ChannelChild>, r: Result<nat, AudioError>)
      requires Valid()
      ensures (cs, r) == MixerSpec.SeekChannels(Snapshot(), target, |channels|)
    {
      ghost var t := Snapshot();
      cs := channels;
      var sought := 0;
      var i := 0;
      while i < |channels|
        invariant 0 <= i <= |channels|
        invariant (cs, Ok(sought)) == MixerSpec.SeekChannels(t, target, i)
      {
        var c := channels[i];
        r := Ok(sought);
        if ChannelStart(c) <= target {
          var (st, got) := Cs.Seek(c.state, SeekPoint(target, ChannelStart(c), ChannelDuration(c)));
          cs := cs[i := c.(state := st)];
          r := if got.Err? then Err(got.error) else Ok(Max(sought, ChannelStart(c) + got.value));
        }
        assert (cs, r) == MixerSpec.SeekChannels(t, target, i + 1);
        if r.Err? {
          SeekChannelsStops(t, target, i + 1, |channels|);
          return;
        }
        sought := r.value;
        i := i + 1;
      }
      return cs, Ok(sought);
    }

    /** The nested-mixer loop of `seek`; after a failure the remaining rounds do nothing. */
    method SeekMixers(target: nat) returns (ms: seq<MixerChild>, r: Result<nat, AudioError>)
      requires Valid()
      ensures (ms, r) == MixerSpec.SeekMixers(Snapshot(), target, |mixers|, false)
    {
      ghost var t := Snapshot();
      ms, r := mixers, Ok(0);
      var j := 0;
      while j < |ms|
        invariant 0 <= j <= |ms| == |t.mixers|
        invariant (ms, r) == MixerSpec.SeekMixers(t, target, j, false)
      {
        var m := mixers[j];
        if r.Ok? && MixerStart(m) <= target {
          var (tree, got) := SeekTimeline(m.tree, Some(SeekPoint(target, MixerStart(m), MixerDuration(m))), false);
          ms := ms[j := m.(tree := tree)];
          r := if got.Err? then Err(got.error) else Ok(Max(r.value, MixerStart(m) + got.value));
        }
        assert (ms, r) == MixerSpec.SeekMixers(t, target, j + 1, false);
        j := j + 1;
      }
    }

    /**
     * The two loops of `seek`, channels first and then nested mixers, with
     * the cursor moved to the target (the source sets it to 0; see
     * `MixerSpec.SeekAsWritten`); the latest point reached, or the first error.
     */
    method SeekChildrenTo(target: nat) returns (r: Result<nat, AudioError>)
      requires Valid()
      modifies this
      ensures var sought := MixerSpec.SeekChildren(old(Snapshot()), target, false);
              Snapshot() == sought.0.(position := target) && r == sought.1
      ensures Valid()
    {
      ghost var t := Snapshot();
      SeekChannelsFrame(t, target, |channels|);
      var cs, fromChannels := SeekChannels(target);
      if fromChannels.Err? {
        assert MixerSpec.SeekChildren(t, target, false) == (t.(channels := cs), Err(fromChannels.error));
        channels := cs;
        position := target;
        return Err(fromChannels.error);
      }
      var ms, fromMixers := SeekMixers(target);
      channels := cs;
      mixers := ms;
      position := target;
      CursorFree(t.(channels := cs, mixers := ms), target);
      r := if fromMixers.Err? then Err(fromMixers.error) else Ok(Max(fromChannels.value, fromMixers.value));
      assert MixerSpec.SeekChildren(t, target, false) == (t.(channels := cs, mixers := ms), r);
    }

    /**
     * `seek`, with the cursor moved to the target: the channel loop, the
     * nested-mixer loop, then the stretcher's priming.
     */
    method Seek(to: Option<nat>) returns (r: Result<nat, AudioError>)
      requires Valid()
      modifies this
      ensures (Snapshot(), r) == MixerSpec.Seek(old(Snapshot()), to)
      ensures Valid()
    {
      r := SeekChildrenTo(to.UnwrapOr(0));
      if r.Err? {
        return;
      }
      var primed := Prime();
      if primed.Err? {
        return Err(primed.error);
      }
    }

    /** `AudioMixerInner::add_channel`: push the entry, then recompute the length. */
    method AddChannel(child: ChannelChild)
      requires Valid() && child.state.Valid()
      modifies this
      ensures Snapshot() == MixerSpec.AddChannel(old(Snapshot()), child)
      ensures Valid()
    {
      channels := channels + [child];
      ComputeLength();
    }

    /** `AudioMixerInner::add_mixer`: push the entry, then recompute the length. */
    method AddMixer(child: MixerChild)
      requires Valid() && MixerSpec.Valid(child.tree)
      modifies this
      ensures Snapshot() == MixerSpec.AddMixer(old(Snapshot()), child)
      ensures Valid()
    {
      mixers := mixers + [child];
      ComputeLength();
    }
  }

  /**
   * `AudioMixer::new` (`AudioMixerInner::new`): the resampler, then the
   * panner (miniaudio answering `pannerInit`) and the gainer.
   */
  method NewMixerInner(refId: nat, channels: nat, sampleRate: nat, pannerInit: int) returns (r: Result<MixerInner, AudioError>)
    ensures r.Ok? <==> Create(channels, sampleRate, pannerInit).Ok?
    ensures r.Ok? ==> fresh(r.value) && r.value.refId == refId && r.value.Valid() && Create(channels, sampleRate, pannerInit) == Ok(r.value.Snapshot())
    ensures r.Err? ==> Create(channels, sampleRate, pannerInit) == Err(r.error)
  {
    var resampler := Rs.New(channels, sampleRate);
    if resampler.Err? {
      return Err(resampler.error);
    }
    if pannerInit != 0 {
      return Err(StageFailed(pannerInit));
    }
    var inner := new MixerInner(refId, channels, sampleRate, resampler.value, Panner(channels, 0.0), Gainer(channels, 1.0));
    return Ok(inner);
  }

  /** The `AudioMixer` handle: the shared inner mixer. */
  class AudioMixer {
    const inner: MixerInner

    ghost predicate Valid()
      reads this, inner
    {
      inner.Valid()
    }

    constructor (inner: MixerInner)
      requires inner.Valid()
      ensures Valid() && this.inner == inner
    {
      this.inner := inner;
    }

    /** `play`: the whole tree plays; a mixer at the start is sought to 0 to prime its stretcher. */
    method Play() returns (r: Result<(), AudioError>)
      requires Valid()
      modifies inner
      ensures (inner.Snapshot(), r) == MixerSpec.Play(old(inner.Snapshot()))
      ensures Valid()
    {
      inner.SetPlaying(true);
      if inner.position == 0 {
        var sought := inner.Seek(Some(0));
        if sought.Err? {
          return Err(sought.error);
        }
      }
      return Ok(());
    }

    /** `stop`. */
    method Stop()
      requires Valid()
      modifies inner
      ensures inner.Snapshot() == MixerSpec.Stop(old(inner.Snapshot()))
      ensures Valid()
    {
      inner.SetPlaying(false);
    }

    /** `seek`. */
    method Seek(position: Option<Utils.PcmIndex>) returns (r: Result<nat, AudioError>)
      requires Valid()
      modifies inner
      ensures (inner.Snapshot(), r) == SeekHandle(old(inner.Snapshot()), position)
      ensures Valid()
    {
      r := inner.Seek(Utils.IntoOptionU64(position));
    }

    /**
     * `add_channel_ex`: the channel, placed by `delay` and `duration`. The
     * entry holds the channel's state as it is when added.
     */
    method AddChannelEx(channel: Channel.AudioChannel, delay: Option<Utils.PcmIndex>, duration: Option<Utils.PcmIndex>)
      requires Valid() && channel.Valid()
      modifies inner
      ensures inner.Snapshot() == MixerSpec.AddChannel(old(inner.Snapshot()),
                ChannelChild(channel.inner.Snapshot(), Utils.IntoOptionU64(delay), Utils.IntoOptionU64(duration)))
      ensures Valid()
    {
      inner.AddChannel(ChannelChild(channel.inner.Snapshot(), Utils.IntoOptionU64(delay), Utils.IntoOptionU64(duration)));
    }

    /** `add_channel`: placed at the start, for its whole length. */
    method AddChannel(channel: Channel.AudioChannel)
      requires Valid() && channel.Valid()
      modifies inner
      ensures inner.Snapshot() == MixerSpec.AddChannel(old(inner.Snapshot()), ChannelChild(channel.inner.Snapshot(), None, None))
      ensures Valid()
    {
      AddChannelEx(channel, None, None);
    }

    /** `remove_channel`. */
    method RemoveChannel(index: nat) returns (r: Result<(), AudioError>)
      requires Valid()
      modifies inner
      ensures (inner.Snapshot(), r) == MixerSpec.RemoveChannel(old(inner.Snapshot()), index)
      ensures Valid()
    {
      if index < |inner.channels| {
        inner.channels := inner.channels[..index] + inner.channels[index + 1..];
        return Ok(());
      }
      return Err(IndexOutOfBounds(index));
    }

    /** `add_mixer_ex`: another mixer, placed by `delay` and `duration`, as it is when added. */
    method AddMixerEx(mixer: AudioMixer, delay: Option<Utils.PcmIndex>, duration: Option<Utils.PcmIndex>)
      requires Valid() && mixer.Valid()
      modifies inner
      ensures inner.Snapshot() == MixerSpec.AddMixer(old(inner.Snapshot()),
                MixerChild(old(mixer.inner.Snapshot()), Utils.IntoOptionU64(delay), Utils.IntoOptionU64(duration)))
      ensures Valid()
    {
      inner.AddMixer(MixerChild(mixer.inner.Snapshot(), Utils.IntoOptionU64(delay), Utils.IntoOptionU64(duration)));
    }

    /** `add_mixer`. */
    method AddMixer(mixer: AudioMixer)
      requires Valid() && mixer.Valid()
      modifies inner
      ensures inner.Snapshot() == MixerSpec.AddMixer(old(inner.Snapshot()), MixerChild(old(mixer.inner.Snapshot()), None, None))
      ensures Valid()
    {
      AddMixerEx(mixer, None, None);
    }

    /** `remove_mixer`. */
    method RemoveMixer(index: nat) returns (r: Result<(), AudioError>)
      requires Valid()
      modifies inner
      ensures (inner.Snapshot(), r) == MixerSpec.RemoveMixer(old(inner.Snapshot()), index)
      ensures Valid()
    {
      if index < |inner.mixers| {
        inner.mixers := inner.mixers[..index] + inner.mixers[index + 1..];
        return Ok(());
      }
      return Err(IndexOutOfBounds(index));
    }

    function GetLength(): (n: nat)
      reads this, inner
      ensures n == MixerSpec.GetLength(inner.Snapshot())
    {
      if inner.isInfinite then Utils.U64_MAX else inner.maxLength
    }

    function IsPlaying(): (b: bool)
      reads this, inner
      ensures b == inner.playing
    {
      inner.playing
    }

    /** `read_pcm_frames` of the handle. */
    method ReadPcmFrames(frameCount: nat, outputLen: nat, tempLen: nat) returns (r: Result<nat, AudioError>)
      requires Valid()
      modifies inner
      ensures (inner.Snapshot(), r) == ReadHandle(old(inner.Snapshot()), frameCount, outputLen, tempLen)
      ensures Valid()
    {
      if frameCount > MIX_FRAMES {
        return Err(PCMLengthTooLarge);
      }
      var got := inner.ReadPcmFrames(frameCount, outputLen, tempLen);
      r := AsReadError(got);
    }

    /** `read_simple`: the number of samples returned. */
    method ReadSimple(frameCount: nat) returns (r: Result<nat, AudioError>)
      requires Valid()
      modifies inner
      ensures (inner.Snapshot(), r) == MixerSpec.ReadSimple(old(inner.Snapshot()), frameCount)
      ensures Valid()
    {
      var samples := frameCount * inner.channelCount;
      var got := inner.ReadPcmFrames(frameCount, samples, samples);
      if got.Err? {
        return AsReadError(got);
      }
      if got.value == 0 {
        return Ok(0);
      }
      return Ok(samples);
    }

    function GetAttributeF32(a: Attributes.AudioAttribute): (r: Result<real, AudioError>)
      reads this, inner
      ensures r == MixerSpec.GetAttributeF32(inner.Snapshot(), a)
    {
      MixerSpec.GetAttributeF32(inner.Snapshot(), a)
    }

    /** `set_attribute_f32`. */
    method SetAttributeF32(a: Attributes.AudioAttribute, v: real) returns (r: Result<(), AudioError>)
      requires Valid()
      modifies inner
      ensures (inner.Snapshot(), r) == MixerSpec.SetAttributeF32(old(inner.Snapshot()), a, v)
      ensures Valid()
    {
      match a {
      case SampleRate =>
        inner.resampler := Rs.SetTargetSampleRate(inner.resampler, Utils.SaturatingCastU32(v));
      case Volume =>
        inner.volume := SetVolume(inner.volume, v);
      case Pan =>
        inner.panner := SetPan(inner.panner, v);
      case FXPitch =>
        if inner.fx.None? {
          return Err(FxNotEnabled);
        }
        inner.fx := Some(Fx.SetOctave(inner.fx.value, v));
      case FXTempo =>
        if inner.fx.None? {
          return Err(FxNotEnabled);
        }
        inner.fx := Some(Fx.SetTempo(inner.fx.value, v));
      case _ =>
        return Err(UnsupportedAttribute);
      }
      return Ok(());
    }

    function GetAttributeBool(a: Attributes.AudioAttribute): (r: Result<bool, AudioError>)
      reads this, inner
      ensures r == MixerSpec.GetAttributeBool(inner.Snapshot(), a)
    {
      MixerSpec.GetAttributeBool(inner.Snapshot(), a)
    }

    /**
     * `set_attribute_bool`: a fresh stretcher (the library reporting
     * `latency`) or none, then a reseek to the cursor whose outcome is
     * dropped; a panic in it still escapes.
     */
    method SetAttributeBool(a: Attributes.AudioAttribute, v: bool, latency: Fx.StretchLatency) returns (r: Result<(), AudioError>)
      requires Valid()
      modifies inner
      ensures (inner.Snapshot(), r) == MixerSpec.SetAttributeBool(old(inner.Snapshot()), a, v, latency)
      ensures Valid()
    {
      match a
      case AudioFX =>
        if v {
          inner.fx := Some(Fx.New(inner.channelCount, inner.resampler.sampleRate, latency).value);
        } else {
          inner.fx := None;
        }
        var sought := inner.Seek(Some(inner.position));
        if sought == Err(Panic) {
          return Err(Panic);
        }
        return Ok(());
      case AudioSpatialization =>
        return Ok(());
      case _ =>
        return Err(UnsupportedAttribute);
    }

    /** `drop`. */
    method Drop()
      requires Valid()
      modifies inner
      ensures inner.Snapshot() == MixerSpec.Drop(old(inner.Snapshot()))
    {
      inner.playing := false;
      inner.markedAsDeleted := true;
    }
  }

  /** `AudioMixer::new`. */
  method NewMixer(refId: nat, channels: nat, sampleRate: nat, pannerInit: int) returns (r: Result<AudioMixer, AudioError>)
    ensures r.Ok? <==> Create(channels, sampleRate, pannerInit).Ok?
    ensures r.Ok? ==> fresh(r.value) && fresh(r.value.inner) && r.value.Valid() && r.value.inner.refId == refId
                      && Create(channels, sampleRate, pannerInit) == Ok(r.value.inner.Snapshot())
  {
    var inner := NewMixerInner(refId, channels, sampleRate, pannerInit);
    if inner.Err? {
      return Err(inner.error);
    }
    var mixer := new AudioMixer(inner.value);
    return Ok(mixer);
  }
}
