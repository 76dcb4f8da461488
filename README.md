# estaudio-rs core, modelled in Dafny

This project models the playback core of estaudio-rs, a Rust audio engine built on miniaudio. It covers these parts:

- **Device.** `AudioDevice` is a registry of channels and mixers. Its render step reads every listed channel and mixer in turn for the same frame count, mixes the frames they give, renders the output and then sweeps out the nodes marked as deleted. The duplicate checks in `add_channel` and `add_mixer` are part of the model.
- **Mixer.** `AudioMixer` is a tree of channels and nested mixers with a shared cursor. The model covers mixing, clipping, seeking and length recomputation.
- **Channel.**
  - `AudioChannel` is a reader over a decoder or an in-memory buffer. Each read runs through the optional time stretcher, the resampler, the panner, the gainer and the spatializer, with looping and end-of-stream stopping.
  - The model includes the channel's attribute getters and setters.
- **Sample.** `AudioSample` is a decoded buffer that is played by making, attaching and starting channels.
- **Builders.** The device, mixer, channel and sample builders, with their defaults and validation.
- **Utilities.** The reader and the effect stages, such as the resampler's required-input arithmetic and the stretcher's latency bookkeeping. The utilities also include the slice-copy and float-cast primitives in `utils.rs`.

How the model is laid out:

- **Classes and specification functions.** Objects whose fields the source updates in place are classes: `Reader`, `ChannelInner`, `AudioChannel`, `MixerInner`, `AudioMixer`, `AudioDeviceInner`, `AudioDevice` and `AudioSample`. Each state-changing method is proved against a pure function of the object's value (`ChannelSpec`, `MixerSpec`, `DeviceSpec`, `SampleSpec`). The properties the source promises are lemmas about those functions.
- **Errors.** The source's nested error enums are flattened into one `AudioError` datatype. Its `Panic` variant stands for a Rust panic, which unwinds through every `unwrap_or` and `map_err` in its way.
- **Numbers.** `u64` and `usize` quantities are `nat`. Float casts are written out as the saturating casts Rust performs. Audio samples are not modelled in the render graph: buffers are represented by their lengths, and only the array primitives in `Utils` work on sample values (`real`).

## Model

| member | source | states |
|---|---|---|
| Attributes.From | src/device/mod.rs:41-50 | exactly the five names "SampleRate", "Volume", "Pan", "FXPitch" and "FXTempo" parse to an attribute (both directions); every other string, "AudioFX" included, is `Unknown`; a parsed attribute prints back to the same name |
| Attributes.ToString | src/device/mod.rs:52-63 | every attribute has a non-empty name |
| Attributes.FromToString | src/device/mod.rs:41-63 | parsing a printed name gives the attribute back for the five parsable attributes and `Unknown` for AudioFX, AudioSpatialization and Unknown |
| Attributes.ToStringInjective | src/device/mod.rs:52-63 | distinct attributes print distinct names |
| AudioReader.AvailableFrames | src/device/audioreader.rs:329-331 | the frames left plus the cursor make up the stream length |
| AudioReader.ReadStep | src/device/audioreader.rs:262-307 | size 0 is `InvalidPCMLength`; a buffer shorter than `size * channels` is `BufferTooSmall(expected, actual)`; a decoder with nothing left is an error; every error leaves the cursor; a success returns `min(size, available)` and moves the cursor by exactly that much |
| AudioReader.SeekStep | src/device/audioreader.rs:309-327 | a seek succeeds exactly when the target lies inside the stream, and then the cursor is the target; a failure is `SeekError` and leaves the cursor |
| AudioReader.ReadAll | src/device/audioreader.rs:262-307 | a series of reads keeps the cursor inside the stream and never changes its length |
| AudioReader.ReadsStayInside | src/device/audioreader.rs:275-306 | after any series of reads the cursor has moved by exactly the total frames delivered and is still inside the stream |
| AudioReader.Reader.constructor | src/device/audioreader.rs:137-144 | every constructed reader starts at frame 0 with the configuration it was given |
| AudioReader.Reader.AvailableFrames | src/device/audioreader.rs:329-331 | the frames left plus the cursor make up the stream length |
| AudioReader.Reader.Read | src/device/audioreader.rs:262-307 | the new cursor and the result are those of `ReadStep` on the old state, and the cursor stays inside the stream |
| AudioReader.Reader.Seek | src/device/audioreader.rs:309-327 | the new cursor and the result are those of `SeekStep`; a failed seek leaves the cursor |
| AudioReader.DecoderLoad | src/device/audioreader.rs:65-145 | a decoder-backed reader is stereo at 44100 Hz; once miniaudio succeeds, the load succeeds exactly when the stream is non-empty, and an empty stream is `InvalidPCMLength` |
| AudioReader.ReadOggData | src/device/audioreader.rs:420-455 | data without the capture pattern is `InvalidFileFormat`; an Opus page goes to the Opus decoder, a Vorbis page to the Vorbis decoder, an unknown codec is `UnknownFormat` |
| AudioReader.LoadFileBuffer | src/device/audioreader.rs:147-213 | Ogg data yields a buffer-backed reader; anything else takes the decoder path; a decoder-backed reader is never empty |
| AudioReader.Load | src/device/audioreader.rs:65-145 | a missing file is `FileNotFound`; a path with an interior NUL is `InvalidFileFormat`; other non-Ogg files take the decoder path; a decoder-backed reader is never empty |
| AudioReader.LoadAudioBuffer | src/device/audioreader.rs:215-260 | the load succeeds exactly when miniaudio accepts the buffer, and then describes the caller's buffer unchanged; a refusal is `InitializationError` with miniaudio's code |
| AudioReader.GetOggType | src/device/audioreader.rs:546-576 | fewer than 4 bytes is a read error; a bad capture pattern is `InvalidFileFormat`; too few bytes for the codec field is a read error; the result is Opus exactly when bytes 0x1C..0x24 are "OpusHead" and Vorbis exactly when they are not but bytes 0x1C..0x23 are 0x01 "vorbis"; every success is `Some` |
| AudioReader.PageBytes | src/device/audioreader.rs:546-576 | a serialized page is the 27-byte header, the segment table and the body |
| AudioReader.FirstPacketAtCodecOffset | src/device/audioreader.rs:555-565 | with a one-entry segment table, offset 0x1C of a page is the start of its body (section 6 of RFC 3533) |
| AudioReader.DetectsOpusPage | src/device/audioreader.rs:546-576 | a first page whose one packet is an Opus identification header (section 5.1 of RFC 7845) is classified Opus |
| AudioReader.DetectsVorbisPage | src/device/audioreader.rs:546-576 | a first page whose one packet is a Vorbis identification header (Vorbis I, section 4.2.1) is classified Vorbis |
| AudioReader.TwoSegmentsMissOpus | src/device/audioreader.rs:555-575 | with a two-entry segment table the fixed offset lands in the body's second byte, so an Opus stream is reported as an unknown codec |
| Utils.ArrayFastCopy | src/utils.rs:7-91 | panics exactly when either window runs past its slice, and then leaves `dst`; otherwise `dst` becomes `Copied` of the old contents |
| Utils.CopiedAt | src/utils.rs:88-90 | after a copy, each cell in the destination window holds the matching source sample and every other cell keeps its value |
| Utils.CopiedIdempotent | src/utils.rs:7-91 | copying the same window twice is copying it once |
| Utils.ArrayFastSetValue | src/utils.rs:93-140 | every sample becomes `value` |
| Utils.ArrayFastAdd | src/utils.rs:142-215 | panics exactly when `length` exceeds either slice, and then leaves `dst`; otherwise `dst` becomes `Added`: the first `length` samples of `src` are added in, the rest is kept; `src` is a different array and is not changed |
| Utils.Added | src/utils.rs:200-203 | adding keeps the buffer's length |
| Utils.AddedCommutes | src/utils.rs:142-215 | mixing two sources into a buffer gives the same samples in either order |
| Utils.AddedToSilence | src/utils.rs:142-215 | adding into a silent buffer is copying |
| Utils.NewPcmIndex | src/utils.rs:323-329 | an index exists exactly when it is positive, and holds that value |
| Utils.PcmIndexFromSecs | src/utils.rs:331-334 | an index exists exactly when the seconds name at least one frame, the product taken on reals (see Left out) |
| Utils.PcmIndexFromMillis | src/utils.rs:336-339 | an index exists exactly when the milliseconds name at least one frame, the arithmetic taken on reals (see Left out) |
| Utils.IntoOptionU64 | src/utils.rs:354-361 | `None` stays `None` and `Some(p)` becomes `Some(p.index)` |
| Utils.IndexNeverZero | src/utils.rs:323-361 | an optional index never stands for frame 0: index 0 becomes `None` |
| Utils.MillisAgreeWithSecs | src/utils.rs:331-339 | on exact (real) arithmetic, milliseconds and the same time in seconds name the same frame; the `f32` source can differ by one frame (see Left out) |
| Fx.New | src/effects/fx.rs:16-35 | succeeds exactly for 1 to 8 channels and 8000 to 192000 Hz, otherwise `InvalidConfiguration`; a new stretcher has no credit, octave 1 and tempo 1, so it is in bypass |
| Fx.GetRequiredInput | src/effects/fx.rs:45-57 | 0 frames is exactly the `InvalidFrameCount` case; in bypass the count passes through; otherwise it is the count times the tempo, truncated |
| Fx.GetExpectedOutput | src/effects/fx.rs:59-74 | 0 frames is `InvalidFrameCount`; in bypass the count passes through; otherwise the answer is the count divided by the tempo, truncated: `InvalidFrameCount` exactly when that truncates to 0 (a quotient below 1, or a negative tempo), and the largest u64 when the quotient reaches it or the tempo is 0 |
| Fx.RequiredThenExpectedWithin | src/effects/fx.rs:45-74 | the output promised for the input that `n` output frames require is never more than `n` |
| Fx.SetTempo | src/effects/fx.rs:87-94 | the tempo is stored unchecked and the credit is kept; the stretcher is in bypass exactly when the tempo is 1 |
| Fx.SetOctave | src/effects/fx.rs:76-85 | only the octave changes |
| Fx.PreProcess | src/effects/fx.rs:96-110 | fails exactly when the input is shorter than `frame_count * channels`, with `InvalidInputSize(expected, actual)`; a success leaves a credit of exactly `frame_count` |
| Fx.Process | src/effects/fx.rs:112-140 | passes exactly when both buffers are large enough; the input is checked first |
| Fx.Credit | src/channel/inner.rs:76-88 | a source read only adds credit (the output latency once the source ran out, else the request) and changes nothing else; the credit stays non-negative |
| Fx.Drain | src/channel/inner.rs:90-102 | the stretcher hands out `min(request, credit)`, what it hands out plus what it keeps is the old credit, and the credit never goes negative |
| Fx.SteadyStateDeliversRequest | src/channel/inner.rs:76-102 | while the source lasts, a read is given every frame it asked for and the credit is back where it was |
| Fx.TailTotalIsCredit | src/channel/inner.rs:90-102 | enough reads without new credit hand out exactly the credit |
| Fx.EndFlushesLatency | src/channel/inner.rs:83-102 | after the read that reaches the end of the source, the following reads hand out exactly the remaining credit plus the output latency |
| Resampler.New | src/effects/resampler.rs:57-93 | succeeds exactly for 1 to 8 channels and 8000 to 192000 Hz; channels are checked first (`InvalidChannels`), then the rate (`InvalidSampleRate`); a new resampler targets its own rate, so it is in bypass |
| Resampler.SetTargetSampleRate | src/effects/resampler.rs:109-116 | only the target changes, and the resampler is in bypass exactly when the target is the native rate |
| Resampler.GetRequiredInput | src/effects/resampler.rs:118-139 | the count passes through in bypass; otherwise the input consumed is at most the output scaled by the rate ratio |
| Resampler.GetExpectedOutput | src/effects/resampler.rs:141-162 | the count passes through in bypass; otherwise the output is at most the input scaled by the rate ratio |
| Resampler.RequiredThenExpectedWithin | src/effects/resampler.rs:118-162 | converting `n` output frames to input and back never promises more than `n` |
| Resampler.ResetTargetRestoresBypass | src/effects/resampler.rs:95-139 | setting the target back to the native rate restores bypass and identity frame counts |
| Resampler.GetInputLatency | src/effects/resampler.rs:164-172 | 0 in bypass, otherwise the library's latency |
| Resampler.GetOutputLatency | src/effects/resampler.rs:174-182 | 0 in bypass, otherwise the library's latency |
| Resampler.Process | src/effects/resampler.rs:184-232 | in bypass it returns the requested output count with no checks; otherwise it succeeds exactly when input and then output are large enough, and a short input is `BufferSizeMismatch(actual, expected)` |
| Resampler.PreProcess | src/effects/resampler.rs:234-264 | in bypass the frame count passes through |
| Stages.NewGainer | src/effects/volume.rs:45-74 | a gainer exists exactly for 1 to 8 channels, otherwise `InvalidChannels`; it starts at volume 1 |
| Stages.SetVolume | src/effects/volume.rs:76-85 | the stored volume is clamped to [0, 1] and is the requested one when it is already inside |
| Stages.SetPan | src/effects/panner.rs:33-42 | the stored pan is clamped to [-1, 1] and is the requested one when it is already inside |
| Stages.StageProcess | src/effects/volume.rs:87-104 | the stage passes exactly when both buffers hold `frame_count * channels` samples, else `BufferSizeMismatch` |
| ChannelSpec.Create | src/channel/mod.rs:110-154 | creation succeeds exactly when the panner, the gainer (1 to 8 channels), the resampler (also 8000 to 192000 Hz) and the spatializer all initialise, checked in that order; a new channel is stopped, at position 0, not looping, without a stretcher, with a spatializer, a bypassed resampler, volume 1 and pan 0 |
| ChannelSpec.FxFeed | src/channel/inner.rs:66-88 | with nothing left in the source, nothing changes; otherwise the reader moves by exactly the frames read and the credit grows by the output latency when the read reached the end of the source, else by the request |
| ChannelSpec.FxHandOut | src/channel/inner.rs:90-112 | a success hands out `min(request, credit)` and takes exactly that from the credit; only the credit changes |
| ChannelSpec.FxSource | src/channel/inner.rs:66-112 | the stretcher branch keeps the setup, the play flag and the position, and never delivers more than the request |
| ChannelSpec.DirectSource | src/channel/inner.rs:113-118 | without a stretcher, a success delivers `min(request, frames left)` and moves only the reader, by exactly that |
| ChannelSpec.PostStages | src/channel/inner.rs:120-143 | after the stages the count is the source's in bypass and exactly `frame_count` when resampling; a success means both buffers held that many frames |
| ChannelSpec.Source | src/channel/inner.rs:62-118 | the source stage never delivers more than the request; without a stretcher it delivers `min(request, frames left)` |
| ChannelSpec.Advance | src/channel/inner.rs:145-155 | the public position grows by exactly the frames rendered; a short read rewinds a looping channel's reader to 0 and stops any other channel; a full read changes nothing else |
| ChannelSpec.SpatialStage | src/channel/inner.rs:162-176 | the stage runs only with both a spatializer and a listener, and then passes exactly when miniaudio succeeds and the frames fit the buffer |
| ChannelSpec.Read | src/channel/inner.rs:51-179 | a stopped channel returns 0 and changes nothing; a success returns at most the request, fits the output buffer and moves the position by exactly the count; a full read keeps playing; a short read rewinds a looping channel and stops any other; without a stretcher or resampling it returns `min(request, frames left)`; when resampling it returns exactly the request |
| ChannelSpec.SeekOutcome | src/channel/inner.rs:181-210 | a target past the stream is `SeekOutOfBounds` and changes nothing; otherwise the position and the reader go to the target; the seek succeeds exactly when priming the stretcher fits, returns the target, and leaves a credit of the input latency |
| ChannelSpec.PrimeSize | src/channel/inner.rs:198-202 | priming reads `latency` frames into a buffer of `2 * latency` samples, which fits exactly when the stream has at most two channels |
| ChannelSpec.Play | src/channel/mod.rs:241-251 | playing sets the flag; away from position 0 nothing else changes; at position 0 it reseeks to 0, which succeeds exactly when the stream is non-empty and priming fits |
| ChannelSpec.Stop | src/channel/mod.rs:253-258 | stopping clears the play flag and changes nothing else |
| ChannelSpec.StopThenPlayResumes | src/channel/mod.rs:241-258 | stopping and playing again away from 0 resumes where it was, without a rewind |
| ChannelSpec.SeekHandle | src/channel/mod.rs:270-279 | the handle refuses a target at or past the stream length with `SeekOutOfBounds` before touching the channel; otherwise it succeeds exactly when priming fits, and the position is then the target |
| ChannelSpec.MsToFrames | src/channel/mod.rs:281-284 | milliseconds become `floor(ms * rate / 1000)` frames |
| ChannelSpec.Interleaved | src/channel/mod.rs:330-345 | a failed read passes its error on; a read of `n` frames gives exactly `n * channels` samples (none for 0 frames) |
| ChannelSpec.ReadSimple | src/channel/mod.rs:319-346 | more than 4096 frames is `PCMLengthTooLarge` with no change; otherwise it is a read into two 8192-sample buffers whose frames come back interleaved, never more than 8192 samples |
| ChannelSpec.GetAttributeF32 | src/channel/mod.rs:350-400 | FXTempo and FXPitch fail exactly without a stretcher, with `NotEnabled`; the three toggles and Unknown are refused; SampleRate, Volume and Pan always answer |
| ChannelSpec.SetAttributeF32 | src/channel/mod.rs:402-456 | a refused attribute changes nothing; FXTempo and FXPitch fail exactly without a stretcher and change only it; the toggles and Unknown are refused; the play flag, position and reader are never touched |
| ChannelSpec.SetThenGet | src/channel/mod.rs:350-456 | a stored volume and pan read back clamped; a stored tempo and pitch read back as stored; a whole-number sample rate reads back |
| ChannelSpec.GetAttributeBool | src/channel/mod.rs:458-472 | AudioFX reports whether the stretcher exists, AudioSpatialization whether the spatializer exists; everything else is refused |
| ChannelSpec.SetFxEnabled | src/channel/mod.rs:480-502 | off removes the stretcher; on keeps an existing one and creates one otherwise; either way the channel then reseeks to its position, and the call succeeds exactly when that seek does |
| ChannelSpec.SetFxEnabledFrame | src/channel/mod.rs:480-502 | turning the stretcher on or off touches only the stretcher, the position and the reader |
| ChannelSpec.SetSpatializationEnabled | src/channel/mod.rs:503-521 | off removes the spatializer; on keeps an existing one and otherwise creates one with as many outputs as inputs, succeeding exactly when miniaudio does; a failure changes nothing; nothing else changes |
| ChannelSpec.SetSpatializationEnabledAsWritten | src/channel/mod.rs:503-521 | as the source writes it: the re-created spatializer gets the sample rate as its output channel count |
| ChannelSpec.ReenabledSpatializerHasWrongOutputs | src/channel/mod.rs:503-521 | the spatializer the source re-creates never has the channel count creation gives it, so the channel is no longer well-formed; the corrected version has the right count |
| ChannelSpec.SpatializationToggle | src/channel/mod.rs:503-521 | turning the spatializer off and on again gives a fresh one of the shape creation gives |
| ChannelSpec.SetAttributeBool | src/channel/mod.rs:474-530 | only AudioFX and AudioSpatialization are accepted, and they dispatch to the two switches; anything else is refused with no change; turning spatialization back on follows the corrected `SetSpatializationEnabled` (see Findings) |
| ChannelSpec.SetSpatial | src/channel/mod.rs:533-793 | every spatial setter fails with `NotInitialized` exactly when there is no spatializer, and then changes nothing; otherwise the value is stored |
| ChannelSpec.GetSpatial | src/channel/mod.rs:544-793 | every spatial getter fails with `NotInitialized` exactly when there is no spatializer |
| ChannelSpec.RelativePose | src/channel/mod.rs:795-811 | the relative pose needs a spatializer (`NotInitialized`) and then the device's listener (`ListenerNotInitialized`) |
| ChannelSpec.Drop | src/channel/mod.rs:814-820 | dropping the handle marks the channel deleted and stops it, and changes nothing else |
| ChannelSpec.StretchSteadyState | src/channel/inner.rs:66-112 | while the source lasts and the stretcher has nothing banked at tempo 1, a read returns every frame asked for and the credit stays 0 |
| ChannelSpec.StoppedRunIsSilent | src/channel/inner.rs:58-60 | however often a stopped channel is read, it delivers nothing and stays as it is |
| ChannelSpec.PlainReadSucceeds | src/channel/inner.rs:113-155 | one read of a playing, non-looping channel over an audio buffer, without stretcher or resampling, succeeds with `min(request, frames left)`, moves reader and position by that, and stops the channel exactly when the read was short |
| ChannelSpec.PlainReadInto | src/channel/inner.rs:113-155 | a plain read into buffers that hold the request, as the device gives it, advances the reader and the cursor by `min(request, frames left)` and stops exactly when fewer were left |
| ChannelSpec.PlainRunDrains | src/channel/inner.rs:51-179 | a run of such reads delivers every remaining frame up to `count * frame_count` and ends where `PlainEnd` says |
| ChannelSpec.PlaybackDrainsBuffer | src/channel/inner.rs:51-179 | `count` reads by the device's callback deliver every remaining frame up to `count * frame_count`, and the channel has stopped once the reads asked for more than remained |
| ChannelSpec.DecoderAtEndFails | src/device/audioreader.rs:289-303 | a playing decoder-backed channel whose stream ended exactly on a read boundary gets `InvalidOperation` on its next read, with no change, instead of stopping |
| Channel.ChannelInner.constructor | src/channel/mod.rs:135-151 | a new channel holds the given reader and stages, stopped, at 0, not looping, without a stretcher |
| Channel.ChannelInner.FeedStretcher | src/channel/inner.rs:66-88 | the new state and result are those of `FxFeed` |
| Channel.ChannelInner.DrainStretcher | src/channel/inner.rs:90-112 | the new state and result are those of `FxHandOut` |
| Channel.ChannelInner.ReadSource | src/channel/inner.rs:62-118 | the new state and result are those of `Source` |
| Channel.ChannelInner.RunStages | src/channel/inner.rs:120-143 | the result is that of `PostStages`, and no field changes |
| Channel.ChannelInner.AdvanceBy | src/channel/inner.rs:145-155 | the new state is that of `Advance` |
| Channel.ChannelInner.ReadPcmFrames | src/channel/inner.rs:51-179 | the new state and result are those of `Read` on the old state |
| Channel.ChannelInner.Seek | src/channel/inner.rs:181-210 | the new state and result are those of `Seek`, whose outcome `SeekOutcome` states |
| Channel.ChannelInner.IsPlaying | src/channel/inner.rs:212-214 | reports the play flag |
| Channel.NewChannelInner | src/channel/mod.rs:110-154 | a fresh channel whose state is the one `Create` describes, or `Create`'s error |
| Channel.AudioChannel.Play | src/channel/mod.rs:241-251 | the channel changes as `Play` says |
| Channel.AudioChannel.Stop | src/channel/mod.rs:253-258 | the channel changes as `Stop` says |
| Channel.AudioChannel.Seek | src/channel/mod.rs:270-279 | the channel changes as `SeekHandle` says, against the length the handle holds |
| Channel.AudioChannel.SeekMs | src/channel/mod.rs:281-284 | a seek to `MsToFrames(ms, rate)` |
| Channel.AudioChannel.SetLooping | src/channel/mod.rs:294-296 | only the looping flag changes |
| Channel.AudioChannel.ReadPcmFrames | src/channel/mod.rs:309-317 | a read without a listener, as `Read` says |
| Channel.AudioChannel.ReadSimple | src/channel/mod.rs:319-346 | the channel and the sample count change as `ReadSimple` says |
| Channel.AudioChannel.GetAttributeF32 | src/channel/mod.rs:350-400 | answers as `GetAttributeF32` on the channel |
| Channel.AudioChannel.SetAttributeF32 | src/channel/mod.rs:402-456 | the channel changes as `SetAttributeF32` says |
| Channel.AudioChannel.GetAttributeBool | src/channel/mod.rs:458-472 | answers as `GetAttributeBool` on the channel |
| Channel.AudioChannel.SetAttributeBool | src/channel/mod.rs:474-530 | the channel changes as `SetAttributeBool` says, with the corrected spatialization switch (see Findings) |
| Channel.AudioChannel.SetSpatial | src/channel/mod.rs:533-793 | the channel changes as `SetSpatial` says |
| Channel.AudioChannel.GetSpatial | src/channel/mod.rs:544-793 | answers as `GetSpatial` on the channel |
| Channel.AudioChannel.Drop | src/channel/mod.rs:814-820 | the channel changes as `Drop` says |
| Channel.NewChannel | src/channel/mod.rs:156-225 | a loader error is passed on; otherwise a fresh channel over a reader at frame 0 exists exactly when `Create` succeeds at the stream's own rate |
| MixerSpec.Clip | src/mixer/inner.rs:221-226 | a child inside its window is asked for at most the request and never past its window's end, and for some frames exactly when the request is non-empty |
| MixerSpec.ChannelsPlaying | src/mixer/mod.rs:113-116 | every channel gets the play flag and keeps everything else |
| MixerSpec.SetPlayingOutcome | src/mixer/mod.rs:107-125 | `recursive_play` stores the flag on the node, on every channel and on every nested mixer at every depth, and changes nothing else: not the setup, the cursor, the stretcher, a channel's other fields or a nested mixer's place on the timeline |
| MixerSpec.SetPlaying | src/mixer/mod.rs:107-125 | the node's flag and every channel's flag are `v`, and the node keeps its number of channels and nested mixers |
| MixerSpec.MixersPlayingOutcome | src/mixer/mod.rs:118-122 | after the first `k` rounds of the nested loop, each of those mixers is flagged as a whole and keeps its setup |
| MixerSpec.MaxChannelEndIsMax | src/mixer/inner.rs:353-364 | the running maximum over the channels bounds every window end and is one of them, or 0 |
| MixerSpec.MaxMixerEndIsMax | src/mixer/inner.rs:367-378 | the same for the nested mixers' window ends |
| MixerSpec.ComputeLength | src/mixer/inner.rs:348-383 | recomputing keeps the number of nested mixers |
| MixerSpec.ComputeLengthFrame | src/mixer/inner.rs:348-383 | `compute_mixer_length` changes only the length, the endless flag and the nested mixers' own, and every nested mixer keeps its place on the timeline |
| MixerSpec.ComputedLengthIsLatestEnd | src/mixer/inner.rs:348-383 | the stored length is the latest window end over all children, nested mixers measured after their own recomputation, or 0 when there is none |
| MixerSpec.MixChannelsCount | src/mixer/inner.rs:214-245 | a successful channel loop counts at most one source per channel |
| MixerSpec.MixChannelsReads | src/mixer/inner.rs:214-245 | the channel loop keeps each channel's setup; a channel outside its window is left as it was and one inside plays at most the clipped request |
| MixerSpec.MixChannelsStops | src/mixer/inner.rs:228-233 | once a channel read fails, no later channel is touched |
| MixerSpec.MixMixersCount | src/mixer/inner.rs:247-276 | a successful nested-mixer loop counts at most one source per mixer |
| MixerSpec.MixMixersFrame | src/mixer/inner.rs:247-276 | the nested-mixer loop changes only the mixers' trees; every mixer keeps its place on the timeline, and mixers not yet reached or outside their window are untouched |
| MixerSpec.MixChildren | src/mixer/inner.rs:201-281 | mixing changes only the children and the cursor, keeps the tree valid and succeeds only when the request fits the mix buffer |
| MixerSpec.MixSources | src/mixer/inner.rs:214-280 | mixing the sources changes only the children and the cursor and keeps the tree valid |
| MixerSpec.MixChildrenOutcome | src/mixer/inner.rs:201-281 | more than 4096 frames is a panic that changes nothing; otherwise the setup stays, each channel is read within its window, a nested mixer outside its window is left alone, a success moves the cursor by exactly the request and counts at most one source per child, and a failure leaves the cursor |
| MixerSpec.MixChildrenShape | src/mixer/inner.rs:201-281 | a mix keeps the setup and moves the cursor by exactly the request when it succeeds, and not at all when it fails |
| MixerSpec.MixChildrenWindows | src/mixer/inner.rs:214-276 | a mix reads each channel inside its window for at most the clipped request and leaves the children outside their windows alone |
| MixerSpec.StretchFeed | src/mixer/inner.rs:99-122 | feeding keeps the tree valid and the stretcher present |
| MixerSpec.StretchFeedOutcome | src/mixer/inner.rs:99-122 | with the timeline used up nothing changes; otherwise the setup and the play flag stay, the cursor only moves forward and only the stretcher's credit changes |
| MixerSpec.StretchTake | src/mixer/inner.rs:124-150 | delivering keeps the tree valid |
| MixerSpec.StretchTakeOutcome | src/mixer/inner.rs:124-150 | only the credit changes, and after a success it has dropped by what was handed out: the request, or the whole credit when that is less |
| MixerSpec.Render | src/mixer/inner.rs:155-187 | nothing is rendered, and nothing fails, when no child yielded frames; a successful render had room for the whole request in the caller's buffer and in the mix buffer |
| MixerSpec.Finish | src/mixer/inner.rs:194-196 | only the play flag changes, and the mixer keeps playing exactly when it was playing and is endless or its cursor is short of its length |
| MixerSpec.Read | src/mixer/inner.rs:81-199 | a read keeps every node valid |
| MixerSpec.ReadOutcome | src/mixer/inner.rs:81-199 | a stopped mixer reads nothing and changes nothing; the setup stays and the cursor only moves forward; a success answers the whole request and leaves the mixer playing exactly while a finite timeline is not used up |
| MixerSpec.SeekPoint | src/mixer/inner.rs:297-302 | a child is sent to a point within its duration and never past the target on the mixer's timeline |
| MixerSpec.SeekChannels | src/mixer/inner.rs:292-309 | the channel loop keeps the number of channels |
| MixerSpec.SeekChannelsFrame | src/mixer/inner.rs:292-309 | the channel loop of `seek` leaves channels not yet reached and channels starting after the target untouched, and every channel keeps its setup and play flag |
| MixerSpec.SeekChannelsReach | src/mixer/inner.rs:292-309 | on success each channel reached that starts by the target sits at its seek point, and the result is the latest point reached, never past the target |
| MixerSpec.SeekChannelsStops | src/mixer/inner.rs:304 | once a channel's seek fails, no later channel is touched |
| MixerSpec.SeekMixers | src/mixer/inner.rs:311-329 | the nested-mixer loop keeps every nested mixer valid |
| MixerSpec.SeekMixersFrame | src/mixer/inner.rs:311-329 | a successful nested-mixer loop is never past the target |
| MixerSpec.SeekMixersUntouched | src/mixer/inner.rs:311-329 | the nested-mixer loop of `seek` changes only the trees, and leaves mixers not yet reached and mixers starting after the target untouched |
| MixerSpec.Prime | src/mixer/inner.rs:331-343 | priming keeps the tree valid |
| MixerSpec.PrimeOutcome | src/mixer/inner.rs:331-343 | without a stretcher reporting input latency nothing changes; otherwise a success moves the cursor on by the latency and leaves twice the latency in credit; the setup and the play flag stay |
| MixerSpec.SeekTimelineFrame | src/mixer/inner.rs:287-346 | the setup and the play flag stay; a success is never past the target and leaves the cursor at its resting place plus what priming mixed |
| MixerSpec.SeekChildrenFrame | src/mixer/inner.rs:292-329 | the two loops change only the children; a success is never past the target and every channel starting by the target sits at its seek point |
| MixerSpec.SeekAsWritten | src/mixer/inner.rs:287-346 | the seek as written keeps the tree valid |
| MixerSpec.Seek | src/mixer/inner.rs:287-346 | the corrected seek keeps the tree valid |
| MixerSpec.SeekOutcome | src/mixer/inner.rs:287-346 | a seek keeps the play flag and the setup; a success is never past the target; the corrected seek leaves the cursor at the target plus what priming mixed, the written one at 0 plus that |
| MixerSpec.SeekAsWrittenLosesCursor | src/mixer/inner.rs:287-288 | the written seek puts a channel that starts before the target into its clip but moves the mixer's cursor to 0, before that channel's window; the corrected seek leaves the cursor inside it |
| MixerSpec.SeekLeavesTwiceLatencyCredit | src/mixer/inner.rs:331-343 | a successful seek leaves the stretcher with twice its input latency in credit |
| MixerSpec.Create | src/mixer/inner.rs:51-79 | creation succeeds exactly when the channel count is 1 to 8, the rate 8000 to 192000 Hz and the panner initialises, with the channel-count error first; a new mixer is stopped, empty, at 0, finite, without a stretcher and with a bypassed resampler |
| MixerSpec.Play | src/mixer/mod.rs:76-86 | the tree ends playing; a mixer past the start is only flagged, one at the start is then sought to 0, ending at 0 plus what priming mixed |
| MixerSpec.Stop | src/mixer/mod.rs:88-91 | the whole tree is stopped and nothing else changes |
| MixerSpec.SeekHandle | src/mixer/mod.rs:93-96 | an absent index seeks to 0; with the corrected seek (see Findings), a success leaves the cursor at the index plus what priming mixed and is never past it |
| MixerSpec.AddChannel | src/mixer/inner.rs:385-401 | the entry is appended after the existing ones, the new length covers its window, a looping channel makes the mixer endless, and cursor, play flag and stretcher stay |
| MixerSpec.AddMixer | src/mixer/inner.rs:403-419 | the entry is appended with its own length recomputed, the new length covers its window, an endless child makes the mixer endless, and cursor, play flag and stretcher stay |
| MixerSpec.RemoveChannel | src/mixer/mod.rs:148-156 | an index in range removes exactly that entry and keeps the rest in order; any other index is refused with `IndexOutOfBounds` and changes nothing; nothing but the channel list changes |
| MixerSpec.RemoveMixer | src/mixer/mod.rs:179-187 | the same for nested mixers |
| MixerSpec.GetLength | src/mixer/mod.rs:189-197 | an endless mixer reports the largest u64, any other its stored length |
| MixerSpec.AsReadError | src/mixer/mod.rs:223-225 | a success passes through; every failure becomes `ReadError`, except a panic |
| MixerSpec.ReadHandle | src/mixer/mod.rs:210-228 | more than 4096 frames is refused before the mixer is touched; otherwise the mixer ends as after an inner read, and a success answers the request, or 0 when stopped |
| MixerSpec.ReadSimple | src/mixer/mod.rs:230-245 | both buffers are sized for the request; a stopped mixer yields an empty answer and changes nothing; a success yields the full sample count or nothing |
| MixerSpec.GetAttributeF32 | src/mixer/mod.rs:249-274 | stretcher attributes fail exactly without a stretcher; rate, volume and pan always answer, the rate being the mixer's own; the rest are unsupported |
| MixerSpec.SetAttributeF32 | src/mixer/mod.rs:276-322 | a refused write changes nothing; stretcher attributes fail exactly without a stretcher; play flag, cursor and children never change |
| MixerSpec.GetAttributeBool | src/mixer/mod.rs:324-337 | `AudioFX` reads whether a stretcher is present, spatialization reads off, anything else is unsupported |
| MixerSpec.SetAttributeBool | src/mixer/mod.rs:339-370 | `AudioFX` installs a fresh tempo-bypassed stretcher when on and drops it when off, then reseeks with the corrected seek (see Findings), ignoring the outcome; spatialization is accepted and ignored; anything else is refused unchanged |
| MixerSpec.SetAttributeBoolFrame | src/mixer/mod.rs:339-370 | switching keeps the channel count, rate and number of children |
| MixerSpec.Drop | src/mixer/mod.rs:373-379 | dropping the handle stops the mixer and marks it for removal, and nothing else |
| MixerSpec.StoppedTreeMixesNothing | src/mixer/inner.rs:201-281 | mixing a stopped tree leaves every child as it was, counts no source and only moves the cursor |
| MixerSpec.StopSilencesReads | src/mixer/inner.rs:88-90 | after `stop`, a read of the mixer yields nothing and changes nothing, and so does a mix of any nested mixer |
| MixerSpec.SampleRateReadsNativeRate | src/mixer/mod.rs:253-286 | a sample rate written to a mixer does not read back: the read answers the mixer's own rate |
| MixerSpec.RemovalLeavesLengthStale | src/mixer/mod.rs:148-156 | removing the only channel keeps the length it gave the mixer, where recomputing would give 0 |
| Mixer.MixerInner.constructor | src/mixer/inner.rs:58-76 | a new node is stopped, not deleted, empty, at 0, finite and without a stretcher, with the given id, channel count, rate and stages |
| Mixer.MixerInner.ChannelsLength | src/mixer/inner.rs:353-364 | the loop yields the latest channel window end and whether some channel loops, which `MaxChannelEndIsMax` shows is the maximum |
| Mixer.MixerInner.MixersLength | src/mixer/inner.rs:367-378 | the loop recomputes every nested mixer as `MixerSpec.MixersLength` does and folds their window ends and endless flags into the running maximum and flag |
| Mixer.MixerInner.ComputeLength | src/mixer/inner.rs:348-383 | the node ends as `MixerSpec.ComputeLength` says, so its length is the latest window end over all children (`ComputedLengthIsLatestEnd`), and stays valid |
| Mixer.MixerInner.ChannelsPlaying | src/mixer/mod.rs:113-116 | the loop flags every channel and changes nothing else of them |
| Mixer.MixerInner.MixersPlaying | src/mixer/mod.rs:118-122 | the loop flags every nested mixer as a whole, as `MixerSpec.MixersPlaying` does |
| Mixer.MixerInner.SetPlaying | src/mixer/mod.rs:107-125 | the node ends as `MixerSpec.SetPlaying` says: the flag on every node and channel of the tree and nothing else changed (`SetPlayingOutcome`) |
| Mixer.MixerInner.MixChannels | src/mixer/inner.rs:214-245 | the channel loop yields the channels and count of `MixerSpec.MixChannels`, stopping at the first error |
| Mixer.MixerInner.MixMixers | src/mixer/inner.rs:247-276 | the nested-mixer loop yields the mixers and count of `MixerSpec.MixMixers`, doing nothing after a failure |
| Mixer.MixerInner.MixChildren | src/mixer/inner.rs:201-281 | the node and the result are those of `MixerSpec.MixChildren`: a panic beyond 4096 frames, otherwise windowed reads and a cursor moved by the request on success (`MixChildrenOutcome`) |
| Mixer.MixerInner.MixSources | src/mixer/inner.rs:214-280 | the node and the result are those of `MixerSpec.MixSources` |
| Mixer.MixerInner.FeedStretcher | src/mixer/inner.rs:99-122 | the node and the result are those of `MixerSpec.StretchFeed`: only the cursor, the children and the credit move (`StretchFeedOutcome`) |
| Mixer.MixerInner.DrainStretcher | src/mixer/inner.rs:124-150 | the node and the result are those of `MixerSpec.StretchTake`: the credit drops by what is handed out (`StretchTakeOutcome`) |
| Mixer.MixerInner.ReadPcmFrames | src/mixer/inner.rs:81-199 | the node and the result are those of `MixerSpec.Read`: a stopped mixer reads nothing, a success answers the request and stops a finite mixer at its end (`ReadOutcome`) |
| Mixer.MixerInner.Prime | src/mixer/inner.rs:331-343 | the node and the result are those of `MixerSpec.Prime`: twice the input latency in credit after a success (`PrimeOutcome`) |
| Mixer.MixerInner.SeekChannels | src/mixer/inner.rs:292-309 | the channel loop yields the channels and latest point of `MixerSpec.SeekChannels`, stopping at the first error |
| Mixer.MixerInner.SeekMixers | src/mixer/inner.rs:311-329 | the nested-mixer loop yields the mixers and latest point of `MixerSpec.SeekMixers`, doing nothing after a failure |
| Mixer.MixerInner.SeekChildrenTo | src/mixer/inner.rs:288-329 | the children are those of `MixerSpec.SeekChildren`, the cursor is at the target and the result is the latest point reached or the first error |
| Mixer.MixerInner.Seek | src/mixer/inner.rs:287-346 | the node and the result are those of the corrected `MixerSpec.Seek`: the cursor at the target plus priming, the result never past the target (`SeekOutcome`) |
| Mixer.MixerInner.AddChannel | src/mixer/inner.rs:385-401 | the node ends as `MixerSpec.AddChannel` says: the entry appended and the length recomputed |
| Mixer.MixerInner.AddMixer | src/mixer/inner.rs:403-419 | the node ends as `MixerSpec.AddMixer` says |
| Mixer.NewMixerInner | src/mixer/inner.rs:51-79 | succeeds exactly when `MixerSpec.Create` does, with a fresh valid node holding the given id and the state `Create` describes, and fails with `Create`'s error |
| Mixer.AudioMixer.constructor | src/mixer/mod.rs:70-73 | the handle wraps the given node |
| Mixer.AudioMixer.Play | src/mixer/mod.rs:76-86 | the tree and result are those of `MixerSpec.Play` |
| Mixer.AudioMixer.Stop | src/mixer/mod.rs:88-91 | the tree ends as `MixerSpec.Stop`: everything stopped, nothing else changed |
| Mixer.AudioMixer.Seek | src/mixer/mod.rs:93-96 | the tree and result are those of `MixerSpec.SeekHandle`, an absent index meaning 0, with the corrected seek (see Findings) |
| Mixer.AudioMixer.AddChannelEx | src/mixer/mod.rs:133-146 | the channel's state, placed by the converted delay and duration, is appended as `MixerSpec.AddChannel` says; the entry is a copy from add time, not the shared channel (see Left out) |
| Mixer.AudioMixer.AddChannel | src/mixer/mod.rs:127-131 | the channel is appended with no delay and no duration, as a copy from add time (see Left out) |
| Mixer.AudioMixer.RemoveChannel | src/mixer/mod.rs:148-156 | the tree and result are those of `MixerSpec.RemoveChannel`: removal by index or `IndexOutOfBounds` |
| Mixer.AudioMixer.AddMixerEx | src/mixer/mod.rs:164-177 | the other mixer's tree, placed by the converted delay and duration, is appended as `MixerSpec.AddMixer` says; the entry is a copy from add time, not the shared mixer (see Left out) |
| Mixer.AudioMixer.AddMixer | src/mixer/mod.rs:158-162 | the other mixer is appended with no delay and no duration, as a copy from add time (see Left out) |
| Mixer.AudioMixer.RemoveMixer | src/mixer/mod.rs:179-187 | the tree and result are those of `MixerSpec.RemoveMixer` |
| Mixer.AudioMixer.GetLength | src/mixer/mod.rs:189-197 | the length `MixerSpec.GetLength` gives: the largest u64 for an endless mixer |
| Mixer.AudioMixer.IsPlaying | src/mixer/mod.rs:199-201 | the play flag shared with the node |
| Mixer.AudioMixer.ReadPcmFrames | src/mixer/mod.rs:210-228 | the tree and result are those of `MixerSpec.ReadHandle` |
| Mixer.AudioMixer.ReadSimple | src/mixer/mod.rs:230-245 | the tree and result are those of `MixerSpec.ReadSimple` |
| Mixer.AudioMixer.GetAttributeF32 | src/mixer/mod.rs:249-274 | the answer `MixerSpec.GetAttributeF32` gives |
| Mixer.AudioMixer.SetAttributeF32 | src/mixer/mod.rs:276-322 | the tree and result are those of `MixerSpec.SetAttributeF32` |
| Mixer.AudioMixer.GetAttributeBool | src/mixer/mod.rs:324-337 | the answer `MixerSpec.GetAttributeBool` gives |
| Mixer.AudioMixer.SetAttributeBool | src/mixer/mod.rs:339-370 | the tree and result are those of `MixerSpec.SetAttributeBool`, whose reseek is the corrected seek (see Findings) |
| Mixer.AudioMixer.Drop | src/mixer/mod.rs:373-379 | the node ends stopped and marked as `MixerSpec.Drop` says |
| Mixer.NewMixer | src/mixer/mod.rs:57-74 | succeeds exactly when `MixerSpec.Create` does, with a fresh valid handle over a fresh node holding the given id and `Create`'s state |
| DeviceSpec.Register | src/device/inner.rs:357-366 | a node whose identity is already listed is refused; any other is appended after the existing ones, and unique identities stay unique |
| DeviceSpec.RemoveAt | src/device/inner.rs:372-377 | a removal by position succeeds exactly when the position is in range |
| DeviceSpec.RemoveAtShifts | src/device/inner.rs:372-374 | removing one entry keeps the earlier ones, shifts the later ones down by one, loses exactly that entry and keeps identities unique |
| DeviceSpec.FirstIndex | src/device/inner.rs:404-411 | the search finds a position exactly when the identity is listed, and it is the first position holding it |
| DeviceSpec.RemoveById | src/device/inner.rs:400-419 | a removal by identity succeeds exactly when the identity is listed |
| DeviceSpec.RegisterThenRemoveById | src/device/inner.rs:380-419 | registering a fresh node and removing it by its identity gives the registry back |
| DeviceSpec.RemoveByIdRemovesIt | src/device/inner.rs:400-419 | with unique identities, removing by identity leaves no node with it, keeps the others unique and loses exactly one entry |
| DeviceSpec.Attach | src/channel/mod.rs:227-234 | attaching appends the node after the existing ones, with no check |
| DeviceSpec.AttachSkipsDuplicateCheck | src/channel/mod.rs:227-234 | attaching an already registered channel lists its identity twice, where `add_channel` would refuse it |
| DeviceSpec.Retain | src/device/inner.rs:326-345 | the sweep never grows the registry and leaves no node marked deleted |
| DeviceSpec.RetainAppend | src/device/inner.rs:327-335 | the sweep works piecewise, so the nodes it keeps stay in their order |
| DeviceSpec.RetainCount | src/device/inner.rs:327-335 | a marked node is gone after the sweep and an unmarked one is kept as often as it was listed |
| DeviceSpec.RetainUnmarked | src/device/inner.rs:327-335 | with nothing marked the sweep changes nothing |
| DeviceSpec.RetainIdempotent | src/device/inner.rs:327-345 | sweeping twice is sweeping once |
| DeviceSpec.RetainKeepsUniqueIds | src/device/inner.rs:327-345 | the sweep keeps unique identities unique |
| DeviceSpec.RegistryOutcome | src/device/inner.rs:350-419 | `add_channel` and `add_mixer` refuse exactly a listed identity, with its error, and otherwise append; `remove_channel` succeeds exactly for a position in range and `remove_mixer` exactly for a listed identity, which is then gone; a failure changes nothing; nothing outside the one list changes; unique identities stay unique; the two refusals are the corrected duplicate checks (see Findings) |
| DeviceSpec.AddChannel | src/device/inner.rs:350-368 | accepted exactly when no listed channel has the identity, and then the node is appended; otherwise `ChannelAlreadyExists` with that identity and no change (the corrected check, see Findings) |
| DeviceSpec.AddMixer | src/device/inner.rs:380-398 | accepted exactly when no listed mixer has the identity, and then the node is appended; otherwise `MixerAlreadyExists` with that identity and no change (the corrected check, see Findings) |
| DeviceSpec.RemoveChannel | src/device/inner.rs:370-378 | succeeds exactly for a position in range and then lists one channel fewer, the mixers and settings unchanged; otherwise `ChannelNotFound` with that position and no change |
| DeviceSpec.RemoveMixer | src/device/inner.rs:400-419 | succeeds exactly when a mixer with the identity is listed and then lists one mixer fewer, the rest unchanged; otherwise `MixerNotFound` with that identity and no change |
| DeviceSpec.RemoveChannelAsWritten | src/device/mod.rs:115-127 | the handle's removal hands the channel's identity to the removal by position |
| DeviceSpec.RemoveChannelOf | src/device/mod.rs:115-127 | the corrected removal succeeds exactly when a channel with that identity is listed, and otherwise fails with `ChannelNotFound` and changes nothing |
| DeviceSpec.RemoveChannelAsWrittenMissesChannel | src/device/mod.rs:115-127 | with one channel of identity 1 the written removal refuses it and the corrected one removes it; with channels 1 and 0, removing channel 0 as written takes out channel 1, and corrected takes out channel 0 |
| DeviceSpec.RemoveChannelOfRemovesIt | src/device/mod.rs:115-127 | the corrected removal takes out the channel named and no other, and keeps identities unique |
| DeviceSpec.MaxFrames | src/device/inner.rs:155-201 | the largest frame count any node answered: it bounds them all and is one of them, or 0 |
| DeviceSpec.StretchInput | src/device/inner.rs:139-150 | at tempo 1 the stretcher is fed the resampler's request, otherwise what the stretcher asks for or its error |
| DeviceSpec.CreditDraw | src/device/inner.rs:205-224 | only the credit changes, and after a success it is the credit plus the most frames any node gave, less the request, never below 0 |
| DeviceSpec.StretchMixOutcome | src/device/inner.rs:136-232 | the stretcher branch changes only the stretcher's credit; a success had every node's frames fit the buffer and leaves the credit plus the most frames any node gave, less the request, never below 0 |
| DeviceSpec.StretchCredit | src/device/inner.rs:139-232 | a stretcher that cannot say its input need fails with its error and stays; otherwise only the credit changes, the stretcher stays valid, and a success had every node's frames fit and leaves the credit plus the most frames any node gave, less the request, never below 0 |
| DeviceSpec.StretchMix | src/device/inner.rs:136-232 | only the device's stretcher changes and stays valid; a success had every node's frames fit the scratch buffer |
| DeviceSpec.Mix | src/device/inner.rs:136-281 | only the stretcher can change; without one nothing changes and the mix succeeds exactly when every node's frames fit the scratch buffer, and with one a success had them fit too |
| DeviceSpec.Output | src/device/inner.rs:283-308 | a successful output had room for the whole request in the output and the scratch buffer |
| DeviceSpec.Process | src/device/inner.rs:111-348 | given the frames each node answered, rendering keeps the device valid |
| DeviceSpec.ProcessOutcome | src/device/inner.rs:111-348 | with nothing registered a render is silent and changes nothing; stages, listener and the stretcher's settings stay; a success had every node's frames and the output fit and swept out exactly the nodes marked deleted; a failure sweeps nothing; this holds for any frames the nodes answer, and `RenderSpec.Render` supplies the frames they actually give |
| RenderSpec.ReadTarget | src/device/inner.rs:120-150 | no node is read when nothing is registered or the stretcher cannot say its input need; otherwise every node is asked for the resampler's request, or, with a stretcher off tempo 1, for the stretcher's |
| RenderSpec.ChannelRead | src/device/inner.rs:155-166 | a channel's read in a render keeps it valid with its setup and mark, counts no more than asked (0 for a failed read), and leaves a stopped channel as it is |
| RenderSpec.MixerRead | src/device/inner.rs:182-193 | a mixer's read keeps it valid with its setup and mark, counts no more than asked, leaves a stopped mixer as it is and never moves its cursor back |
| RenderSpec.ChannelReads | src/device/inner.rs:155-177 | each channel read in turn with its own spatializer answer, every one as `ChannelRead` says |
| RenderSpec.MixerReads | src/device/inner.rs:182-204 | each mixer read in turn, as `MixerRead` says |
| RenderSpec.Render | src/device/inner.rs:111-348 | a render keeps the device and every node valid |
| RenderSpec.RenderNothingRegistered | src/device/inner.rs:117-123 | with nothing registered a render changes nothing and succeeds |
| RenderSpec.RenderStretcherFails | src/device/inner.rs:139-150 | when the stretcher cannot say its input need, the render fails with its error before any node is read, and nothing changes |
| RenderSpec.RenderReadsNodes | src/device/inner.rs:152-348 | once nodes are read, the device goes on as `DeviceSpec.Process` with the frames they counted, and they end as their reads leave them |
| RenderSpec.RenderOutcome | src/device/inner.rs:111-348 | no node changes when none is read; every node keeps its setup and mark, a stopped one stays as it is, no mixer's cursor moves back, and the frames counted never exceed the target |
| RenderSpec.RenderedFramesFit | src/device/inner.rs:166-175 | when the target is at most 4096 frames, the frames every node counts fit the scratch buffer, so the node loops never panic |
| RenderSpec.RenderPlaysPlainChannel | src/device/inner.rs:155-166 | a render reads a playing plain channel for what is left up to the target, and a channel with fewer frames left ends stopped at the end of its stream |
| DeviceSpec.GetAttributeF32 | src/device/mod.rs:163-190 | `Unknown` alone is unknown; the two switches alone are unsupported; stretcher attributes fail exactly without a stretcher; the rate read back is the native one |
| DeviceSpec.SetAttributeF32 | src/device/mod.rs:192-228 | a write fails exactly for `Unknown`, the two switches, or a stretcher attribute without a stretcher, and then changes nothing; nodes and listener never change |
| DeviceSpec.GetAttributeBool | src/device/mod.rs:230-239 | the switches read whether a stretcher or a listener is present; `Unknown` is unknown and the rest unsupported |
| DeviceSpec.NewListener | src/effects/spartilization_listener.rs:31-53 | a listener is made exactly for 1 to 8 output channels and a successful init, and starts with fresh settings |
| DeviceSpec.SetAttributeBool | src/device/mod.rs:241-269 | a refused switch changes nothing; `Unknown` is unknown and the levels unsupported; a successful switch installs or drops the stretcher or the listener as asked and changes nothing else |
| DeviceSpec.FxEnableReplaces | src/device/mod.rs:246-251 | turning the stretcher on always succeeds and leaves a fresh one, credit 0, tempo and pitch 1, whatever was set before |
| DeviceSpec.SetThenGet | src/device/mod.rs:163-228 | a volume or pan in range, or a tempo or pitch with a stretcher, reads back as written; a written sample rate does not, the native rate reads back |
| DeviceSpec.SetListener | src/device/mod.rs:273-282 | without a listener a setter fails with `SpatializationNotEnabled` and changes nothing; otherwise only the listener changes and keeps its channel count |
| DeviceSpec.GetListener | src/device/mod.rs:284-292 | a getter fails exactly without a listener |
| DeviceSpec.ListenerSetThenGet | src/device/mod.rs:273-419 | a listener property reads back as set, and setting one leaves the others |
| Device.ChannelNodes | src/device/inner.rs:350-368 | the registry's view lists each channel's identity and mark, position by position |
| Device.MixerNodes | src/device/inner.rs:380-398 | the same for mixers |
| Device.ChannelStates | src/device/inner.rs:155-177 | the state of each listed channel, position by position |
| Device.MixerStates | src/device/inner.rs:182-204 | the state of each listed mixer, position by position |
| Device.ReadChannels | src/device/inner.rs:155-177 | the channel loop calls each channel's `read_pcm_frames` in turn: every channel ends as `RenderSpec.ChannelReads` says and the frames kept are its answers; the registry's view of them is unchanged |
| Device.ReadMixers | src/device/inner.rs:182-204 | the mixer loop reads each mixer in turn: every mixer ends as `RenderSpec.MixerReads` says, with its answers kept; the registry's view is unchanged |
| Device.ReadNodes | src/device/inner.rs:155-204 | the two loops, channels first: both lists of nodes end as their reads say and the registry's view of them is unchanged |
| Device.AddReads | src/device/inner.rs:156-177 | the loop panics exactly when some node's frames do not fit the buffer, and otherwise yields the most frames any node gave |
| Device.RetainChannels | src/device/inner.rs:327-335 | the kept channels are exactly the unmarked ones, in order, as `Retain` says |
| Device.RetainMixers | src/device/inner.rs:337-345 | the kept mixers are exactly the unmarked ones, in order |
| Device.FinishStretch | src/device/inner.rs:205-232 | the credit step of `CreditDraw`, then the copy back, which panics when it does not fit |
| Device.StretchStep | src/device/inner.rs:136-232 | the stretcher ends and fails as `StretchCredit` says |
| Device.AudioDeviceInner.constructor | src/device/inner.rs:60-74 | a new device lists no nodes and has no stretcher and no listener |
| Device.AudioDeviceInner.AddChannel | src/device/inner.rs:350-368 | the device ends as `DeviceSpec.AddChannel` says, and the channel object is appended exactly when accepted |
| Device.AudioDeviceInner.AddMixer | src/device/inner.rs:380-398 | the device ends as `DeviceSpec.AddMixer` says, and the mixer object is appended exactly when accepted; an already listed mixer is refused by the corrected duplicate check, where the check as written blocks (see Findings) |
| Device.AudioDeviceInner.RemoveChannel | src/device/inner.rs:370-378 | the device ends as `DeviceSpec.RemoveChannel` says, the channel at that position removed on success |
| Device.AudioDeviceInner.RemoveMixer | src/device/inner.rs:400-419 | the device ends as `DeviceSpec.RemoveMixer` says, and a failure keeps the mixers |
| Device.AudioDeviceInner.SweepChannels | src/device/inner.rs:327-335 | only the channels change: the marked ones go |
| Device.AudioDeviceInner.SweepMixers | src/device/inner.rs:337-345 | only the mixers change: the marked ones go |
| Device.AudioDeviceInner.Sweep | src/device/inner.rs:326-345 | exactly the marked channels and mixers go |
| Device.AudioDeviceInner.StretchNodes | src/device/inner.rs:136-232 | given the frames the nodes answered, the device ends as `DeviceSpec.StretchMix` says: only the stretcher's credit changes, and the node lists stay |
| Device.AudioDeviceInner.MixNodes | src/device/inner.rs:136-281 | given the frames the nodes answered, the device ends as `DeviceSpec.Mix` says, and the node lists stay |
| Device.AudioDeviceInner.Process | src/device/inner.rs:111-348 | the device, every listed channel and every listed mixer end as `RenderSpec.Render` says, with its result: each node is read once for the same target, the device goes on with the frames they answered; with nothing registered the output is silence; a failure sweeps nothing; a success keeps exactly the unmarked nodes |
| Device.AudioDeviceInner.RenderRegistered | src/device/inner.rs:125-348 | with some node registered, the device and its nodes end as `RenderSpec.Render` says: a stretcher that cannot say its input need fails before any node is read |
| Device.AudioDeviceInner.RenderTarget | src/device/inner.rs:152-348 | once the target is known, every node is read for it and the device and its nodes end as `RenderSpec.Render` says |
| Device.AudioDeviceInner.ProcessRest | src/device/inner.rs:205-348 | given the frames the nodes answered, the device and the result are those of `DeviceSpec.Process`; a failure sweeps nothing and a success keeps exactly the unmarked nodes |
| Device.AudioDevice.constructor | src/device/mod.rs:100-105 | the handle wraps the given device |
| Device.AudioDevice.AddChannel | src/device/mod.rs:108-113 | as `DeviceSpec.AddChannel` for the channel's identity |
| Device.AudioDevice.RemoveChannel | src/device/mod.rs:115-120 | as the corrected `DeviceSpec.RemoveChannelOf` for the channel's identity |
| Device.AudioDevice.RemoveChannelByRef | src/device/mod.rs:122-127 | as the corrected `DeviceSpec.RemoveChannelOf` |
| Device.AudioDevice.AddMixer | src/device/mod.rs:129-134 | as `DeviceSpec.AddMixer` for the mixer's identity, with the corrected duplicate check (see Findings) |
| Device.AudioDevice.RemoveMixer | src/device/mod.rs:136-141 | as `DeviceSpec.RemoveMixer` for the mixer's identity |
| Device.AudioDevice.RemoveMixerByRef | src/device/mod.rs:143-148 | as `DeviceSpec.RemoveMixer` |
| Device.AudioDevice.GetAttributeF32 | src/device/mod.rs:163-190 | the answer of `DeviceSpec.GetAttributeF32` |
| Device.AudioDevice.GetAttributeBool | src/device/mod.rs:230-239 | the answer of `DeviceSpec.GetAttributeBool` |
| Device.AudioDevice.SetAttributeF32 | src/device/mod.rs:192-228 | as `DeviceSpec.SetAttributeF32` |
| Device.AudioDevice.SetAttributeBool | src/device/mod.rs:241-269 | as `DeviceSpec.SetAttributeBool` |
| Device.AudioDevice.SetListener | src/device/mod.rs:273-282 | as `DeviceSpec.SetListener` |
| Device.AudioDevice.GetListener | src/device/mod.rs:284-292 | the answer of `DeviceSpec.GetListener` |
| Device.AttachChannel | src/channel/mod.rs:227-234 | the channel object is appended to the device's list as it is, as `DeviceSpec.Attach` says |
| Device.DuplicateCheckBlocks | src/device/inner.rs:356-362 | when the incoming channel is already listed, the check as written locks it a second time and never returns, where the refusal was due |
| Device.DuplicateCheckAsWritten | src/device/inner.rs:356-362 | the check as written never returns only when the incoming channel object is itself listed; for a channel not yet listed it answers exactly whether its identity is listed, and a `true` answer always means it is |
| Device.MixerDuplicateCheckAsWritten | src/device/inner.rs:386-390 | the same for `add_mixer`: it never returns only when the incoming mixer object is itself listed, and for a mixer not yet listed it answers exactly whether its identity is listed |
| Device.MixerDuplicateCheckBlocks | src/device/inner.rs:386-391 | when the incoming mixer is already listed, the check as written locks it a second time and never returns, where `MixerAlreadyExists` was due |
| SampleSpec.LoadedAttributes | src/sample/mod.rs:21-33 | a loaded sample starts with both switches off, volume 1, pan 0, tempo and pitch 1, at the stream's own rate |
| SampleSpec.Load | src/sample/mod.rs:44-79 | a loader failure passes through; an empty stream is refused; otherwise the buffer holds `pcm_length * channels` samples and the sample keeps the stream's length, channels and rate with the default attributes |
| SampleSpec.GetAttributeF32 | src/sample/mod.rs:162-187 | `Unknown` alone is unknown, the two switches alone unsupported, and pitch and tempo fail exactly while the stretcher switch is off |
| SampleSpec.SetAttributeF32 | src/sample/mod.rs:189-225 | a write fails exactly for `Unknown`, a switch, or pitch and tempo with the switch off, and then changes nothing; the switches never change |
| SampleSpec.GetAttributeBool | src/sample/mod.rs:227-240 | the switches read as stored; `Unknown` is unknown and the rest unsupported |
| SampleSpec.SetAttributeBool | src/sample/mod.rs:242-262 | only the two switches can be written, and a write changes no level |
| SampleSpec.SetThenGet | src/sample/mod.rs:162-225 | a stored value reads back exactly as given, unclamped, and storing one attribute leaves every other reading |
| SampleSpec.FxSwitchGates | src/sample/mod.rs:162-262 | turning the stretcher switch on exposes the tempo and pitch stored before, turning it off hides them again |
| SampleSpec.SetF32Then | src/sample/mod.rs:142-154 | a step of the setter chain keeps the channel valid |
| SampleSpec.Apply | src/sample/mod.rs:139-158 | applying the attributes keeps the channel valid |
| SampleSpec.ApplySetsLevels | src/sample/mod.rs:142-144 | a successful application leaves the sample's volume and pan on the channel, clamped as the channel stores them, and its rate as the resampler's target; the play state is never touched |
| SampleSpec.ApplySetsSwitches | src/sample/mod.rs:146-155 | after a successful application the channel has a stretcher exactly when the sample enables it, then with the sample's tempo and pitch, and a spatializer exactly when the sample enables it |
| Sample.Inners | src/sample/mod.rs:120-133 | the inner channels behind the handles, position by position |
| Sample.AudioSample.constructor | src/sample/mod.rs:81-97 | the sample holds the caller's buffer length, frame count, rate and channels, and the default attributes at that rate |
| Sample.AudioSample.GetAttributeF32 | src/sample/mod.rs:162-187 | the answer of `SampleSpec.GetAttributeF32` on the sample's record |
| Sample.AudioSample.SetAttributeF32 | src/sample/mod.rs:189-225 | the record and result of `SampleSpec.SetAttributeF32` |
| Sample.AudioSample.GetAttributeBool | src/sample/mod.rs:227-240 | the answer of `SampleSpec.GetAttributeBool` |
| Sample.AudioSample.SetAttributeBool | src/sample/mod.rs:242-262 | the record and result of `SampleSpec.SetAttributeBool` |
| Sample.AudioSample.ApplyAttributes | src/sample/mod.rs:139-158 | the channel ends as `SampleSpec.Apply` says and stays valid |
| Sample.AudioSample.MakeChannel | src/sample/mod.rs:123-131 | on success a fresh valid, stopped, live channel with the next identity is appended to the device; on failure at most one channel was appended and it is dropped |
| Sample.AudioSample.GetChannels | src/sample/mod.rs:115-137 | a success gives `size` channels numbered on from the counter, each appended to the device in order, live and with a stretcher exactly when the sample enables it; a failure leaves every channel it appended deleted and stopped |
| Sample.AudioSample.MakeNext | src/sample/mod.rs:122-134 | one round of the loop appends the next channel, or drops every channel made so far |
| Sample.AudioSample.PlayAsWritten | src/sample/mod.rs:99-113 | the device's earlier channels stay; the one channel `play` appends ends deleted and stopped whether or not the call succeeds |
| Sample.AudioSample.Play | src/sample/mod.rs:99-113 | on success the new channel is appended to the device, playing, live and with the next identity, and its handle is returned; on failure what was appended is dropped |
| Sample.DropMade | src/sample/mod.rs:128-130 | after a failure every channel appended by the call is deleted and stopped, and the earlier ones stay |
| Sample.DropAll | src/channel/mod.rs:814-820 | dropping every handle marks every channel deleted and stops it |
| Sample.Load | src/sample/mod.rs:44-79 | the sample made is fresh and is the one `SampleSpec.Load` describes, or fails with its error |
| Builders.BuildDevice | src/builders/device.rs:88-114 | only 1, 2 or 4 channels, then only 44100 or 48000 Hz, pass, each refusal with its own error; a creation failure passes through; a success is the created device with a listener exactly when spatialization was asked for and a stretcher exactly when effects were |
| Builders.DeviceSettersIndependent | src/builders/device.rs:51-97 | each setter changes only its own field, and the hardware and the switches play no part in validation: a refused build stays refused with the same error |
| Builders.DeviceBuilderDefaultsValid | src/builders/device.rs:39-97 | the defaults pass validation, and the last count and rate given are the ones checked: an accepted pair fails only with creation or a switch |
| Builders.DefaultDeviceBuildIsCreated | src/builders/device.rs:39-114 | with both switches off a validated build is the created device itself, without listener or stretcher |
| Builders.BuildMixer | src/builders/mixer.rs:89-119 | 1 to 8 channels, then 8000 to 192000 Hz, pass, each refusal with its own error, then the panner; a given device gains the mixer's node exactly when the identity was free, and is left alone otherwise; a success is a valid, stopped, empty mixer of the requested shape with a stretcher exactly when effects were asked for |
| Builders.MixerRegisteredBeforeSwitches | src/builders/mixer.rs:101-116 | a mixer that passes validation and creation is registered with the device even when switching its effects fails |
| Builders.MixerBuilderDefaults | src/builders/mixer.rs:43-119 | the defaults pass validation and build a stereo 44100 Hz mixer without a stretcher, registered nowhere |
| Builders.LoadSource | src/device/audioreader.rs:65-260 | a missing file is `FileNotFound`; a PCM buffer loads exactly when miniaudio accepts it, as a buffer reader with the description's rate, channels and length |
| Builders.ChannelBuilder.Selected | src/builders/channel.rs:72-85 | no source is selected exactly when none was set |
| Builders.ChannelSettersKeepOneSource | src/builders/channel.rs:18-69 | the default holds no source and every setter keeps at most one source set |
| Builders.ChannelLastSourceWins | src/builders/channel.rs:30-69 | the last source set is the one `build` loads, and the other setters leave the selection alone |
| Builders.ChannelOf | src/channel/mod.rs:156-225 | a load failure passes through; a channel made is valid, stopped, at 0, without a stretcher, its reader at the start of the loaded stream |
| Builders.BuildChannel | src/builders/channel.rs:71-98 | no source is `NoFileOrBufferProvided`; a load failure passes through; a failure leaves the device alone; a success is a valid, stopped channel at 0 with a stretcher and a spatializer exactly as asked, appended to the given device |
| Builders.EmptyBufferChannelRefused | src/builders/channel.rs:76-91 | a channel over an empty PCM buffer is never built, whatever the switches say |
| Builders.SampleBuilder.Selected | src/builders/sample.rs:94-115 | no source is selected exactly when none was set |
| Builders.SampleSettersKeepOneSource | src/builders/sample.rs:39-90 | the default holds no source and every setter keeps at most one source set |
| Builders.SampleLastSourceWins | src/builders/sample.rs:50-90 | the last source set is the one `build` loads, and the switches leave the selection alone |
| Builders.SampleOf | src/builders/sample.rs:100-112 | a PCM description is taken as it is with the default attributes at its rate; a file or file buffer is loaded as `SampleSpec.Load` says |
| Builders.BuildSample | src/builders/sample.rs:93-129 | no source is `NoFileOrBufferProvided`; otherwise the build succeeds exactly when loading does, and the sample is the loaded one with the two switches as asked |
| Builders.PcmSampleBuilds | src/builders/sample.rs:93-129 | a sample built from a PCM description always succeeds, carries the description, reads its rate back, and exposes pitch and tempo exactly when effects were asked for |
| ChannelSpec.Seek | src/channel/inner.rs:181-210 | a seek changes only the position, the reader and the stretcher |
| ChannelSpec.Run | src/channel/inner.rs:51-179 | any number of successive reads keeps the channel valid |
| ChannelSpec.PlayRun | src/channel/inner.rs:51-179 | the reads the device's callback makes keep the channel valid |
| ChannelSpec.PlainEnd | src/channel/inner.rs:113-179 | a run of plain reads delivers every remaining frame up to the total asked, and stays playing only if it never asked for more than remained |
| ChannelSpec.PlainEndStep | src/channel/inner.rs:113-179 | reading a full first buffer and then the rest ends where the whole run ends, and delivers the same total |
| ChannelSpec.PlainEndShort | src/channel/inner.rs:145-179 | a first read that falls short delivers all that remained and stops the channel at the end of the stream |
| ChannelSpec.PlainStoppedRun | src/channel/inner.rs:58-60 | a run of plain reads over a stopped channel leaves it where it is and delivers nothing |
| ChannelSpec.CallbackReadIsPlain | src/channel/inner.rs:51-179 | on a plain channel, the read the device's callback makes is the plain read |
| ChannelSpec.CallbackRead | src/channel/inner.rs:51-179 | the read the device's callback makes is defined on every valid channel and leaves it valid |
| Channel.AudioChannel.constructor | src/channel/mod.rs:156-177 | the handle wraps the given channel |
| Channel.AudioChannel.IsPlaying | src/channel/mod.rs:286-288 | the play flag shared with the channel |
| Channel.AudioChannel.GetPosition | src/channel/mod.rs:290-292 | the position shared with the channel |
| Channel.AudioChannel.IsLooping | src/channel/mod.rs:298-300 | the looping flag shared with the channel |
| Utils.SaturatingCast | src/effects/fx.rs:54 | a float cast to u64 truncates toward zero inside the range and saturates at 0 and at the largest u64 |
| Utils.SaturatingCastU32 | src/channel/mod.rs:428 | a float cast to u32 truncates toward zero inside the range and saturates at 0 and at the largest u32 |
| Stages.Clamp | src/effects/volume.rs:76-85 | the result lies in the range, and is the input when the input already does |
| Stages.StoreThenFetch | src/effects/spartilization_listener.rs:62-120 | a stored listener property reads back as stored, and storing one leaves the others |
| MixerSpec.MixChannels | src/mixer/inner.rs:214-245 | the channel loop keeps every channel valid and their number |
| MixerSpec.MixMixers | src/mixer/inner.rs:247-276 | the nested-mixer loop keeps every nested mixer valid and their number |
| MixerSpec.MixersLength | src/mixer/inner.rs:367-378 | the recomputing loop keeps the number of nested mixers |
| MixerSpec.MixersPlaying | src/mixer/mod.rs:118-122 | the play loop keeps the number of nested mixers |
| MixerSpec.SeekTimeline | src/mixer/inner.rs:287-346 | a seek keeps the tree valid |
| MixerSpec.SeekChildren | src/mixer/inner.rs:292-329 | the two seek loops keep the tree valid |
| MixerSpec.SilentChannels | src/mixer/inner.rs:214-245 | over stopped channels the channel loop reads nothing and changes nothing |
| MixerSpec.SilentMixers | src/mixer/inner.rs:247-276 | over stopped nested mixers the nested-mixer loop reads nothing and changes nothing |

## Left out

- The device holds its channels and mixers by reference, so operations through a node's handle reach the node the device renders. A mixer does not: it holds a copy of each child, taken when the child is added (see the four `Mixer.AudioMixer.Add…` lines below). Sharing one `Arc` node between two parents, and aliasing through clones of a handle, is not modelled.
- Mixer.AudioMixer.AddChannelEx: the mixer keeps the channel's state from add time, where the source shares the channel's `Arc` with the handle. Later operations through the channel's handle do not reach the mixer's entry: `Drop` (which stops the shared channel, so the mixer would read nothing more from it), `play`, `stop`, `seek`, `set_looping` and the attribute setters. This keeps the mixer tree a value the `MixerSpec` functions can describe.
- Mixer.AudioMixer.AddChannel: the same as AddChannelEx; the mixer keeps the channel's state from add time, and later operations through the channel's handle, `Drop` included, do not reach it.
- Mixer.AudioMixer.AddMixerEx: the mixer keeps the nested mixer's tree from add time, where the source shares its `Arc`. Later operations through the nested mixer's handle do not reach the entry: `Drop`, `stop`, `play`, `seek`, the attribute setters, and children added to or removed from it afterwards.
- Mixer.AudioMixer.AddMixer: the same as AddMixerEx; the nested mixer's tree is kept from add time, and later operations through its handle, `Drop` included, do not reach it.
- Utils.PcmIndexFromSecs: the product of seconds and rate is taken on reals, not in `f32`, so the rounding of the source (one frame either way, and whether a product just under 1.0 rounds up to an index) is not modelled.
- Utils.PcmIndexFromMillis: the product and the division by 1000 are taken on reals, not in `f32`, with the same loss of rounding as PcmIndexFromSecs.
- Utils.MillisAgreeWithSecs: it holds on reals; in `f32` the two conversions of the same time can differ by one frame.
- Lock contention is not modelled. The render callback's `try_lock`, which skips a node whose lock is busy, is modelled as always acquiring the lock, and poisoning is not modelled.
- Sample values are not computed in the render graph: volume, pan, the division by the number of sources, clipping of sample values and the SIMD paths work on floats. Buffers are represented by their lengths, and only the element-wise primitives of `Utils` are modelled on values.
- miniaudio, signalsmith-stretch and the decoders are foreign code. Their result codes, frame counts and latencies are parameters of the model.
- The device's `audio_callback` and the miniaudio device, context and enumeration (hardware I/O) are outside the model. The render step is modelled from the point where it holds the output buffer.
- File I/O and codec decoding are represented by the frame count, sample rate and channel count the decoder reports.
- `set_dsp_callback` and the user DSP callback are foreign code and are not modelled.
- Builders.BuildSample: `load_audio_buffer` is treated as infallible, because its result is a value, not a `Result`.
- Sample.AudioSample.GetChannels: the same miniaudio result codes are used for every channel it makes, because they are parameters.
- The `&mut` / `&` receiver mismatch between `AudioChannel::attach` and the device has no counterpart, because Dafny has no borrow checker.
- Builders.BuildMixer: the error payload strings are folded into `AudioError` variants.
- Mixer.AudioMixer.Drop: the deletion mark of a mixer registered with a device during unwinding is not modelled.
- Builders.BuildChannel: one spatializer result code stands for both the creation and the later switch.
- Arithmetic overflow of `u64` and `usize` is not modelled: every count is unbounded.
- Resampler.Process: a successful conversion is taken to deliver exactly the requested output frames; the frame counts miniaudio reports back, and its `ProcessFailed` result, are not modelled.
- Resampler.New: the `InitializationFailed` result of `ma_resampler_init` is not modelled: once the channel count and the rate pass, creation succeeds. ChannelSpec.Create and MixerSpec.Create inherit this.
- Resampler.GetRequiredInput: the `InvalidOperation` result of the miniaudio query is not modelled, so the device's early return on it never happens in the model.
- Resampler.GetExpectedOutput: the `InvalidOperation` result of the miniaudio query is not modelled.
- Resampler.PreProcess: the `ProcessFailed` result of `ma_resampler_process_pcm_frames` is not modelled.
- Stages.StageProcess: the result of the gainer's and the panner's miniaudio processing call is not modelled: a stage whose buffers are large enough always passes.
- Fx.GetRequiredInput: the product is taken on reals, not on `f32`, so the rounding of large frame counts to `f32` and a NaN tempo are not modelled.
- Fx.GetExpectedOutput: the quotient is taken on reals, not on `f32`, with the same consequences.
- Device.AudioDeviceInner.Process: it requires every channel and mixer to be listed once and each channel to own its reader. A node listed twice, which `attach` can produce, is read twice per render in the source; that case is not modelled.
- ChannelSpec.SetAttributeBool: turning spatialization back on follows the corrected switch, not the source as written (see Findings).
- Channel.AudioChannel.SetAttributeBool: follows the corrected spatialization switch (see Findings).
- MixerSpec.SeekHandle: uses the corrected seek, not the seek as written (see Findings).
- MixerSpec.SetAttributeBool: its reseek is the corrected seek (see Findings).
- Mixer.AudioMixer.Seek: uses the corrected seek (see Findings).
- Mixer.AudioMixer.SetAttributeBool: its reseek is the corrected seek (see Findings).
- DeviceSpec.RegistryOutcome: states the corrected duplicate checks of `add_channel` and `add_mixer`, which refuse a listed node, where the checks as written block (see Findings).
- Device.AudioDeviceInner.AddMixer: refuses a listed mixer, the corrected duplicate check (see Findings).
- Stages.NewGainer: fails only on a channel count outside 1 to 8; any other `ma_gainer_init` failure is not modelled.
- The spatializer's and listener's internals (cones, doppler, attenuation) are miniaudio's and are not modelled. Only their stored parameters are.
- `tween` and the `to_secs` / `to_millis` conversions work on floats and are not modelled.
- `set_start` / `set_end` of the reader range and `set_ratio` of the resampler are not modelled.
- `Display` implementations and `ma_to_string_result` are not modelled, because their output is text for humans.
- The `ref_id` getters are modelled as fields.
- The global `MIXER_ID` and channel id counters are parameters: each constructor is given its fresh identity.

## Findings

| source | as written | input that shows it | evidently intended | confidence | as-written member | corrected member |
|---|---|---|---|---|---|---|
| src/channel/mod.rs:507-510 | re-enabling spatialization calls `AudioSpatialization::new(channels, sample_rate)`, so the sample rate becomes the output channel count | a 2-channel 44100 Hz channel with spatialization turned off and then on again | a spatializer with as many outputs as inputs, as creation makes | not executed | ChannelSpec.SetSpatializationEnabledAsWritten, ChannelSpec.ReenabledSpatializerHasWrongOutputs | ChannelSpec.SetSpatializationEnabled, ChannelSpec.SetAttributeBool, Channel.AudioChannel.SetAttributeBool |
| src/mixer/inner.rs:288 | `seek` sets the mixer's cursor to 0 whatever position is asked for | seek to frame 1000 on a mixer with a 2000-frame child | the cursor moves to the asked position | not executed | MixerSpec.SeekAsWritten, MixerSpec.SeekAsWrittenLosesCursor | MixerSpec.Seek, Mixer.MixerInner.Seek, MixerSpec.SeekHandle, MixerSpec.SetAttributeBool, Mixer.AudioMixer.Seek, Mixer.AudioMixer.SetAttributeBool |
| src/device/mod.rs:115-127 | `remove_channel` passes the channel's `ref_id` to the inner `remove_channel`, which takes a position in the list | a device holding one channel whose `ref_id` is 1 | the channel with that identity is removed | not executed | DeviceSpec.RemoveChannelAsWritten, DeviceSpec.RemoveChannelAsWrittenMissesChannel | DeviceSpec.RemoveChannelOf, DeviceSpec.RemoveChannelOfRemovesIt |
| src/device/inner.rs:356-362 | the duplicate check locks the incoming channel, then locks every listed channel, including the incoming one if it is already listed | adding a channel that is already attached | `ChannelAlreadyExists` is returned | not executed | Device.DuplicateCheckAsWritten, Device.DuplicateCheckBlocks | Device.AudioDeviceInner.AddChannel |
| src/device/inner.rs:386-390 | the duplicate check of `add_mixer` locks the incoming mixer, then locks every listed mixer, including the incoming one if it is already listed | adding a mixer that was built with a device, which already registered it, to that device again | `MixerAlreadyExists` is returned | not executed | Device.MixerDuplicateCheckAsWritten, Device.MixerDuplicateCheckBlocks | Device.AudioDeviceInner.AddMixer |
| src/sample/mod.rs:99-113 | `play` makes, attaches and starts a channel, then drops its handle, whose `Drop` marks the channel deleted | playing any sample on a device | the channel keeps playing, and its handle is returned to the caller | not executed | Sample.AudioSample.PlayAsWritten | Sample.AudioSample.Play |
