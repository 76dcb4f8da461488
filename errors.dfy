/**
 * One error type for the whole engine. The source has one error enum per
 * component (reader, effects, channel, mixer, device, builders) and some
 * components answer with strings; every such error is one variant here.
 */
module Errors {
  /** The errors `get_ogg_type` reports (`AudioOggError`). */
  datatype OggError =
    | OggInvalidFileFormat
    | OggReadError(reason: string)
    | OggUnknownFormat
    | OggDecodeFailed

  datatype AudioError =
    // the audio reader
    | FileNotFound
    | OggError(ogg: OggError)
    | InitializationError(code: int)
    | InvalidFileFormat
    | InvalidPCMLength
    | InvalidOperation
    | PCMLengthTooLarge
    | BufferTooSmall(expected: nat, actual: nat)
    | SeekError(code: int)
    // the time stretcher (AudioFX)
    | InvalidConfiguration
    | InvalidFrameCount
    | InvalidInputSize(expected: nat, actual: nat)
    | InvalidOutputSize(expected: nat, actual: nat)
    | FxNotEnabled
    // the resampler, gainer and panner
    | InvalidChannels(channels: nat)
    | InvalidSampleRate(rate: nat)
    | BufferSizeMismatch(expected: nat, actual: nat)
    | ResamplerOperationFailed
    // a miniaudio stage (panner, spatializer, listener) that answered with a
    // non-zero result code
    | StageFailed(code: int)
    // channels and mixers
    | ReadError
    | SeekOutOfBounds
    | IndexOutOfBounds(index: nat)
    | NotInitialized
    | ListenerNotInitialized
    | SpatializationNotEnabled
    | UnknownAttribute
    | UnsupportedAttribute
    // the device registry
    | ChannelAlreadyExists(id: nat)
    | MixerAlreadyExists(id: nat)
    | ChannelNotFound(index: nat)
    | MixerNotFound(id: nat)
    // builders
    | InvalidChannelCount(count: nat)
    | InvalidBuildSampleRate(rate: nat)
    | NoFileOrBufferProvided
    // a Rust panic (an out-of-range slice or copy); it unwinds through
    // every `unwrap_or` and `map_err` of the source
    | Panic
}
