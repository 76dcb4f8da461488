/**
 * The source reader (`AudioReader` in `device/audioreader.rs`): a frame
 * cursor over a decoded stream or a PCM buffer, the validation of its
 * loaders, and the Ogg container sniffing that picks a decoder.
 *
 * The decoders are foreign. A loader takes what they report as a
 * parameter; a read is taken to deliver every frame left up to the size
 * asked for; a seek succeeds exactly when the target is inside the stream,
 * which is what miniaudio's audio buffer does.
 */
module AudioReader {
  import opened Wrappers
  import opened Errors

  /** miniaudio's `MA_INVALID_ARGS`, the code a seek past the end reports. */
  const MA_INVALID_ARGS: int := -2

  /** Whether a miniaudio decoder or an in-memory audio buffer backs the reader. */
  datatype Backing = Decoder | Buffer

  /** The fields of a reader; `position` is the frame cursor. */
  datatype ReaderState = ReaderState(backing: Backing, sampleRate: nat, channels: nat, pcmLength: nat, position: nat)
  {
    ghost predicate Valid() { position <= pcmLength }
  }

  /** `available_frames`: the frames between the cursor and the end. */
  function AvailableFrames(s: ReaderState): (n: nat)
    requires s.Valid()
    ensures n + s.position == s.pcmLength
  {
    s.pcmLength - s.position
  }

  /**
   * `read`. A zero size and a buffer too short for `size` frames are
   * rejected first. A decoder reports "at end" when nothing is left, which
   * the reader turns into `InvalidOperation`; an audio buffer just delivers 0.
   */
  function ReadStep(s: ReaderState, bufferLen: nat, size: nat): (r: (ReaderState, Result<nat, AudioError>))
    requires s.Valid()
    ensures r.0.Valid()
    ensures size == 0 ==> r.1 == Err(InvalidPCMLength)
    ensures size > 0 && bufferLen < size * s.channels ==> r.1 == Err(BufferTooSmall(size * s.channels, bufferLen))
    ensures r.1.Ok? <==> size > 0 && bufferLen >= size * s.channels && !(s.backing == Decoder && AvailableFrames(s) == 0)
    ensures r.1.Err? ==> r.0 == s
    ensures r.1.Ok? ==> r.1.value == Min(size, AvailableFrames(s)) && r.0 == s.(position := s.position + r.1.value)
  {
    if size == 0 then (s, Err(InvalidPCMLength))
    else if bufferLen < size * s.channels then (s, Err(BufferTooSmall(size * s.channels, bufferLen)))
    else
      var frames := Min(size, s.pcmLength - s.position);
      if s.backing == Decoder && frames == 0 then (s, Err(InvalidOperation))
      else (s.(position := s.position + frames), Ok(frames))
  }

  /** `seek`: the cursor moves to `target` when it lies inside the stream. */
  function SeekStep(s: ReaderState, target: nat): (r: (ReaderState, Result<(), AudioError>))
    ensures r.1.Ok? <==> target <= s.pcmLength
    ensures r.1.Ok? ==> r.0 == s.(position := target) && r.0.Valid()
    ensures r.1.Err? ==> r.0 == s && r.1.error == SeekError(MA_INVALID_ARGS)
  {
    if target <= s.pcmLength then (s.(position := target), Ok(())) else (s, Err(SeekError(MA_INVALID_ARGS)))
  }

  /** Reads never run the cursor past the end, and they move it by exactly what they return. */
  lemma {:induction false} ReadsStayInside(s: ReaderState, bufferLen: nat, sizes: seq<nat>)
    requires s.Valid()
    ensures ReadAll(s, bufferLen, sizes).0.Valid()
    ensures ReadAll(s, bufferLen, sizes).0.position == s.position + ReadAll(s, bufferLen, sizes).1
    decreases |sizes|
  {
    if sizes != [] {
      var (s1, r) := ReadStep(s, bufferLen, sizes[0]);
      ReadsStayInside(s1, bufferLen, sizes[1..]);
    }
  }

  /** Total frames delivered by a series of reads (failed reads deliver none). */
  function ReadAll(s: ReaderState, bufferLen: nat, sizes: seq<nat>): (r: (ReaderState, nat))
    requires s.Valid()
    ensures r.0.Valid() && r.0.pcmLength == s.pcmLength
    decreases |sizes|
  {
    if sizes == [] then (s, 0)
    else
      var (s1, r) := ReadStep(s, bufferLen, sizes[0]);
      var (s2, total) := ReadAll(s1, bufferLen, sizes[1..]);
      (s2, total + if r.Ok? then r.value else 0)
  }

  /** A reader (`AudioReader`): the cursor is updated in place by `Read` and `Seek`. */
  class Reader {
    const backing: Backing
    const sampleRate: nat
    const channels: nat
    const pcmLength: nat
    var position: nat

    ghost predicate Valid()
      reads this
    {
      position <= pcmLength
    }

    function State(): ReaderState
      reads this
    {
      ReaderState(backing, sampleRate, channels, pcmLength, position)
    }

    /** Every reader a loader builds starts at frame 0. */
    constructor (config: ReaderConfig)
      ensures Valid() && position == 0
      ensures backing == config.backing && sampleRate == config.sampleRate
      ensures channels == config.channels && pcmLength == config.pcmLength
    {
      backing := config.backing;
      sampleRate := config.sampleRate;
      channels := config.channels;
      pcmLength := config.pcmLength;
      position := 0;
    }

    function AvailableFrames(): (n: nat)
      reads this
      requires Valid()
      ensures n + position == pcmLength
    {
      pcmLength - position
    }

    method Read(bufferLen: nat, size: nat) returns (r: Result<nat, AudioError>)
      requires Valid()
      modifies this
      ensures Valid()
      ensures (State(), r) == ReadStep(old(State()), bufferLen, size)
    {
      if size == 0 {
        return Err(InvalidPCMLength);
      }
      if bufferLen < size * channels {
        return Err(BufferTooSmall(size * channels, bufferLen));
      }
      var frames := Min(size, pcmLength - position);
      if backing == Decoder && frames == 0 {
        return Err(InvalidOperation);
      }
      position := position + frames;
      return Ok(frames);
    }

    method Seek(target: nat) returns (r: Result<(), AudioError>)
      modifies this
      ensures (State(), r) == SeekStep(old(State()), target)
      ensures r.Ok? ==> Valid()
      ensures r.Err? ==> position == old(position)
    {
      if target > pcmLength {
        return Err(SeekError(MA_INVALID_ARGS));
      }
      position := target;
      return Ok(());
    }
  }

  /** What a loader hands the reader constructor. */
  datatype ReaderConfig = ReaderConfig(backing: Backing, sampleRate: nat, channels: nat, pcmLength: nat)

  /** What miniaudio's decoder reports: the init result code, the length-query code and the length. */
  datatype DecoderReport = DecoderReport(initResult: int, lengthResult: int, pcmLength: nat)

  /** What an Ogg decoder (Opus or Vorbis) produced. */
  datatype OggDecoded = OggDecoded(sampleRate: nat, channels: nat, frames: nat)

  /**
   * The decoder path shared by `load` and `load_file_buffer`: the decoder is
   * configured for stereo at 44100 Hz, and an empty stream is refused.
   */
  function DecoderLoad(d: DecoderReport): (r: Result<ReaderConfig, AudioError>)
    ensures r.Ok? ==> r.value.backing == Decoder && r.value.pcmLength > 0
    ensures r.Ok? ==> r.value.sampleRate == 44100 && r.value.channels == 2
    ensures d.initResult == 0 && d.lengthResult == 0 ==> (r.Ok? <==> d.pcmLength > 0)
    ensures d.initResult == 0 && d.lengthResult == 0 && d.pcmLength == 0 ==> r == Err(InvalidPCMLength)
  {
    if d.initResult != 0 then Err(InitializationError(d.initResult))
    else if d.lengthResult != 0 then Err(InitializationError(d.lengthResult))
    else if d.pcmLength == 0 then Err(InvalidPCMLength)
    else Ok(ReaderConfig(Decoder, 44100, 2, d.pcmLength))
  }

  /** `read_ogg_data_buffer`: sniff the codec, then hand over to the matching decoder. */
  function ReadOggData(bytes: seq<bv8>, opus: Result<OggDecoded, OggError>, vorbis: Result<OggDecoded, OggError>)
    : (r: Result<OggDecoded, OggError>)
    ensures !IsOggBuffer(bytes) ==> r == Err(OggInvalidFileFormat)
    ensures GetOggType(bytes) == Ok(Some(Opus)) ==> r == opus
    ensures GetOggType(bytes) == Ok(Some(Vorbis)) ==> r == vorbis
    ensures GetOggType(bytes) == Ok(Some(UnknownOgg)) ==> r == Err(OggUnknownFormat)
  {
    if !IsOggBuffer(bytes) then Err(OggInvalidFileFormat)
    else match GetOggType(bytes)
      case Err(e) => Err(e)
      case Ok(Some(Opus)) => opus
      case Ok(Some(Vorbis)) => vorbis
      case Ok(_) => Err(OggUnknownFormat)
  }

  /** `load_file_buffer`: Ogg data goes to the Ogg decoders, everything else to miniaudio's decoder. */
  function LoadFileBuffer(bytes: seq<bv8>, opus: Result<OggDecoded, OggError>, vorbis: Result<OggDecoded, OggError>,
                          decoder: DecoderReport): (r: Result<ReaderConfig, AudioError>)
    ensures IsOggBuffer(bytes) && r.Ok? ==> r.value.backing == Buffer
    ensures !IsOggBuffer(bytes) ==> r == DecoderLoad(decoder)
    ensures r.Ok? && r.value.backing == Decoder ==> r.value.pcmLength > 0
  {
    if IsOggBuffer(bytes) then
      match ReadOggData(bytes, opus, vorbis)
      case Err(e) => Err(OggError(e))
      case Ok(d) => Ok(ReaderConfig(Buffer, d.sampleRate, d.channels, d.frames))
    else DecoderLoad(decoder)
  }

  /**
   * `load`: a missing file (`contents == None`) is refused first; Ogg files
   * take the Ogg path; a path with an interior NUL cannot be handed to C.
   */
  function Load(path: string, contents: Option<seq<bv8>>, opus: Result<OggDecoded, OggError>,
                vorbis: Result<OggDecoded, OggError>, decoder: DecoderReport): (r: Result<ReaderConfig, AudioError>)
    ensures contents.None? ==> r == Err(FileNotFound)
    ensures contents.Some? && !IsOggBuffer(contents.value) && '\0' in path ==> r == Err(InvalidFileFormat)
    ensures contents.Some? && !IsOggBuffer(contents.value) && '\0' !in path ==> r == DecoderLoad(decoder)
    ensures r.Ok? && r.value.backing == Decoder ==> r.value.pcmLength > 0
  {
    if contents.None? then Err(FileNotFound)
    else if IsOggBuffer(contents.value) then
      match ReadOggData(contents.value, opus, vorbis)
      case Err(e) => Err(OggError(e))
      case Ok(d) => Ok(ReaderConfig(Buffer, d.sampleRate, d.channels, d.frames))
    else if '\0' in path then Err(InvalidFileFormat)
    else DecoderLoad(decoder)
  }

  /** `load_audio_buffer`: the caller's description is taken as is; only miniaudio can refuse it. */
  function LoadAudioBuffer(sampleRate: nat, channels: nat, pcmLength: nat, initResult: int)
    : (r: Result<ReaderConfig, AudioError>)
    ensures r.Ok? <==> initResult == 0
    ensures r.Ok? ==> r.value == ReaderConfig(Buffer, sampleRate, channels, pcmLength)
    ensures r.Err? ==> r.error == InitializationError(initResult)
  {
    if initResult != 0 then Err(InitializationError(initResult))
    else Ok(ReaderConfig(Buffer, sampleRate, channels, pcmLength))
  }

  // ---- Ogg container sniffing (RFC 3533 section 6, RFC 7845 section 5.1, Vorbis I section 4.2.1)

  /** The capture pattern "OggS" that starts every Ogg page. */
  const OGG_CAPTURE: seq<bv8> := [0x4F, 0x67, 0x67, 0x53]
  /** "OpusHead", the magic signature of an Opus identification header. */
  const OPUS_HEAD: seq<bv8> := [0x4F, 0x70, 0x75, 0x73, 0x48, 0x65, 0x61, 0x64]
  /** Packet type 1 and "vorbis", the common header of a Vorbis identification header. */
  const VORBIS_ID: seq<bv8> := [0x01, 0x76, 0x6F, 0x72, 0x62, 0x69, 0x73]
  /** Where the sniffer looks for the codec signature. */
  const CODEC_OFFSET: nat := 0x1C

  datatype OggType = UnknownOgg | Vorbis | Opus

  /** `is_ogg_buffer`. */
  predicate IsOggBuffer(bytes: seq<bv8>)
  {
    |bytes| >= 4 && bytes[..4] == OGG_CAPTURE
  }

  /** `get_ogg_type`: checks the capture pattern, then reads 8 bytes at 0x1C. */
  function GetOggType(bytes: seq<bv8>): (r: Result<Option<OggType>, OggError>)
    ensures r.Ok? ==> r.value.Some? && IsOggBuffer(bytes) && |bytes| >= CODEC_OFFSET + 8
    ensures |bytes| < 4 ==> r == Err(OggReadError("Failed to read OGG header"))
    ensures |bytes| >= 4 && !IsOggBuffer(bytes) ==> r == Err(OggInvalidFileFormat)
    ensures IsOggBuffer(bytes) && |bytes| < CODEC_OFFSET + 8 ==> r == Err(OggReadError("Failed to read OGG type data"))
    ensures r == Ok(Some(Opus)) <==> IsOggBuffer(bytes) && |bytes| >= CODEC_OFFSET + 8
                                      && bytes[CODEC_OFFSET..CODEC_OFFSET + 8] == OPUS_HEAD
    ensures r == Ok(Some(Vorbis)) <==> IsOggBuffer(bytes) && |bytes| >= CODEC_OFFSET + 8
                                        && bytes[CODEC_OFFSET..CODEC_OFFSET + 8] != OPUS_HEAD
                                        && bytes[CODEC_OFFSET..CODEC_OFFSET + 7] == VORBIS_ID
  {
    if |bytes| < 4 then Err(OggReadError("Failed to read OGG header"))
    else if bytes[..4] != OGG_CAPTURE then Err(OggInvalidFileFormat)
    else if |bytes| < CODEC_OFFSET + 8 then Err(OggReadError("Failed to read OGG type data"))
    else
      var data := bytes[CODEC_OFFSET..CODEC_OFFSET + 8];
      if data == OPUS_HEAD then Ok(Some(Opus))
      else if data[..7] == VORBIS_ID then Ok(Some(Vorbis))
      else Ok(Some(UnknownOgg))
  }

  /** An Ogg page as laid out in section 6 of RFC 3533. */
  datatype OggPage = OggPage(version: bv8, headerType: bv8, granule: seq<bv8>, serial: seq<bv8>,
                             sequence: seq<bv8>, checksum: seq<bv8>, segmentTable: seq<bv8>, body: seq<bv8>)
  {
    ghost predicate WellFormed()
    {
      |granule| == 8 && |serial| == 4 && |sequence| == 4 && |checksum| == 4 && |segmentTable| < 256
    }
  }

  function PageBytes(p: OggPage): (b: seq<bv8>)
    requires p.WellFormed()
    ensures |b| == 27 + |p.segmentTable| + |p.body|
  {
    OGG_CAPTURE + [p.version, p.headerType] + p.granule + p.serial + p.sequence + p.checksum
    + [|p.segmentTable| as bv8] + p.segmentTable + p.body
  }

  /** With a one-entry segment table the first packet starts at byte 0x1C. */
  lemma FirstPacketAtCodecOffset(p: OggPage)
    requires p.WellFormed() && |p.segmentTable| == 1
    ensures IsOggBuffer(PageBytes(p))
    ensures PageBytes(p)[CODEC_OFFSET..] == p.body
  {
    var b := PageBytes(p);
    assert b[..4] == OGG_CAPTURE;
  }

  /** A first page carrying an Opus identification header alone is recognised as Opus. */
  lemma DetectsOpusPage(p: OggPage)
    requires p.WellFormed() && |p.segmentTable| == 1
    requires |p.body| >= 8 && p.body[..8] == OPUS_HEAD
    ensures GetOggType(PageBytes(p)) == Ok(Some(Opus))
  {
    FirstPacketAtCodecOffset(p);
    assert PageBytes(p)[CODEC_OFFSET..CODEC_OFFSET + 8] == p.body[..8];
  }

  /** A first page carrying a Vorbis identification header alone is recognised as Vorbis. */
  lemma DetectsVorbisPage(p: OggPage)
    requires p.WellFormed() && |p.segmentTable| == 1
    requires |p.body| >= 8 && p.body[..7] == VORBIS_ID
    ensures GetOggType(PageBytes(p)) == Ok(Some(Vorbis))
  {
    FirstPacketAtCodecOffset(p);
    var data := PageBytes(p)[CODEC_OFFSET..CODEC_OFFSET + 8];
    assert data == p.body[..8];
    assert data[0] == 0x01 != OPUS_HEAD[0];
    assert data[..7] == VORBIS_ID;
  }

  /**
   * The fixed offset misses a codec header behind a two-entry segment table
   * (an identification header of 255 bytes or more): such a stream is
   * reported as an unknown codec.
   */
  lemma TwoSegmentsMissOpus(p: OggPage)
    requires p.WellFormed() && |p.segmentTable| == 2
    requires |p.body| >= 8 && p.body[..8] == OPUS_HEAD
    ensures GetOggType(PageBytes(p)) == Ok(Some(UnknownOgg))
  {
    var b := PageBytes(p);
    assert b[..4] == OGG_CAPTURE;
    var data := b[CODEC_OFFSET..CODEC_OFFSET + 8];
    assert data[1] == p.body[0] == 0x4F;
    assert data[1] != OPUS_HEAD[1] && data[1] != VORBIS_ID[1];
  }
}
