/**
 * The time-stretch and pitch stage (`AudioFX` in `effects/fx.rs`).
 * The stretch library itself is foreign: its latencies are fixed when the
 * stage is created and passed in here, and the samples it produces are not
 * modelled. What is modelled is the frame accounting the engine builds on
 * it: the `frameAvailable` credit, the size checks and the frame-count
 * conversions.
 */
module Fx {
  import opened Wrappers
  import opened Errors
  import Utils

  /** Input and output latency, in frames, that the stretch library reports. */
  datatype StretchLatency = StretchLatency(input: nat, output: nat)

  /**
   * An `AudioFX` value. Its owner (a channel, mixer or device) holds it by
   * value and replaces it with the updated value, as `&mut self` does.
   */
  datatype Fx = Fx(channels: nat, sampleRate: nat, frameAvailable: int,
                   tempo: real, octave: real, latency: StretchLatency)
  {
    /** The credit never goes negative: every operation below keeps this. */
    ghost predicate Valid() { frameAvailable >= 0 }
  }

  predicate ConfigOk(channels: nat, sampleRate: nat)
  {
    1 <= channels <= 8 && 8000 <= sampleRate <= 192000
  }

  /** `AudioFX::new`. */
  function New(channels: nat, sampleRate: nat, latency: StretchLatency): (r: Result<Fx, AudioError>)
    ensures r.Ok? <==> ConfigOk(channels, sampleRate)
    ensures r.Err? ==> r.error == InvalidConfiguration
    ensures r.Ok? ==> r.value.Valid() && r.value.frameAvailable == 0 && TempoBypass(r.value)
    ensures r.Ok? ==> r.value.octave == 1.0 && r.value.channels == channels && r.value.sampleRate == sampleRate
  {
    if channels < 1 || channels > 8 then Err(InvalidConfiguration)
    else if sampleRate < 8000 || sampleRate > 192000 then Err(InvalidConfiguration)
    else Ok(Fx(channels, sampleRate, 0, 1.0, 1.0, latency))
  }

  /** `tempo_bypass`: the stretcher passes frame counts through unchanged at tempo 1. */
  predicate TempoBypass(fx: Fx) { fx.tempo == 1.0 }

  /** `get_required_input`: input frames needed for `outputFrames` output frames. */
  function GetRequiredInput(fx: Fx, outputFrames: nat): (r: Result<nat, AudioError>)
    ensures r.Err? <==> outputFrames == 0
    ensures r.Err? ==> r.error == InvalidFrameCount
    ensures r.Ok? && TempoBypass(fx) ==> r.value == outputFrames
    ensures r.Ok? && fx.tempo > 0.0 && outputFrames as real * fx.tempo < Utils.U64_MAX as real ==>
              r.value as real <= outputFrames as real * fx.tempo < r.value as real + 1.0
  {
    if outputFrames == 0 then Err(InvalidFrameCount)
    else if TempoBypass(fx) then Ok(outputFrames)
    else Ok(Utils.SaturatingCast(outputFrames as real * fx.tempo))
  }

  /**
   * `get_expected_output`: output frames that `inputFrames` input frames give.
   * A tempo of 0 divides by zero and saturates; a result of 0 is an error.
   */
  function GetExpectedOutput(fx: Fx, inputFrames: nat): (r: Result<nat, AudioError>)
    ensures r.Err? ==> r == Err(InvalidFrameCount)
    ensures inputFrames == 0 ==> r.Err?
    ensures inputFrames > 0 && TempoBypass(fx) ==> r == Ok(inputFrames)
    ensures inputFrames > 0 && !TempoBypass(fx) && fx.tempo > 0.0 && inputFrames as real / fx.tempo < Utils.U64_MAX as real ==>
              (r.Ok? <==> inputFrames as real / fx.tempo >= 1.0)
              && (r.Ok? ==> r.value as real <= inputFrames as real / fx.tempo < r.value as real + 1.0)
    ensures inputFrames > 0 && !TempoBypass(fx) && fx.tempo > 0.0 && inputFrames as real / fx.tempo >= Utils.U64_MAX as real ==>
              r == Ok(Utils.U64_MAX)
    ensures inputFrames > 0 && !TempoBypass(fx) && fx.tempo == 0.0 ==> r == Ok(Utils.U64_MAX)
    ensures inputFrames > 0 && fx.tempo < 0.0 ==> r == Err(InvalidFrameCount)
  {
    if inputFrames == 0 then Err(InvalidFrameCount)
    else if TempoBypass(fx) then Ok(inputFrames)
    else
      var out := if fx.tempo == 0.0 then Utils.U64_MAX else Utils.SaturatingCast(inputFrames as real / fx.tempo);
      if out == 0 then Err(InvalidFrameCount) else Ok(out)
  }

  /**
   * Asking how much input `n` output frames need and then how much output
   * that input gives never promises more than `n` frames.
   */
  lemma {:induction false} RequiredThenExpectedWithin(fx: Fx, n: nat)
    requires n > 0 && fx.tempo > 0.0 && n as real * fx.tempo < Utils.U64_MAX as real
    requires GetRequiredInput(fx, n).Ok? && GetRequiredInput(fx, n).value > 0
    ensures GetExpectedOutput(fx, GetRequiredInput(fx, n).value).Ok? ==>
              GetExpectedOutput(fx, GetRequiredInput(fx, n).value).value <= n
  {
    var k := GetRequiredInput(fx, n).value;
    if !TempoBypass(fx) {
      QuotientBound(k as real, n as real, fx.tempo);
      var e := Utils.SaturatingCast(k as real / fx.tempo);
      assert e as real <= k as real / fx.tempo;
    }
  }

  lemma QuotientBound(k: real, n: real, t: real)
    requires t > 0.0 && 0.0 <= k <= n * t
    ensures k / t <= n
  {
    var q := k / t;
    assert q * t == k;
    if q > n {
      assert (q - n) * t > 0.0;
    }
  }

  /** `set_tempo`: stored unchecked. */
  function SetTempo(fx: Fx, tempo: real): (r: Fx)
    ensures r.tempo == tempo && r.frameAvailable == fx.frameAvailable
    ensures TempoBypass(r) <==> tempo == 1.0
  {
    fx.(tempo := tempo)
  }

  /** `set_octave`: the pitch factor handed to the library, kept for reading back. */
  function SetOctave(fx: Fx, octave: real): (r: Fx)
    ensures r.octave == octave && r.tempo == fx.tempo && r.frameAvailable == fx.frameAvailable
  {
    fx.(octave := octave)
  }

  /** The size check of `pre_process`, and the credit it leaves: exactly the frames it was primed with. */
  function PreProcess(fx: Fx, inputLen: nat, frameCount: nat): (r: Result<Fx, AudioError>)
    ensures r.Err? <==> inputLen < frameCount * fx.channels
    ensures r.Err? ==> r.error == InvalidInputSize(frameCount * fx.channels, inputLen)
    ensures r.Ok? ==> r.value.Valid() && r.value.frameAvailable == frameCount
    ensures r.Ok? ==> r.value.tempo == fx.tempo && r.value.latency == fx.latency
  {
    if inputLen < frameCount * fx.channels then Err(InvalidInputSize(frameCount * fx.channels, inputLen))
    else Ok(fx.(frameAvailable := frameCount))
  }

  /** The size checks of `process`: input first, then output. */
  function Process(fx: Fx, inputLen: nat, inputFrames: nat, outputLen: nat, outputFrames: nat)
    : (r: Option<AudioError>)
    ensures r.None? <==> inputLen >= inputFrames * fx.channels && outputLen >= outputFrames * fx.channels
    ensures inputLen < inputFrames * fx.channels ==> r == Some(InvalidInputSize(inputFrames * fx.channels, inputLen))
  {
    if inputLen < inputFrames * fx.channels then Some(InvalidInputSize(inputFrames * fx.channels, inputLen))
    else if outputLen < outputFrames * fx.channels then Some(InvalidOutputSize(outputFrames * fx.channels, outputLen))
    else None
  }

  /**
   * The credit a source read adds: the output latency once the source has
   * run out (so the library's tail is flushed), otherwise the frames asked for.
   */
  function Credit(fx: Fx, reachedEnd: bool, requested: nat): (r: Fx)
    ensures fx.Valid() ==> r.Valid()
    ensures r.frameAvailable >= fx.frameAvailable
    ensures r == fx.(frameAvailable := r.frameAvailable)
  {
    fx.(frameAvailable := fx.frameAvailable + if reachedEnd then fx.latency.output else requested)
  }

  /**
   * What the stretcher hands out for a request of `requested` frames and the
   * credit it keeps: nothing when there is no credit; otherwise the credit is
   * reduced by the request and, if that goes negative, the request is
   * shortened by the shortfall and the credit reset to 0.
   */
  function Drain(fx: Fx, requested: nat): (r: (Fx, nat))
    requires fx.Valid()
    ensures r.0.Valid()
    ensures r.1 == Min(requested, fx.frameAvailable as nat)
    ensures r.1 + r.0.frameAvailable == fx.frameAvailable
    ensures r.0 == fx.(frameAvailable := r.0.frameAvailable)
  {
    if fx.frameAvailable > 0 then
      var left := fx.frameAvailable - requested;
      if left < 0 then (fx.(frameAvailable := 0), (requested as int + left) as nat)
      else (fx.(frameAvailable := left), requested)
    else (fx, 0)
  }

  /** While the source lasts, a read returns every frame it asked for. */
  lemma SteadyStateDeliversRequest(fx: Fx, requested: nat)
    requires fx.Valid()
    ensures Drain(Credit(fx, false, requested), requested).1 == requested
    ensures Drain(Credit(fx, false, requested), requested).0.frameAvailable == fx.frameAvailable
  {
  }

  /** Total handed out by `count` drains of `requested` frames each (no new credit in between). */
  function TailTotal(fx: Fx, requested: nat, count: nat): (total: nat)
    requires fx.Valid()
    decreases count
  {
    if count == 0 then 0
    else
      var (fx', got) := Drain(fx, requested);
      got + TailTotal(fx', requested, count - 1)
  }

  /** Enough drains without new credit hand out the whole credit, no more and no less. */
  lemma {:induction false} TailTotalIsCredit(fx: Fx, requested: nat, count: nat)
    requires fx.Valid() && count * requested >= fx.frameAvailable
    ensures TailTotal(fx, requested, count) == fx.frameAvailable
    decreases count
  {
    if count > 0 {
      var (fx', got) := Drain(fx, requested);
      assert (count - 1) * requested == count * requested - requested;
      TailTotalIsCredit(fx', requested, count - 1);
    }
  }

  /**
   * After the read that reaches the end of the source, the following reads
   * hand out exactly the remaining credit plus the library's output latency.
   */
  lemma EndFlushesLatency(fx: Fx, requested: nat, count: nat)
    requires fx.Valid() && count * requested >= fx.frameAvailable + fx.latency.output
    ensures TailTotal(Credit(fx, true, requested), requested, count) == fx.frameAvailable + fx.latency.output
  {
    TailTotalIsCredit(Credit(fx, true, requested), requested, count);
  }
}
