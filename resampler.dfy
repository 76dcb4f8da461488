/**
 * The sample-rate converter (`AudioResampler` in `effects/resampler.rs`).
 * miniaudio's linear resampler does the conversion; what is modelled is the
 * bypass rule, the configuration and size checks, and the frame counts. The
 * frame counts outside bypass come from miniaudio; here they are the exact
 * rate ratio rounded down, which stands in for its arithmetic.
 */
module Resampler {
  import opened Wrappers
  import opened Errors

  /**
   * `rateIn` is the input rate miniaudio last accepted. The source hands
   * miniaudio the target as the input rate and the native rate as the
   * output rate, and miniaudio refuses a rate of 0, keeping the old ratio.
   */
  datatype Resampler = Resampler(channels: nat, sampleRate: nat, targetSampleRate: nat, rateIn: nat)
  {
    ghost predicate Valid()
    {
      1 <= channels <= 8 && 8000 <= sampleRate <= 192000 && rateIn > 0
      && (targetSampleRate > 0 ==> rateIn == targetSampleRate)
    }
  }

  /** `AudioResampler::new`: channels are checked before the rate. */
  function New(channels: nat, sampleRate: nat): (r: Result<Resampler, AudioError>)
    ensures r.Ok? <==> 1 <= channels <= 8 && 8000 <= sampleRate <= 192000
    ensures !(1 <= channels <= 8) ==> r == Err(InvalidChannels(channels))
    ensures 1 <= channels <= 8 && !(8000 <= sampleRate <= 192000) ==> r == Err(InvalidSampleRate(sampleRate))
    ensures r.Ok? ==> r.value.Valid() && BypassMode(r.value) && r.value.channels == channels
  {
    if channels < 1 || channels > 8 then Err(InvalidChannels(channels))
    else if sampleRate < 8000 || sampleRate > 192000 then Err(InvalidSampleRate(sampleRate))
    else Ok(Resampler(channels, sampleRate, sampleRate, sampleRate))
  }

  /** `bypass_mode`: no conversion while the target is the native rate. */
  predicate BypassMode(rs: Resampler) { rs.sampleRate == rs.targetSampleRate }

  /** `set_target_sample_rate`: only the target changes (and the ratio, when miniaudio accepts it). */
  function SetTargetSampleRate(rs: Resampler, target: nat): (r: Resampler)
    requires rs.Valid()
    ensures r.Valid()
    ensures r.targetSampleRate == target && r.sampleRate == rs.sampleRate && r.channels == rs.channels
    ensures BypassMode(r) <==> target == rs.sampleRate
  {
    rs.(targetSampleRate := target, rateIn := if target > 0 then target else rs.rateIn)
  }

  /** `get_required_input`: input frames that `outputFrames` output frames consume. */
  function GetRequiredInput(rs: Resampler, outputFrames: nat): (r: Result<nat, AudioError>)
    requires rs.Valid()
    ensures r.Ok?
    ensures BypassMode(rs) ==> r.value == outputFrames
    ensures r.value * rs.sampleRate <= outputFrames * rs.rateIn
  {
    ScaleFacts(outputFrames, rs.rateIn, rs.sampleRate);
    Ok(Scale(outputFrames, rs.rateIn, rs.sampleRate))
  }

  /** `get_expected_output`: output frames that `inputFrames` input frames give. */
  function GetExpectedOutput(rs: Resampler, inputFrames: nat): (r: Result<nat, AudioError>)
    requires rs.Valid()
    ensures r.Ok?
    ensures BypassMode(rs) ==> r.value == inputFrames
    ensures r.value * rs.rateIn <= inputFrames * rs.sampleRate
  {
    ScaleFacts(inputFrames, rs.sampleRate, rs.rateIn);
    Ok(Scale(inputFrames, rs.sampleRate, rs.rateIn))
  }

  /** `n` frames at one rate, counted at another: the exact ratio rounded down. */
  function Scale(n: nat, num: nat, den: nat): nat
    requires den > 0
  {
    n * num / den
  }

  lemma ScaleFacts(n: nat, num: nat, den: nat)
    requires den > 0
    ensures Scale(n, num, den) * den <= n * num
    ensures num == den ==> Scale(n, num, den) == n
  {
    DivBound(n * num, den);
    if num == den {
      MulDivCancel(n, den);
    }
  }

  lemma DivBound(a: nat, b: nat)
    requires b > 0
    ensures (a / b) * b <= a
  {
  }

  lemma MulDivCancel(a: nat, b: nat)
    requires b > 0
    ensures a * b / b == a
  {
    var q := a * b / b;
    var r := a * b % b;
    assert (a - q) * b == r;
    if q < a {
      MulAtLeast(a - q, b);
    } else if q > a {
      MulAtLeast(q - a, b);
    }
  }

  lemma MulAtLeast(x: int, b: nat)
    requires x >= 1
    ensures x * b >= b
  {
    assert x * b == (x - 1) * b + b;
  }

  /** `get_input_latency`: 0 in bypass, otherwise what miniaudio reports (`reported`). */
  function GetInputLatency(rs: Resampler, reported: nat): (r: nat)
    ensures BypassMode(rs) ==> r == 0
    ensures !BypassMode(rs) ==> r == reported
  {
    if BypassMode(rs) then 0 else reported
  }

  /** `get_output_latency`: 0 in bypass, otherwise what miniaudio reports (`reported`). */
  function GetOutputLatency(rs: Resampler, reported: nat): (r: nat)
    ensures BypassMode(rs) ==> r == 0
    ensures !BypassMode(rs) ==> r == reported
  {
    if BypassMode(rs) then 0 else reported
  }

  /**
   * `process`: in bypass it returns the requested output count and touches
   * nothing; otherwise the input and then the output buffer must be large
   * enough, and the conversion yields the requested output frames.
   */
  function Process(rs: Resampler, inputLen: nat, inputFrames: nat, outputLen: nat, outputFrames: nat)
    : (r: Result<nat, AudioError>)
    ensures BypassMode(rs) ==> r == Ok(outputFrames)
    ensures r.Ok? ==> r.value == outputFrames
    ensures !BypassMode(rs) ==>
              (r.Ok? <==> inputLen >= inputFrames * rs.channels && outputLen >= outputFrames * rs.channels)
    ensures !BypassMode(rs) && inputLen < inputFrames * rs.channels ==>
              r == Err(BufferSizeMismatch(inputLen, inputFrames * rs.channels))
  {
    if BypassMode(rs) then Ok(outputFrames)
    else if inputLen < inputFrames * rs.channels then Err(BufferSizeMismatch(inputLen, inputFrames * rs.channels))
    else if outputLen < outputFrames * rs.channels then Err(BufferSizeMismatch(outputLen, outputFrames * rs.channels))
    else Ok(outputFrames)
  }

  /** `pre_process`: in bypass the frame count passes through; otherwise the expected output count. */
  function PreProcess(rs: Resampler, frameCount: nat): (r: Result<nat, AudioError>)
    requires rs.Valid()
    ensures r.Ok?
    ensures BypassMode(rs) ==> r.value == frameCount
  {
    if BypassMode(rs) then Ok(frameCount) else GetExpectedOutput(rs, frameCount)
  }

  /** Converting there and back never needs more input than was asked for. */
  lemma {:induction false} RequiredThenExpectedWithin(rs: Resampler, n: nat)
    requires rs.Valid()
    ensures GetExpectedOutput(rs, GetRequiredInput(rs, n).value).value <= n
  {
    var k := GetRequiredInput(rs, n).value;
    var e := GetExpectedOutput(rs, k).value;
    assert e * rs.rateIn <= k * rs.sampleRate <= n * rs.rateIn;
    CancelFactor(e, n, rs.rateIn);
  }

  lemma CancelFactor(a: nat, b: nat, c: nat)
    requires c > 0 && a * c <= b * c
    ensures a <= b
  {
    if a > b {
      MulAtLeast(a - b, c);
    }
  }

  /** Setting the target back to the native rate restores bypass and the identity frame counts. */
  lemma ResetTargetRestoresBypass(rs: Resampler, n: nat)
    requires rs.Valid()
    ensures BypassMode(SetTargetSampleRate(rs, rs.sampleRate))
    ensures GetRequiredInput(SetTargetSampleRate(rs, rs.sampleRate), n) == Ok(n)
  {
  }
}
