/**
 * The sample-buffer primitives and frame-index helpers of `utils.rs`.
 * A copy or add whose range does not fit panics in the source; here the
 * methods report that through `panicked` and then leave the arrays alone.
 */
module Utils {
  import opened Wrappers

  const U64_MAX: nat := 0xFFFF_FFFF_FFFF_FFFF

  /** Rust's `as u64` from a float: truncation toward zero, saturating at both ends. */
  function SaturatingCast(x: real): (r: nat)
    ensures r <= U64_MAX
    ensures 0.0 <= x < U64_MAX as real ==> r as real <= x < r as real + 1.0
    ensures x <= 0.0 ==> r == 0
  {
    if x <= 0.0 then 0 else if x >= U64_MAX as real then U64_MAX else x.Floor
  }

  const U32_MAX: nat := 0xFFFF_FFFF

  /** Rust's `as u32` from a float. */
  function SaturatingCastU32(x: real): (r: nat)
    ensures r <= U32_MAX
    ensures 0.0 <= x < U32_MAX as real ==> r as real <= x < r as real + 1.0
    ensures x <= 0.0 ==> r == 0
  {
    if x <= 0.0 then 0 else if x >= U32_MAX as real then U32_MAX else x.Floor
  }

  /** The range test of `array_fast_copy_f32`: it panics exactly when this fails. */
  predicate CopyFits(srcLen: nat, dstLen: nat, srcOffset: nat, dstOffset: nat, length: nat)
  {
    srcOffset + length <= srcLen && dstOffset + length <= dstLen
  }

  /** `dst` after `length` samples of `src` from `srcOffset` were written at `dstOffset`. */
  function Copied(dst: seq<real>, src: seq<real>, srcOffset: nat, dstOffset: nat, length: nat): (r: seq<real>)
    requires CopyFits(|src|, |dst|, srcOffset, dstOffset, length)
  {
    dst[..dstOffset] + src[srcOffset..srcOffset + length] + dst[dstOffset + length..]
  }

  /** What the copy does, sample by sample: the window is taken from `src`, the rest of `dst` is kept. */
  lemma CopiedAt(dst: seq<real>, src: seq<real>, srcOffset: nat, dstOffset: nat, length: nat, j: nat)
    requires CopyFits(|src|, |dst|, srcOffset, dstOffset, length)
    requires j < |dst|
    ensures |Copied(dst, src, srcOffset, dstOffset, length)| == |dst|
    ensures Copied(dst, src, srcOffset, dstOffset, length)[j]
            == if dstOffset <= j < dstOffset + length then src[srcOffset + j - dstOffset] else dst[j]
  {
  }

  /** Copying a window twice is copying it once. */
  lemma CopiedIdempotent(dst: seq<real>, src: seq<real>, srcOffset: nat, dstOffset: nat, length: nat)
    requires CopyFits(|src|, |dst|, srcOffset, dstOffset, length)
    ensures Copied(Copied(dst, src, srcOffset, dstOffset, length), src, srcOffset, dstOffset, length)
            == Copied(dst, src, srcOffset, dstOffset, length)
  {
    var once := Copied(dst, src, srcOffset, dstOffset, length);
    var twice := Copied(once, src, srcOffset, dstOffset, length);
    forall j | 0 <= j < |dst|
      ensures twice[j] == once[j]
    {
      CopiedAt(dst, src, srcOffset, dstOffset, length, j);
      CopiedAt(once, src, srcOffset, dstOffset, length, j);
    }
  }

  /** `array_fast_copy_f32` (the portable loop; the AVX path writes the same samples). */
  method ArrayFastCopy(src: array<real>, dst: array<real>, srcOffset: nat, dstOffset: nat, length: nat)
    returns (panicked: bool)
    requires src != dst
    modifies dst
    ensures panicked <==> !CopyFits(src.Length, dst.Length, srcOffset, dstOffset, length)
    ensures panicked ==> dst[..] == old(dst[..])
    ensures !panicked ==> dst[..] == Copied(old(dst[..]), src[..], srcOffset, dstOffset, length)
  {
    if srcOffset + length > src.Length || dstOffset + length > dst.Length {
      return true;
    }
    var i := 0;
    while i < length
      invariant 0 <= i <= length
      invariant forall j :: 0 <= j < dst.Length && !(dstOffset <= j < dstOffset + i) ==> dst[j] == old(dst[j])
      invariant forall j :: dstOffset <= j < dstOffset + i ==> dst[j] == src[srcOffset + j - dstOffset]
    {
      dst[dstOffset + i] := src[srcOffset + i];
      i := i + 1;
    }
    forall j | 0 <= j < dst.Length
      ensures dst[..][j] == Copied(old(dst[..]), src[..], srcOffset, dstOffset, length)[j]
    {
      CopiedAt(old(dst[..]), src[..], srcOffset, dstOffset, length, j);
    }
    return false;
  }

  /** `array_fast_set_value_f32`: every sample becomes `value`. */
  method ArrayFastSetValue(arr: array<real>, value: real)
    modifies arr
    ensures forall j :: 0 <= j < arr.Length ==> arr[j] == value
  {
    var j := 0;
    while j < arr.Length
      invariant 0 <= j <= arr.Length
      invariant forall k :: 0 <= k < j ==> arr[k] == value
    {
      arr[j] := value;
      j := j + 1;
    }
  }

  /** `dst` after the first `length` samples of `src` were added into it. */
  function Added(dst: seq<real>, src: seq<real>, length: nat): (r: seq<real>)
    requires length <= |src| && length <= |dst|
    ensures |r| == |dst|
  {
    seq(|dst|, j requires 0 <= j < |dst| => if j < length then dst[j] + src[j] else dst[j])
  }

  /**
   * Mixing order does not matter: adding two sources into a buffer gives
   * the same samples whichever is added first.
   */
  lemma AddedCommutes(dst: seq<real>, a: seq<real>, n: nat, b: seq<real>, m: nat)
    requires n <= |a| && n <= |dst| && m <= |b| && m <= |dst|
    ensures Added(Added(dst, a, n), b, m) == Added(Added(dst, b, m), a, n)
  {
  }

  /** Adding into silence is copying. */
  lemma AddedToSilence(src: seq<real>, length: nat)
    requires length <= |src|
    ensures Added(seq(length, _ => 0.0), src, length) == src[..length]
  {
  }

  /** `array_fast_add_value_f32`: mixes the first `length` samples of `src` into `dst`. */
  method ArrayFastAdd(src: array<real>, dst: array<real>, length: nat) returns (panicked: bool)
    requires src != dst
    modifies dst
    ensures panicked <==> length > src.Length || length > dst.Length
    ensures panicked ==> dst[..] == old(dst[..])
    ensures !panicked ==> dst[..] == Added(old(dst[..]), src[..], length)
  {
    if length > src.Length || length > dst.Length {
      return true;
    }
    var j := 0;
    while j < length
      invariant 0 <= j <= length
      invariant forall k :: 0 <= k < j ==> dst[k] == old(dst[k]) + src[k]
      invariant forall k :: j <= k < dst.Length ==> dst[k] == old(dst[k])
    {
      dst[j] := dst[j] + src[j];
      j := j + 1;
    }
    return false;
  }

  /** `PCMIndex`: a frame index handed to the mixer as a delay or duration. */
  datatype PcmIndex = PcmIndex(index: nat)

  /** `PCMIndex::new`: only a positive index is representable. */
  function NewPcmIndex(index: nat): (r: Option<PcmIndex>)
    ensures r.Some? <==> index > 0
    ensures r.Some? ==> r.value.index == index
  {
    if index > 0 then Some(PcmIndex(index)) else None
  }

  /** `PCMIndex::from_secs`. */
  function PcmIndexFromSecs(seconds: real, sampleRate: nat): (r: Option<PcmIndex>)
    ensures r.Some? <==> seconds * sampleRate as real >= 1.0
  {
    NewPcmIndex(SaturatingCast(seconds * sampleRate as real))
  }

  /** `PCMIndex::from_millis`. */
  function PcmIndexFromMillis(milliseconds: real, sampleRate: nat): (r: Option<PcmIndex>)
    ensures r.Some? <==> milliseconds * sampleRate as real / 1000.0 >= 1.0
  {
    NewPcmIndex(SaturatingCast(milliseconds * sampleRate as real / 1000.0))
  }

  /** `into_option_u64`: the frame count an optional index stands for. */
  function IntoOptionU64(p: Option<PcmIndex>): (r: Option<nat>)
    ensures r.Some? <==> p.Some?
    ensures r.Some? ==> r.value == p.value.index
  {
    match p
    case Some(i) => Some(i.index)
    case None => None
  }

  /**
   * An index given to the mixer never stands for frame 0: a zero index
   * becomes `None`, which the mixer reads as "no delay" or "whole source".
   */
  lemma IndexNeverZero(index: nat)
    ensures IntoOptionU64(NewPcmIndex(index)) == if index > 0 then Some(index) else None
    ensures IntoOptionU64(NewPcmIndex(index)) != Some(0)
  {
  }

  /** Milliseconds and seconds name the same frame (exact arithmetic). */
  lemma MillisAgreeWithSecs(milliseconds: real, sampleRate: nat)
    ensures PcmIndexFromMillis(milliseconds, sampleRate) == PcmIndexFromSecs(milliseconds / 1000.0, sampleRate)
  {
    assert milliseconds * sampleRate as real / 1000.0 == (milliseconds / 1000.0) * sampleRate as real;
  }
}
