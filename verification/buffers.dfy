/**
 * Blocks of samples as the audio callbacks see them.
 *
 * The left channel is always present; the right channel is a buffer that
 * may be absent (a null buffer). Output buffers are passed in with their
 * prior contents and returned, so that "not written" is observable.
 */
module Buffers {
  import opened Wrappers

  datatype Frame = Frame(left: seq<real>, right: Option<seq<real>>)

  /** Every present channel holds at least len samples. */
  predicate Fits(f: Frame, len: nat)
  {
    |f.left| >= len && (f.right.Some? ==> |f.right.value| >= len)
  }

  /** The right channel is processed only when both the input and the output have one. */
  predicate Stereo(input: Frame, output: Frame)
  {
    input.right.Some? && output.right.Some?
  }

  /** Same channels, same lengths. */
  predicate SameShape(a: Frame, b: Frame)
  {
    |a.left| == |b.left| && a.right.Some? == b.right.Some? && (a.right.Some? ==> |a.right.value| == |b.right.value|)
  }

  /** The first len samples of `output` replaced by f applied to the first len samples of `input`. */
  function MapChannel(f: real -> real, input: seq<real>, output: seq<real>, len: nat): (r: seq<real>)
    requires len <= |input| && len <= |output|
    ensures |r| == |output|
    ensures forall i :: 0 <= i < len ==> r[i] == f(input[i])
    ensures r[len..] == output[len..]
  {
    seq(|output|, i requires 0 <= i < |output| => if i < len then f(input[i]) else output[i])
  }

  /** The sample loop of the block helpers, reading index i before writing it. */
  method MapChannelLoop(f: real -> real, input: seq<real>, output: seq<real>, len: nat) returns (r: seq<real>)
    requires len <= |input| && len <= |output|
    ensures r == MapChannel(f, input, output, len)
  {
    r := output;
    var i := 0;
    while i < len
      invariant 0 <= i <= len
      invariant |r| == |output|
      invariant forall k :: 0 <= k < i ==> r[k] == f(input[k])
      invariant r[i..] == output[i..]
    {
      r := r[i := f(input[i])];
      i := i + 1;
    }
  }

  /**
   * The same loop with the input and output pointing at one buffer. Index i
   * is read before it is written and never read again, so working in place
   * gives what working on a copy gives.
   */
  method MapChannelInPlace(f: real -> real, buffer: seq<real>, len: nat) returns (r: seq<real>)
    requires len <= |buffer|
    ensures r == MapChannel(f, buffer, buffer, len)
  {
    r := buffer;
    var i := 0;
    while i < len
      invariant 0 <= i <= len
      invariant |r| == |buffer|
      invariant forall k :: 0 <= k < i ==> r[k] == f(buffer[k])
      invariant r[i..] == buffer[i..]
    {
      r := r[i := f(r[i])];
      i := i + 1;
    }
  }

  /** f applied sample by sample to the first len samples; the right channel only in stereo. */
  function MapFrame(f: real -> real, input: Frame, output: Frame, len: nat): (r: Frame)
    requires Fits(input, len) && Fits(output, len)
    ensures SameShape(r, output)
    ensures forall i :: 0 <= i < len ==> r.left[i] == f(input.left[i])
    ensures r.left[len..] == output.left[len..]
    ensures Stereo(input, output) ==> forall i :: 0 <= i < len ==> r.right.value[i] == f(input.right.value[i])
    ensures Stereo(input, output) ==> r.right.value[len..] == output.right.value[len..]
    ensures !Stereo(input, output) ==> r.right == output.right
  {
    Frame(
      MapChannel(f, input.left, output.left, len),
      if Stereo(input, output) then Some(MapChannel(f, input.right.value, output.right.value, len)) else output.right)
  }

  /** Processing zero samples leaves the output as it was. */
  lemma MapFrameEmpty(f: real -> real, input: Frame, output: Frame)
    requires Fits(input, 0) && Fits(output, 0)
    ensures MapFrame(f, input, output, 0) == output
  {
    var r := MapFrame(f, input, output, 0);
    assert r.left == r.left[0..] == output.left[0..] == output.left;
    if Stereo(input, output) {
      assert r.right.value == r.right.value[0..] == output.right.value[0..] == output.right.value;
    }
  }
}
