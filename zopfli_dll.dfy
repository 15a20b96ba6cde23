/**
 * The exported compression-scheme entry points that own state: the
 * CompressionContext record and the Compress call that routes on the level,
 * accumulates input, compresses once and drains the stored output.
 */
module ZopfliDll {
  import opened Types
  import opened Session

  /**
   * A compression context. The Zopfli options record and the delegate's own
   * session handle are not part of this model; the options' iteration count
   * is passed to the compressor directly.
   */
  class CompressionContext {
    var inputBuffer: seq<byte>
    var outputBuffer: Option<seq<byte>>
    var outputUsed: nat

    /** The batch fields as a value. */
    function View(): State
      reads this
    {
      State(inputBuffer, outputBuffer, outputUsed)
    }

    /** CreateCompression: a zero-initialised context. */
    constructor ()
      ensures View() == EMPTY
    {
      inputBuffer := [];
      outputBuffer := None;
      outputUsed := 0;
    }

    /** DestroyCompression: releases both buffers and clears every batch field. */
    method Destroy()
      modifies this
      ensures View() == EMPTY
    {
      inputBuffer := [];
      outputBuffer := None;
      outputUsed := 0;
    }

    /** ResetCompression: succeeds and keeps the accumulated state. */
    method Reset() returns (hr: HResult)
      ensures hr == S_OK
    {
      hr := S_OK;
    }

    /** Appends a non-empty chunk to the input buffer (the grow-and-copy of Compress). */
    method Append(chunk: seq<byte>)
      modifies this
      ensures View() == old(View()).(input := old(inputBuffer) + chunk)
    {
      inputBuffer := inputBuffer + chunk;
    }

    /**
     * Copies the next slice of the stored output into the host's buffer and
     * advances the cursor (the drain half of an end-of-input call).
     */
    method DrainInto(output: array<byte>) returns (r: Reply)
      requires Valid(View())
      modifies this, output
      ensures var d := Drain(old(View()), output.Length);
              && r == d.reply && View() == d.state
              && |d.produced| <= output.Length
              && (forall i :: 0 <= i < |d.produced| ==> output[i] == d.produced[i])
              && (forall i :: |d.produced| <= i < output.Length ==> output[i] == old(output[i]))
    {
      var stored := Stored(View());
      if outputUsed == |stored| {
        return Returned(S_FALSE, 0, 0);
      }
      var bytesLeft := |stored| - outputUsed;
      var bytesToCopy := if output.Length < bytesLeft then output.Length else bytesLeft;
      var from := outputUsed;
      forall i | 0 <= i < bytesToCopy {
        output[i] := stored[from + i];
      }
      outputUsed := outputUsed + bytesToCopy;
      r := Returned(if outputUsed == |stored| then S_FALSE else S_OK, 0, bytesToCopy);
    }

    /**
     * An end-of-input call: compresses the whole input buffer while the
     * cursor is at zero, then drains.
     */
    method Finish(output: array<byte>, iterations: int, zopfli: Compressor) returns (r: Reply)
      requires Valid(View())
      modifies this, output
      ensures var e := EndOfInput(old(View()), output.Length, iterations, zopfli);
              && r == e.reply && View() == e.state
              && |e.produced| <= output.Length
              && (forall i :: 0 <= i < |e.produced| ==> output[i] == e.produced[i])
              && (forall i :: |e.produced| <= i < output.Length ==> output[i] == old(output[i]))
    {
      if outputUsed == 0 {
        var compressed := zopfli(inputBuffer, iterations);
        outputBuffer := compressed;
        if compressed.None? {
          return Returned(E_OUTOFMEMORY, 0, 0);
        }
        if |compressed.value| == 0 {
          return Returned(E_FAIL, 0, 0);
        }
      }
      r := DrainInto(output);
    }
  }

  /**
   * Compress: one call from the host, with `input[..inputSize]` offered and
   * `output` as the host's output buffer (its length is the capacity).
   * The new context and the reply are those of Step; on the batch path and
   * for a rejected level the bytes written to the host are too. On levels
   * 0..5 the host's buffer is the delegate's to write and is left unconstrained.
   */
  method Compress(context: CompressionContext?, input: seq<byte>, inputSize: int,
                  output: array<byte>, level: int, zopfli: Compressor)
    returns (r: Reply)
    requires inputSize <= |input|
    requires context != null ==> Valid(context.View())
    modifies context, output
    ensures context == null ==> r == Rejected && output[..] == old(output[..])
    ensures context != null ==>
      var o := Step(old(context.View()), level, input, inputSize, output.Length, zopfli);
      && r == o.reply
      && context.View() == o.state
      && |o.produced| <= output.Length
      && (!(0 <= level <= 5) ==>
            && (forall i :: 0 <= i < |o.produced| ==> output[i] == o.produced[i])
            && (forall i :: |o.produced| <= i < output.Length ==> output[i] == old(output[i])))
  {
    if level < 0 || level > 10 || context == null {
      return Rejected;
    }
    if level <= 5 {
      return Delegated(level * 2);
    }
    if inputSize > 0 {
      context.Append(input[..inputSize]);
      r := Returned(S_OK, inputSize, 0);
    } else {
      r := context.Finish(output, ZOPFLI_ITERATIONS[level - 6], zopfli);
    }
  }
}
