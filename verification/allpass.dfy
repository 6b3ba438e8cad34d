/** The streaming allpass filter of src/allpass.rs:
      y[p] = -g * x[p] + x[p - d] + g * y[p - d]
    with the input and output histories carried from one `process` call to
    the next and trimmed to the last `delay` samples after each call.

    The filter is modelled as an immutable record; `Process` returns the
    record the Rust method leaves behind in `self`.
 */
module Allpass {
  import opened DelayLine

  /** `output` is the public buffer holding the last block's result. */
  datatype AllPass = AllPass(
    output: seq<real>,
    delay: nat,
    gain: real,
    prevInput: seq<real>,
    prevOutput: seq<real>)

  // ---------------------------------------------------------------------
  // Block-unaware reference
  // ---------------------------------------------------------------------

  /** The doc-comment formula for one output sample, given the input sample
      and the input and output samples `delay` positions back. */
  function AllpassSample(g: real, x: real, xDelayed: real, yDelayed: real): real {
    -g * x + xDelayed + g * yDelayed
  }

  /** The allpass recurrence as a law for the shared `Reference`. */
  function AllpassLaw(g: real): (real, real, real) -> real {
    (x, xd, yd) => AllpassSample(g, x, xd, yd)
  }

  /** The doc-comment recurrence of `process` holds of the reference at
      every stream position `p`, the delayed terms silent while p < d. */
  lemma AllpassReferenceFormula(d: nat, g: real, x: seq<real>, p: nat)
    requires d >= 1 && p < |x|
    ensures Reference(AllpassLaw(g), d, x)[p] ==
      AllpassSample(g, x[p], DelayedAt(x, p, d), DelayedAt(Reference(AllpassLaw(g), d, x), p, d))
  {
    ReferenceFormula(AllpassLaw(g), d, x, p);
  }

  // ---------------------------------------------------------------------
  // The filter
  // ---------------------------------------------------------------------

  /** `prevInput` and `prevOutput` are the last min(delay, T) input and
      reference-output samples of the `T`-sample stream `x` seen so far. */
  ghost predicate Tracks(a: AllPass, x: seq<real>) {
    && a.delay >= 1
    && a.prevInput == Trim(x, a.delay)
    && a.prevOutput == Trim(Reference(AllpassLaw(a.gain), a.delay, x), a.delay)
  }

  /** `AllPass::new`: a filter that has seen no samples. */
  function New(delay: nat, gain: real): (a: AllPass)
    ensures a.delay == delay && a.gain == gain && a.output == []
    ensures delay >= 1 ==> Tracks(a, [])
  {
    AllPass([], delay, gain, [], [])
  }

  /** `update_prev_inout`: each history keeps its last min(len, delay)
      samples; nothing else changes. */
  function UpdatePrevInout(a: AllPass): (r: AllPass)
    ensures r.output == a.output && r.delay == a.delay && r.gain == a.gain
    ensures |r.prevInput| == Min(|a.prevInput|, a.delay)
    ensures r.prevInput == a.prevInput[|a.prevInput| - |r.prevInput|..]
    ensures |r.prevOutput| == Min(|a.prevOutput|, a.delay)
    ensures r.prevOutput == a.prevOutput[|a.prevOutput| - |r.prevOutput|..]
  {
    a.(prevInput := Trim(a.prevInput, a.delay), prevOutput := Trim(a.prevOutput, a.delay))
  }

  /** The shape of `self` at the top of iteration `i` of the loop in
      `process`: `i` samples produced, and both histories end with this
      block's first `i` input and output samples. */
  predicate InLoop(a: AllPass, input: seq<real>, i: nat) {
    && i <= |input|
    && |a.output| == i
    && EndsWith(a.prevInput, input[..i])
    && EndsWith(a.prevOutput, a.output)
  }

  /** One iteration of the loop body of `process`. Both branches of each
      delayed read see the sample `delay` positions back in the running
      history, so the new sample depends on the histories alone. */
  function Step(a: AllPass, input: seq<real>, i: nat): (r: AllPass)
    requires a.delay >= 1 && i < |input| && InLoop(a, input, i)
    ensures r.delay == a.delay && r.gain == a.gain
    ensures InLoop(r, input, i + 1)
    ensures r.prevInput == a.prevInput + [input[i]]
    ensures r.output == a.output + [r.output[i]]
    ensures r.prevOutput == a.prevOutput + [r.output[i]]
    ensures r.output[i] ==
      AllpassSample(a.gain, input[i], Delayed(a.prevInput, a.delay), Delayed(a.prevOutput, a.delay))
  {
    var inDelay :=
      if a.delay > |a.prevInput| then 0.0
      else BlockLookup(a.prevInput, input, i, a.delay);
    var outDelay :=
      if a.delay > |a.prevOutput| then 0.0
      else a.gain * BlockLookup(a.prevOutput, a.output, i, a.delay);
    var value := -a.gain * input[i] + inDelay + outDelay;
    assert inDelay == Delayed(a.prevInput, a.delay);
    assert outDelay == a.gain * Delayed(a.prevOutput, a.delay);
    assert value == AllpassSample(a.gain, input[i], Delayed(a.prevInput, a.delay), Delayed(a.prevOutput, a.delay));
    EndsWithAppend(a.prevInput, input[..i], input[i]);
    assert input[..i] + [input[i]] == input[..i + 1];
    EndsWithAppend(a.prevOutput, a.output, value);
    a.(output := a.output + [value],
       prevOutput := a.prevOutput + [value],
       prevInput := a.prevInput + [input[i]])
  }

  /** The loop of `process` from iteration `i` to the end of the block:
      the block's remaining input is appended to `prevInput`, and the
      samples it produces to both `output` and `prevOutput`. */
  function ProcessFrom(a: AllPass, input: seq<real>, i: nat): (r: AllPass)
    requires a.delay >= 1 && InLoop(a, input, i)
    ensures r.delay == a.delay && r.gain == a.gain
    ensures InLoop(r, input, |input|)
    ensures r.output[..i] == a.output
    ensures r.prevInput == a.prevInput + input[i..]
    ensures r.prevOutput == a.prevOutput + r.output[i..]
    decreases |input| - i
  {
    if i == |input| then a
    else
      var b := Step(a, input, i);
      var r := ProcessFrom(b, input, i + 1);
      assert r.output[..i] == r.output[..i + 1][..i];
      AppendNext(a.prevInput, input, i);
      assert r.output[i] == b.output[i];
      AppendNext(a.prevOutput, r.output, i);
      r
  }

  /** Sample `j` of the loop's result obeys the recurrence, read at its own
      position in the histories the loop leaves behind; `li` and `lo` are
      the history lengths the block started with. */
  lemma {:induction false} ProcessFromSample(a: AllPass, input: seq<real>, i: nat, j: nat, li: nat, lo: nat)
    requires a.delay >= 1 && InLoop(a, input, i) && i <= j < |input|
    requires |a.prevInput| == li + i && |a.prevOutput| == lo + i
    ensures ProcessFrom(a, input, i).output[j] ==
      AllpassSample(a.gain, input[j],
        DelayedAt(ProcessFrom(a, input, i).prevInput, li + j, a.delay),
        DelayedAt(ProcessFrom(a, input, i).prevOutput, lo + j, a.delay))
    decreases j - i
  {
    var b := Step(a, input, i);
    var r := ProcessFrom(a, input, i);
    assert r == ProcessFrom(b, input, i + 1);
    if j == i {
      assert r.output[i] == r.output[..i + 1][i];
      DelayedAtExtend(a.prevInput, input[i..], |a.prevInput|, a.delay);
      DelayedAtExtend(a.prevOutput, r.output[i..], |a.prevOutput|, a.delay);
    } else {
      ProcessFromSample(b, input, i + 1, j, li, lo);
    }
  }

  /** `AllPass::process`: one block in, one block of equal length out;
      afterwards each history holds the newest min(len, delay) samples of
      the old history followed by this block's input or output. */
  function Process(a: AllPass, input: seq<real>): (r: AllPass)
    requires a.delay >= 1
    ensures r.delay == a.delay && r.gain == a.gain
    ensures |r.output| == |input|
    ensures r.prevInput == Trim(a.prevInput + input, a.delay)
    ensures r.prevOutput == Trim(a.prevOutput + r.output, a.delay)
  {
    var start := a.(output := []);
    assert InLoop(start, input, 0);
    var r := ProcessFrom(start, input, 0);
    assert input[0..] == input && r.output[0..] == r.output;
    UpdatePrevInout(r)
  }

  /** Sample `j` of a block follows the doc-comment recurrence, reading the
      delayed input and output at its own position in the old history
      followed by this block (silence while fewer than `delay` samples
      precede it). */
  lemma ProcessSample(a: AllPass, input: seq<real>, j: nat)
    requires a.delay >= 1 && j < |input|
    ensures Process(a, input).output[j] ==
      AllpassSample(a.gain, input[j],
        DelayedAt(a.prevInput + input, |a.prevInput| + j, a.delay),
        DelayedAt(a.prevOutput + Process(a, input).output, |a.prevOutput| + j, a.delay))
  {
    var start := a.(output := []);
    assert InLoop(start, input, 0);
    var r := ProcessFrom(start, input, 0);
    assert input[0..] == input && r.output[0..] == r.output;
    assert r.prevInput == a.prevInput + input;
    assert r.prevOutput == a.prevOutput + r.output;
    ProcessFromSample(start, input, 0, j, |a.prevInput|, |a.prevOutput|);
    assert Process(a, input).output == r.output;
  }

  // ---------------------------------------------------------------------
  // Streaming equals the reference
  // ---------------------------------------------------------------------

  /** Mid-block invariant: after `i` samples of a block that started with
      stream `x`, the block output so far is the reference output and each
      history still covers its stream. */
  ghost predicate Follows(a: AllPass, x: seq<real>, input: seq<real>, i: nat)
    requires i <= |input|
  {
    && a.delay >= 1
    && var w := x + input[..i];
       && a.output == Reference(AllpassLaw(a.gain), a.delay, w)[|x|..]
       && Covers(a.prevInput, w, a.delay)
       && Covers(a.prevOutput, Reference(AllpassLaw(a.gain), a.delay, w), a.delay)
  }

  lemma StepFollows(a: AllPass, x: seq<real>, input: seq<real>, i: nat)
    requires a.delay >= 1 && i < |input| && InLoop(a, input, i)
    requires Follows(a, x, input, i)
    ensures Follows(Step(a, input, i), x, input, i + 1)
  {
    var d, g := a.delay, a.gain;
    var w := x + input[..i];
    var w' := x + input[..i + 1];
    assert w' == w + [input[i]];
    assert w'[..|w'| - 1] == w;
    var y := Reference(AllpassLaw(g), d, w);
    DelayedThroughCover(a.prevInput, w, d);
    DelayedThroughCover(a.prevOutput, y, d);
    var b := Step(a, input, i);
    assert w' != [] && w'[|w'| - 1] == input[i];
    assert Reference(AllpassLaw(g), d, w') == y + [b.output[i]];
    assert b.output == y[|x|..] + [b.output[i]];
    assert (y + [b.output[i]])[|x|..] == y[|x|..] + [b.output[i]];
    CoverExtend(a.prevInput, w, d, input[i]);
    CoverExtend(a.prevOutput, y, d, b.output[i]);
  }

  lemma {:induction false} ProcessFromFollows(a: AllPass, x: seq<real>, input: seq<real>, i: nat)
    requires a.delay >= 1 && InLoop(a, input, i)
    requires Follows(a, x, input, i)
    ensures Follows(ProcessFrom(a, input, i), x, input, |input|)
    decreases |input| - i
  {
    if i < |input| {
      StepFollows(a, x, input, i);
      ProcessFromFollows(Step(a, input, i), x, input, i + 1);
    }
  }

  /** The central law: from a state that tracks stream `x`, one block of
      output is exactly the reference output of `x + input` at stream
      positions |x|.., and the new state tracks `x + input`. */
  lemma ProcessMatchesReference(a: AllPass, x: seq<real>, input: seq<real>)
    requires Tracks(a, x)
    ensures Process(a, input).output == Reference(AllpassLaw(a.gain), a.delay, x + input)[|x|..]
    ensures Tracks(Process(a, input), x + input)
  {
    var d, g := a.delay, a.gain;
    var start := a.(output := []);
    assert x + input[..0] == x;
    TrimCovers(x, d);
    TrimCovers(Reference(AllpassLaw(g), d, x), d);
    assert Follows(start, x, input, 0);
    ProcessFromFollows(start, x, input, 0);
    var r := ProcessFrom(start, input, 0);
    assert x + input[..|input|] == x + input;
    TrimThroughCover(r.prevInput, x + input, d);
    TrimThroughCover(r.prevOutput, Reference(AllpassLaw(g), d, x + input), d);
  }

  /** Local output `i` of a block equals the reference at stream position
      |x| + i. */
  lemma ProcessSampleIsReference(a: AllPass, x: seq<real>, input: seq<real>, i: nat)
    requires Tracks(a, x) && i < |input|
    ensures Process(a, input).output[i] == Reference(AllpassLaw(a.gain), a.delay, x + input)[|x| + i]
  {
    ProcessMatchesReference(a, x, input);
  }

  /** After any call from a tracked state neither history holds more than
      `delay` samples, and an empty block changes nothing but `output`. */
  lemma ProcessBounded(a: AllPass, x: seq<real>, input: seq<real>)
    requires Tracks(a, x)
    ensures |Process(a, input).prevInput| == Min(|x| + |input|, a.delay)
    ensures |Process(a, input).prevOutput| == Min(|x| + |input|, a.delay)
    ensures input == [] ==> Process(a, input) == a.(output := [])
  {
    ProcessMatchesReference(a, x, input);
    if input == [] {
      assert x + input == x;
      assert a.prevInput + input == a.prevInput;
    }
  }

  // ---------------------------------------------------------------------
  // Chunk invariance
  // ---------------------------------------------------------------------

  /** Splitting a block in two changes neither the concatenated output nor
      the final state's histories. */
  lemma ChunkInvariance(a: AllPass, x: seq<real>, u: seq<real>, v: seq<real>)
    requires Tracks(a, x)
    ensures Process(a, u).output + Process(Process(a, u), v).output == Process(a, u + v).output
    ensures Process(Process(a, u), v).prevInput == Process(a, u + v).prevInput
    ensures Process(Process(a, u), v).prevOutput == Process(a, u + v).prevOutput
    ensures Process(Process(a, u), v).delay == Process(a, u + v).delay
    ensures Process(Process(a, u), v).gain == Process(a, u + v).gain
  {
    var d, g := a.delay, a.gain;
    var a1 := Process(a, u);
    ProcessMatchesReference(a, x, u);
    ProcessMatchesReference(a1, x + u, v);
    ProcessMatchesReference(a, x, u + v);
    ReferenceSplit(AllpassLaw(g), d, x, u, v);
    ConcatAssoc(x, u, v);
    var y1, y2 := Reference(AllpassLaw(g), d, x + u), Reference(AllpassLaw(g), d, x + (u + v));
    JoinOutputs(a1.output, Process(a1, v).output, y1[|x|..], y2[|x| + |u|..], y2[|x|..]);
  }

  function Concat(blocks: seq<seq<real>>): seq<real> {
    if blocks == [] then [] else blocks[0] + Concat(blocks[1..])
  }

  /** Feeds `blocks` to the filter in order and collects every block's
      `output`, as the block-wise half of `compare_allpass_outputs` does. */
  function ProcessBlocks(a: AllPass, blocks: seq<seq<real>>): (res: (AllPass, seq<real>))
    requires a.delay >= 1
    ensures res.0.delay == a.delay && res.0.gain == a.gain
    ensures |res.1| == |Concat(blocks)|
    decreases |blocks|
  {
    if blocks == [] then (a, [])
    else
      var a1 := Process(a, blocks[0]);
      var rest := ProcessBlocks(a1, blocks[1..]);
      (rest.0, a1.output + rest.1)
  }

  /** From a tracked state, any sequence of blocks produces the reference
      output of the whole stream and leaves a state tracking it. */
  lemma {:induction false} BlocksMatchReference(a: AllPass, x: seq<real>, blocks: seq<seq<real>>)
    requires Tracks(a, x)
    ensures ProcessBlocks(a, blocks).1 == Reference(AllpassLaw(a.gain), a.delay, x + Concat(blocks))[|x|..]
    ensures Tracks(ProcessBlocks(a, blocks).0, x + Concat(blocks))
    decreases |blocks|
  {
    var d, g := a.delay, a.gain;
    if blocks == [] {
      assert x + Concat(blocks) == x;
    } else {
      var b0, rest := blocks[0], Concat(blocks[1..]);
      var a1 := Process(a, b0);
      ProcessMatchesReference(a, x, b0);
      BlocksMatchReference(a1, x + b0, blocks[1..]);
      ReferenceSplit(AllpassLaw(g), d, x, b0, rest);
      ConcatAssoc(x, b0, rest);
      var y1, y2 := Reference(AllpassLaw(g), d, x + b0), Reference(AllpassLaw(g), d, x + (b0 + rest));
      JoinOutputs(a1.output, ProcessBlocks(a1, blocks[1..]).1, y1[|x|..], y2[|x| + |b0|..], y2[|x|..]);
    }
  }

  /** For any split of a stream into consecutive blocks, block-wise
      processing of a fresh filter equals one call on the whole stream, in
      output and in final histories. */
  lemma BlocksEqualSingleCall(delay: nat, gain: real, blocks: seq<seq<real>>)
    requires delay >= 1
    ensures ProcessBlocks(New(delay, gain), blocks).1 == Process(New(delay, gain), Concat(blocks)).output
    ensures ProcessBlocks(New(delay, gain), blocks).0.prevInput == Process(New(delay, gain), Concat(blocks)).prevInput
    ensures ProcessBlocks(New(delay, gain), blocks).0.prevOutput == Process(New(delay, gain), Concat(blocks)).prevOutput
  {
    var a := New(delay, gain);
    BlocksMatchReference(a, [], blocks);
    ProcessMatchesReference(a, [], Concat(blocks));
    assert [] + Concat(blocks) == Concat(blocks);
  }

  /** The slicing loop of `compare_allpass_outputs`: blocks of `size` samples, the
      last one shorter when `size` does not divide the length. */
  function Chunks(input: seq<real>, size: nat): (blocks: seq<seq<real>>)
    requires size >= 1
    ensures Concat(blocks) == input
    ensures forall k :: 0 <= k < |blocks| ==> 1 <= |blocks[k]| <= size
    decreases |input|
  {
    if input == [] then []
    else if size < |input| then
      assert input == input[..size] + input[size..];
      [input[..size]] + Chunks(input[size..], size)
    else [input]
  }

  /** `compare_allpass_outputs` generalised: for every input, every chunk size and
      every delay, chunked processing equals one call. */
  lemma CompareOutputs(input: seq<real>, sampleSize: nat, delay: nat, gain: real)
    requires sampleSize >= 1 && delay >= 1
    ensures ProcessBlocks(New(delay, gain), Chunks(input, sampleSize)).1 == Process(New(delay, gain), input).output
  {
    BlocksEqualSingleCall(delay, gain, Chunks(input, sampleSize));
  }

  // ---------------------------------------------------------------------
  // The unit tests' concrete cases
  // ---------------------------------------------------------------------

  const Expected10: seq<real> := [-0.5, 0.0, 0.0, 0.75, 0.0, 0.0, 0.375, 0.0, 0.0, 0.1875]

  lemma ReferenceImpulse()
    ensures Reference(AllpassLaw(0.5), 3, Impulse10) == Expected10
  {
    var y := Reference(AllpassLaw(0.5), 3, Impulse10);
    forall p | 0 <= p < 10 {
      AllpassReferenceFormula(3, 0.5, Impulse10, p);
    }
    assert y[0] == -0.5;
    assert y[1] == 0.0 && y[2] == 0.0;
    assert y[3] == 0.75;
    assert y[4] == 0.0 && y[5] == 0.0;
    assert y[6] == 0.375;
    assert y[7] == 0.0 && y[8] == 0.0;
    assert y[9] == 0.1875;
  }

  /** A unit impulse through a fresh allpass with delay 3 and gain 0.5. */
  lemma ImpulseResponse()
    ensures Process(New(3, 0.5), Impulse10).output == Expected10
  {
    ProcessMatchesReference(New(3, 0.5), [], Impulse10);
    assert [] + Impulse10 == Impulse10;
    ReferenceImpulse();
  }

  /** Whatever a single call produces, two consecutive calls on the halves
      produce its first |u| samples and then the rest. */
  lemma SplitOutputs(a: AllPass, x: seq<real>, u: seq<real>, v: seq<real>, e: seq<real>)
    requires Tracks(a, x) && Process(a, u + v).output == e
    ensures Process(a, u).output == e[..|u|]
    ensures Process(Process(a, u), v).output == e[|u|..]
  {
    ChunkInvariance(a, x, u, v);
  }

  /** The same impulse delivered as two blocks of five samples. */
  lemma ImpulseResponseTwoBlocks()
    ensures Process(New(3, 0.5), Impulse10[..5]).output == Expected10[..5]
    ensures Process(Process(New(3, 0.5), Impulse10[..5]), Impulse10[5..]).output == Expected10[5..]
  {
    ImpulseResponse();
    assert Impulse10[..5] + Impulse10[5..] == Impulse10;
    SplitOutputs(New(3, 0.5), [], Impulse10[..5], Impulse10[5..], Expected10);
  }
}
