/** The comb filter of src/comb.rs with its two evident slips corrected,
    y[p] = x[p] + g * y[p - d] over the whole stream whatever the blocks:

    - the echo is read as soon as `delay` outputs are retained
      (`delay > prev_output.len()` gives silence), as the allpass does;
    - after a block the history keeps the newest `delay` samples of itself,
      as `update_prev_inout` of the allpass does.

    It shares the state record, the loop shape and the sample formula with
    the as-written model in `Comb`.
 */
module CombCorrected {
  import opened DelayLine
  import Comb

  /** The comb recurrence as a law for the shared `Reference`; the delayed
      input plays no part. */
  function CombLaw(g: real): (real, real, real) -> real {
    (x, xd, yd) => Comb.CombSample(g, x, yd)
  }

  /** The comb recurrence holds of the reference at every stream position
      `p`, the echo silent while p < d. */
  lemma CombReferenceFormula(d: nat, g: real, x: seq<real>, p: nat)
    requires d >= 1 && p < |x|
    ensures Reference(CombLaw(g), d, x)[p] ==
      Comb.CombSample(g, x[p], DelayedAt(Reference(CombLaw(g), d, x), p, d))
  {
    ReferenceFormula(CombLaw(g), d, x, p);
  }

  /** `prevOutput` is the last min(delay, T) reference-output samples of
      the `T`-sample stream `x` seen so far. */
  ghost predicate Tracks(c: Comb.Comb, x: seq<real>) {
    && c.delay >= 1
    && c.prevOutput == Trim(Reference(CombLaw(c.gain), c.delay, x), c.delay)
  }

  /** A fresh comb tracks the empty stream. */
  lemma NewTracks(delay: nat, gain: real)
    requires delay >= 1
    ensures Tracks(Comb.New(delay, gain), [])
  {
  }

  /** One iteration of the loop body with the corrected guard: the echo is
      `gain` times the sample `delay` positions back in the running
      history, silent only while the history is shorter than `delay`. */
  function Step(c: Comb.Comb, input: seq<real>, i: nat): (r: Comb.Comb)
    requires c.delay >= 1 && i < |input| && Comb.InLoop(c, input, i)
    ensures r.delay == c.delay && r.gain == c.gain
    ensures Comb.InLoop(r, input, i + 1)
    ensures r.output == c.output + [r.output[i]]
    ensures r.prevOutput == c.prevOutput + [r.output[i]]
    ensures r.output[i] == Comb.CombSample(c.gain, input[i], Delayed(c.prevOutput, c.delay))
  {
    var echo :=
      if c.delay > |c.prevOutput| then 0.0
      else c.gain * BlockLookup(c.prevOutput, c.output, i, c.delay);
    var value := input[i] + echo;
    assert value == Comb.CombSample(c.gain, input[i], Delayed(c.prevOutput, c.delay));
    EndsWithAppend(c.prevOutput, c.output, value);
    c.(output := c.output + [value], prevOutput := c.prevOutput + [value])
  }

  /** The corrected loop from iteration `i` to the end of the block. */
  function ProcessFrom(c: Comb.Comb, input: seq<real>, i: nat): (r: Comb.Comb)
    requires c.delay >= 1 && Comb.InLoop(c, input, i)
    ensures r.delay == c.delay && r.gain == c.gain
    ensures Comb.InLoop(r, input, |input|)
    ensures r.output[..i] == c.output
    ensures r.prevOutput == c.prevOutput + r.output[i..]
    decreases |input| - i
  {
    if i == |input| then c
    else
      var b := Step(c, input, i);
      var r := ProcessFrom(b, input, i + 1);
      assert r.output[..i] == r.output[..i + 1][..i];
      assert r.output[i] == b.output[i];
      AppendNext(c.prevOutput, r.output, i);
      r
  }

  /** Sample `j` of the corrected loop's result, in terms of the history
      the loop leaves behind; `l0` is the history length at block start. */
  lemma {:induction false} ProcessFromSample(c: Comb.Comb, input: seq<real>, i: nat, j: nat, l0: nat)
    requires c.delay >= 1 && Comb.InLoop(c, input, i) && i <= j < |input|
    requires |c.prevOutput| == l0 + i
    ensures ProcessFrom(c, input, i).output[j] ==
      Comb.CombSample(c.gain, input[j], DelayedAt(ProcessFrom(c, input, i).prevOutput, l0 + j, c.delay))
    decreases j - i
  {
    var b := Step(c, input, i);
    var r := ProcessFrom(c, input, i);
    assert r == ProcessFrom(b, input, i + 1);
    if j == i {
      assert r.output[i] == r.output[..i + 1][i];
      DelayedAtExtend(c.prevOutput, r.output[i..], |c.prevOutput|, c.delay);
    } else {
      ProcessFromSample(b, input, i + 1, j, l0);
    }
  }

  /** The corrected `process`: one block in, one block of equal length
      out; afterwards the history holds the newest min(len, delay) samples
      of the old history followed by this block's output. */
  function Process(c: Comb.Comb, input: seq<real>): (r: Comb.Comb)
    requires c.delay >= 1
    ensures r.delay == c.delay && r.gain == c.gain
    ensures |r.output| == |input|
    ensures r.prevOutput == Trim(c.prevOutput + r.output, c.delay)
  {
    var start := c.(output := []);
    assert Comb.InLoop(start, input, 0);
    var r := ProcessFrom(start, input, 0);
    assert r.output[0..] == r.output;
    r.(prevOutput := Trim(r.prevOutput, r.delay))
  }

  /** Sample `j` of a block is the input plus `gain` times the output
      `delay` positions back in the old history followed by this block,
      silent while fewer than `delay` samples precede it. */
  lemma ProcessSample(c: Comb.Comb, input: seq<real>, j: nat)
    requires c.delay >= 1 && j < |input|
    ensures Process(c, input).output[j] ==
      Comb.CombSample(c.gain, input[j],
        DelayedAt(c.prevOutput + Process(c, input).output, |c.prevOutput| + j, c.delay))
  {
    var start := c.(output := []);
    assert Comb.InLoop(start, input, 0);
    var r := ProcessFrom(start, input, 0);
    assert Process(c, input).output == r.output;
    assert r.output[0..] == r.output;
    assert r.prevOutput == c.prevOutput + r.output;
    ProcessFromSample(start, input, 0, j, |c.prevOutput|);
  }

  // ---------------------------------------------------------------------
  // Streaming equals the reference
  // ---------------------------------------------------------------------

  /** Mid-block invariant: after `i` samples of a block that started with
      stream `x`, the block output so far is the reference output and the
      history still covers it. */
  ghost predicate Follows(c: Comb.Comb, x: seq<real>, input: seq<real>, i: nat)
    requires i <= |input|
  {
    && c.delay >= 1
    && var w := x + input[..i];
       && c.output == Reference(CombLaw(c.gain), c.delay, w)[|x|..]
       && Covers(c.prevOutput, Reference(CombLaw(c.gain), c.delay, w), c.delay)
  }

  lemma StepFollows(c: Comb.Comb, x: seq<real>, input: seq<real>, i: nat)
    requires c.delay >= 1 && i < |input| && Comb.InLoop(c, input, i)
    requires Follows(c, x, input, i)
    ensures Follows(Step(c, input, i), x, input, i + 1)
  {
    var d, g := c.delay, c.gain;
    var w := x + input[..i];
    var w' := x + input[..i + 1];
    assert w' == w + [input[i]];
    var y := Reference(CombLaw(g), d, w);
    DelayedThroughCover(c.prevOutput, y, d);
    var b := Step(c, input, i);
    ReferenceAppend(CombLaw(g), d, w, input[i]);
    assert Reference(CombLaw(g), d, w') == y + [b.output[i]];
    assert (y + [b.output[i]])[|x|..] == y[|x|..] + [b.output[i]];
    CoverExtend(c.prevOutput, y, d, b.output[i]);
  }

  lemma {:induction false} ProcessFromFollows(c: Comb.Comb, x: seq<real>, input: seq<real>, i: nat)
    requires c.delay >= 1 && Comb.InLoop(c, input, i)
    requires Follows(c, x, input, i)
    ensures Follows(ProcessFrom(c, input, i), x, input, |input|)
    decreases |input| - i
  {
    if i < |input| {
      StepFollows(c, x, input, i);
      ProcessFromFollows(Step(c, input, i), x, input, i + 1);
    }
  }

  lemma FollowsToEnd(c: Comb.Comb, x: seq<real>, input: seq<real>)
    requires Follows(c, x, input, |input|)
    ensures c.output == Reference(CombLaw(c.gain), c.delay, x + input)[|x|..]
    ensures Covers(c.prevOutput, Reference(CombLaw(c.gain), c.delay, x + input), c.delay)
  {
    assert input[..|input|] == input;
  }

  /** From a state that tracks stream `x`, one block of output is exactly
      the reference output of `x + input` at stream positions |x|.., and
      the new state tracks `x + input`. */
  lemma ProcessMatchesReference(c: Comb.Comb, x: seq<real>, input: seq<real>)
    requires Tracks(c, x)
    ensures Process(c, input).output == Reference(CombLaw(c.gain), c.delay, x + input)[|x|..]
    ensures Tracks(Process(c, input), x + input)
  {
    var d, g := c.delay, c.gain;
    var start := c.(output := []);
    assert x + input[..0] == x;
    TrimCovers(Reference(CombLaw(g), d, x), d);
    assert Follows(start, x, input, 0);
    ProcessFromFollows(start, x, input, 0);
    var r := ProcessFrom(start, input, 0);
    assert r.delay == d && r.gain == g;
    FollowsToEnd(r, x, input);
    var y := Reference(CombLaw(g), d, x + input);
    TrimThroughCover(r.prevOutput, y, d);
    assert Process(c, input) == r.(prevOutput := Trim(r.prevOutput, d));
  }

  /** Splitting a block in two changes neither the concatenated output nor
      the final history. */
  lemma ChunkInvariance(c: Comb.Comb, x: seq<real>, u: seq<real>, v: seq<real>)
    requires Tracks(c, x)
    ensures Process(c, u).output + Process(Process(c, u), v).output == Process(c, u + v).output
    ensures Process(Process(c, u), v).prevOutput == Process(c, u + v).prevOutput
  {
    var d, g := c.delay, c.gain;
    var c1 := Process(c, u);
    ProcessMatchesReference(c, x, u);
    ProcessMatchesReference(c1, x + u, v);
    ProcessMatchesReference(c, x, u + v);
    ReferenceSplit(CombLaw(g), d, x, u, v);
    ConcatAssoc(x, u, v);
    var y1, y2 := Reference(CombLaw(g), d, x + u), Reference(CombLaw(g), d, x + (u + v));
    JoinOutputs(c1.output, Process(c1, v).output, y1[|x|..], y2[|x| + |u|..], y2[|x|..]);
  }

  // ---------------------------------------------------------------------
  // The textbook impulse response
  // ---------------------------------------------------------------------

  const CombExpected10: seq<real> := [1.0, 0.0, 0.0, 0.5, 0.0, 0.0, 0.25, 0.0, 0.0, 0.125]

  lemma ReferenceImpulse()
    ensures Reference(CombLaw(0.5), 3, Impulse10) == CombExpected10
  {
    var y := Reference(CombLaw(0.5), 3, Impulse10);
    forall p | 0 <= p < 10 {
      CombReferenceFormula(3, 0.5, Impulse10, p);
    }
    assert y[0] == 1.0;
    assert y[1] == 0.0 && y[2] == 0.0;
    assert y[3] == 0.5;
    assert y[4] == 0.0 && y[5] == 0.0;
    assert y[6] == 0.25;
    assert y[7] == 0.0 && y[8] == 0.0;
    assert y[9] == 0.125;
  }

  /** A unit impulse through a fresh corrected comb with delay 3 and gain
      0.5 echoes every 3 samples at half the previous amplitude. */
  lemma ImpulseResponse()
    ensures Process(Comb.New(3, 0.5), Impulse10).output == CombExpected10
  {
    ProcessMatchesReference(Comb.New(3, 0.5), [], Impulse10);
    assert [] + Impulse10 == Impulse10;
    ReferenceImpulse();
  }

  lemma SplitOutputs(c: Comb.Comb, x: seq<real>, u: seq<real>, v: seq<real>, e: seq<real>)
    requires Tracks(c, x) && Process(c, u + v).output == e
    ensures Process(c, u).output == e[..|u|]
    ensures Process(Process(c, u), v).output == e[|u|..]
  {
    ChunkInvariance(c, x, u, v);
  }

  /** The same impulse delivered as two blocks of five samples: the echo at
      position 6 reaches back across the block boundary. */
  lemma ImpulseResponseTwoBlocks()
    ensures Process(Comb.New(3, 0.5), Impulse10[..5]).output == CombExpected10[..5]
    ensures Process(Process(Comb.New(3, 0.5), Impulse10[..5]), Impulse10[5..]).output == CombExpected10[5..]
  {
    ImpulseResponse();
    assert Impulse10[..5] + Impulse10[5..] == Impulse10;
    SplitOutputs(Comb.New(3, 0.5), [], Impulse10[..5], Impulse10[5..], CombExpected10);
  }
}
