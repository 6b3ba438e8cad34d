/** The feedback comb filter of src/comb.rs, y[i] = x[i] + g * y[i - d],
    modelled as written, including two departures from the textbook comb:

    - the echo is read only when MORE than `delay` outputs are retained
      (`delay >= prev_output.len()` gives silence), so the sample exactly
      `delay` positions after the first one ever produced gets no echo;
    - after a block the history is cut from the current block `output`
      starting at `prev_output.len() - delay`, which keeps `delay - L0`
      samples, `L0` being the history length the block started with.
 */
module Comb {
  import opened DelayLine

  /** `output` is the public buffer holding the last block's result. */
  datatype Comb = Comb(delay: nat, gain: real, output: seq<real>, prevOutput: seq<real>)

  /** One output sample: the input plus `gain` times the delayed output. */
  function CombSample(g: real, x: real, yDelayed: real): real {
    x + g * yDelayed
  }

  /** The delayed output comb.rs reads for the sample at position `q` of its
      running history `s`: silent unless more than `d` samples precede it. */
  function EchoAt(s: seq<real>, q: nat, d: nat): real
    requires d >= 1 && q <= |s|
  {
    if q <= d then 0.0 else s[q - d]
  }

  /** Appending to a history does not change an echo read at an earlier
      position. */
  lemma EchoAtExtend(h: seq<real>, s: seq<real>, q: nat, d: nat)
    requires d >= 1 && q <= |h|
    ensures EchoAt(h + s, q, d) == EchoAt(h, q, d)
  {
  }

  /** The states `process` can run on without panicking: a nonzero delay,
      and no more than `delay` retained outputs, which keeps the slice start
      at line 34 inside the block. */
  predicate Valid(c: Comb) {
    c.delay >= 1 && |c.prevOutput| <= c.delay
  }

  /** `Comb::new`. */
  function New(delay: nat, gain: real): (c: Comb)
    ensures c.delay == delay && c.gain == gain && c.output == [] && c.prevOutput == []
    ensures delay >= 1 ==> Valid(c)
  {
    Comb(delay, gain, [], [])
  }

  /** The shape of `self` at the top of iteration `i` of the loop: `i`
      samples produced, and the history ends with them. */
  predicate InLoop(c: Comb, input: seq<real>, i: nat) {
    && i <= |input|
    && |c.output| == i
    && EndsWith(c.prevOutput, c.output)
  }

  /** One iteration of the loop body. Both branches of the echo read the
      sample `delay` positions back in the running history. */
  function Step(c: Comb, input: seq<real>, i: nat): (r: Comb)
    requires c.delay >= 1 && i < |input| && InLoop(c, input, i)
    ensures r.delay == c.delay && r.gain == c.gain
    ensures InLoop(r, input, i + 1)
    ensures r.output == c.output + [r.output[i]]
    ensures r.prevOutput == c.prevOutput + [r.output[i]]
    ensures r.output[i] ==
      CombSample(c.gain, input[i], EchoAt(c.prevOutput, |c.prevOutput|, c.delay))
  {
    var echo :=
      if c.delay >= |c.prevOutput| then 0.0
      else c.gain * BlockLookup(c.prevOutput, c.output, i, c.delay);
    var value := input[i] + echo;
    assert value == CombSample(c.gain, input[i], EchoAt(c.prevOutput, |c.prevOutput|, c.delay));
    EndsWithAppend(c.prevOutput, c.output, value);
    c.(output := c.output + [value], prevOutput := c.prevOutput + [value])
  }

  /** The loop from iteration `i` to the end of the block: the samples it
      produces are appended to both `output` and `prevOutput`. */
  function ProcessFrom(c: Comb, input: seq<real>, i: nat): (r: Comb)
    requires c.delay >= 1 && InLoop(c, input, i)
    ensures r.delay == c.delay && r.gain == c.gain
    ensures InLoop(r, input, |input|)
    ensures r.output[..i] == c.output
    ensures r.prevOutput == c.prevOutput + r.output[i..]
    decreases |input| - i
  {
    if i == |input| then c
    else
      var b := Step(c, input, i);
      var r := ProcessFrom(b, input, i + 1);
      assert r.output[..i] == r.output[..i + 1][..i];
      assert r.output[i] == b.output[i];
      AppendNext(c.prevOutput, r.output, i);
      r
  }

  /** Sample `j` of the loop's result, in terms of the history the loop
      leaves behind; `l0` is the history length the block started with. */
  lemma {:induction false} ProcessFromSample(c: Comb, input: seq<real>, i: nat, j: nat, l0: nat)
    requires c.delay >= 1 && InLoop(c, input, i) && i <= j < |input|
    requires |c.prevOutput| == l0 + i
    ensures ProcessFrom(c, input, i).output[j] ==
      CombSample(c.gain, input[j], EchoAt(ProcessFrom(c, input, i).prevOutput, l0 + j, c.delay))
    decreases j - i
  {
    var b := Step(c, input, i);
    var r := ProcessFrom(c, input, i);
    assert r == ProcessFrom(b, input, i + 1);
    if j == i {
      assert r.output[i] == r.output[..i + 1][i];
      EchoAtExtend(c.prevOutput, r.output[i..], |c.prevOutput|, c.delay);
    } else {
      ProcessFromSample(b, input, i + 1, j, l0);
    }
  }

  /** Lines 33-35: when the history outgrew `delay`, it is replaced by the
      tail of this block's `output` from index `len - delay`. */
  function TrimHistory(c: Comb): (r: Comb)
    requires |c.prevOutput| <= c.delay + |c.output|
    ensures r.delay == c.delay && r.gain == c.gain && r.output == c.output
    ensures |c.prevOutput| > c.delay ==>
      |r.prevOutput| == c.delay + |c.output| - |c.prevOutput|
      && r.prevOutput == c.output[|c.output| - |r.prevOutput|..]
    ensures |c.prevOutput| <= c.delay ==> r.prevOutput == c.prevOutput
  {
    if |c.prevOutput| > c.delay then
      c.(prevOutput := c.output[|c.prevOutput| - c.delay..])
    else c
  }

  /** `Comb::process`: one block in, one block of equal length out. With
      `L0` the history length at entry, a history that would exceed
      `delay` is replaced by the last `delay - L0` samples of the block;
      otherwise the block is appended to it. Either way at most `delay`
      samples remain. */
  function Process(c: Comb, input: seq<real>): (r: Comb)
    requires Valid(c)
    ensures Valid(r)
    ensures r.delay == c.delay && r.gain == c.gain
    ensures |r.output| == |input|
    ensures |c.prevOutput| + |input| > c.delay ==>
      |r.prevOutput| == c.delay - |c.prevOutput|
      && r.prevOutput == r.output[|input| - |r.prevOutput|..]
    ensures |c.prevOutput| + |input| <= c.delay ==> r.prevOutput == c.prevOutput + r.output
  {
    var start := c.(output := []);
    assert InLoop(start, input, 0);
    var r := ProcessFrom(start, input, 0);
    assert r.output[0..] == r.output;
    TrimHistory(r)
  }

  /** Sample `j` of a block is the input plus `gain` times the output
      `delay` positions back in the old history followed by this block,
      silent while at most `delay` samples precede it. */
  lemma ProcessSample(c: Comb, input: seq<real>, j: nat)
    requires Valid(c) && j < |input|
    ensures Process(c, input).output[j] ==
      CombSample(c.gain, input[j],
        EchoAt(c.prevOutput + Process(c, input).output, |c.prevOutput| + j, c.delay))
  {
    var start := c.(output := []);
    assert InLoop(start, input, 0);
    var r := ProcessFrom(start, input, 0);
    assert Process(c, input).output == r.output;
    assert r.output[0..] == r.output;
    assert r.prevOutput == c.prevOutput + r.output;
    ProcessFromSample(start, input, 0, j, |c.prevOutput|);
  }

  /** On a fresh comb the history is the block itself: sample `j` is the
      input plus `gain` times the output `delay` samples earlier, silent
      while at most `delay` samples precede it. */
  lemma FreshSample(delay: nat, gain: real, input: seq<real>, j: nat)
    requires delay >= 1 && j < |input|
    ensures Process(New(delay, gain), input).output[j] ==
      CombSample(gain, input[j], EchoAt(Process(New(delay, gain), input).output, j, delay))
  {
    var c := New(delay, gain);
    ProcessSample(c, input, j);
    assert c.prevOutput + Process(c, input).output == Process(c, input).output;
  }

  /** Where the echo is heard and the sample it reads lies in this block,
      it is `gain` times the output `delay` samples earlier in the block. */
  lemma EchoWithinBlock(c: Comb, input: seq<real>, j: nat)
    requires Valid(c) && c.delay <= j < |input|
    requires |c.prevOutput| + j > c.delay
    ensures Process(c, input).output[j] ==
      CombSample(c.gain, input[j], Process(c, input).output[j - c.delay])
  {
    ProcessSample(c, input, j);
  }

  /** On a fresh comb the first min(n, delay + 1) outputs equal the inputs:
      the guard keeps the echo silent up to and including position `delay`. */
  lemma FreshPassThrough(delay: nat, gain: real, input: seq<real>, j: nat)
    requires delay >= 1 && j < |input| && j <= delay
    ensures Process(New(delay, gain), input).output[j] == input[j]
  {
    ProcessSample(New(delay, gain), input, j);
  }

  /** `y` follows the comb recurrence over the whole stream `x` from
      silence, each echo silent while at most `d` values precede it. */
  ghost predicate Solves(y: seq<real>, x: seq<real>, d: nat, g: real)
    requires d >= 1
  {
    |y| == |x| && forall j :: 0 <= j < |x| ==> y[j] == CombSample(g, x[j], EchoAt(y, j, d))
  }

  /** A fresh comb's single-call output solves the recurrence. */
  lemma FreshSolves(delay: nat, gain: real, x: seq<real>)
    requires delay >= 1
    ensures Solves(Process(New(delay, gain), x).output, x, delay, gain)
  {
    var y := Process(New(delay, gain), x).output;
    forall j | 0 <= j < |x|
      ensures y[j] == CombSample(gain, x[j], EchoAt(y, j, delay))
    {
      FreshSample(delay, gain, x, j);
    }
  }

  /** The recurrence has one solution: its first `n` values agree. */
  lemma {:induction false} SolutionUnique(a: seq<real>, b: seq<real>, x: seq<real>, d: nat, g: real, n: nat)
    requires d >= 1 && Solves(a, x, d, g) && Solves(b, x, d, g) && n <= |x|
    ensures a[..n] == b[..n]
    decreases n
  {
    if n > 0 {
      var m := n - 1;
      SolutionUnique(a, b, x, d, g, m);
      assert EchoAt(a, m, d) == EchoAt(b, m, d) by {
        if m > d {
          assert a[m - d] == a[..m][m - d];
          assert b[m - d] == b[..m][m - d];
        }
      }
      assert a[m] == b[m];
      assert a[..n] == a[..m] + [a[m]];
      assert b[..n] == b[..m] + [b[m]];
    }
  }

  /** A solution driven by a unit impulse is the impulse itself: no echo
      reaches back to a non-zero sample. */
  lemma {:induction false} ImpulseSolutionSample(y: seq<real>, x: seq<real>, d: nat, g: real, j: nat)
    requires d >= 1 && Solves(y, x, d, g) && IsImpulse(x) && j < |x|
    ensures y[j] == x[j]
    decreases j
  {
    if j > d {
      ImpulseSolutionSample(y, x, d, g, j - d);
      assert y[j - d] == 0.0;
    }
    assert EchoAt(y, j, d) == 0.0;
    assert y[j] == CombSample(g, x[j], 0.0);
  }

  /** A unit impulse through a fresh comb comes out unchanged: with the `>=`
      guard the first echo is suppressed, and every later echo reads a
      silent sample, so no echo is ever heard. */
  lemma FreshImpulseHasNoEcho(delay: nat, gain: real, input: seq<real>)
    requires delay >= 1 && IsImpulse(input)
    ensures Process(New(delay, gain), input).output == input
  {
    var y := Process(New(delay, gain), input).output;
    FreshSolves(delay, gain, input);
    forall j | 0 <= j < |input|
      ensures y[j] == input[j]
    {
      ImpulseSolutionSample(y, input, delay, gain, j);
    }
  }

  // ---------------------------------------------------------------------
  // Concrete witnesses of the two departures
  // ---------------------------------------------------------------------

  /** A unit impulse through `Comb::new(3, 0.5)` comes out with no echo at
      all, where y[3] = 0.5, y[6] = 0.25, y[9] = 0.125 is the comb's
      impulse response. */
  lemma ImpulseNoEcho()
    ensures Process(New(3, 0.5), Impulse10).output == Impulse10
    ensures Process(New(3, 0.5), Impulse10).output[3] == 0.0
  {
    FreshImpulseHasNoEcho(3, 0.5, Impulse10);
  }

  /** The stream 0 0 0 0 0 1 0 0 at delay 2 and gain 0.5: the echo of the
      impulse at position 5 is heard at position 7. */
  lemma EchoSolution(y: seq<real>)
    requires Solves(y, [0.0, 0.0, 0.0, 0.0, 0.0, 1.0, 0.0, 0.0], 2, 0.5)
    ensures y[6..] == [0.0, 0.5]
  {
    assert y[1] == 0.0 && y[2] == 0.0;
    assert y[3] == 0.0 && y[4] == 0.0;
    assert y[5] == 1.0 && y[6] == 0.0;
    assert y[7] == 0.5;
  }

  /** With delay 2 and gain 0.5, the stream 0 0 0 0 0 1 0 0 in one call
      ends with the echo 0.5 of the impulse at position 5. */
  lemma EchoInOneCall()
    ensures Process(New(2, 0.5), [0.0, 0.0, 0.0, 0.0, 0.0, 1.0, 0.0, 0.0]).output[6..] == [0.0, 0.5]
  {
    FreshSolves(2, 0.5, [0.0, 0.0, 0.0, 0.0, 0.0, 1.0, 0.0, 0.0]);
    EchoSolution(Process(New(2, 0.5), [0.0, 0.0, 0.0, 0.0, 0.0, 1.0, 0.0, 0.0]).output);
  }

  /** Once a block starts on a full history, the trim keeps nothing, and
      the next block starts as if the comb were fresh. */
  lemma FullHistoryEmptied(c: Comb, input: seq<real>)
    requires Valid(c) && |c.prevOutput| == c.delay && input != []
    ensures Process(c, input).prevOutput == []
  {
  }

  /** A block that starts with no history cannot echo at its first two
      samples when the delay is 2. */
  lemma SilentStart(c: Comb, input: seq<real>)
    requires Valid(c) && c.delay == 2 && c.prevOutput == [] && input == [0.0, 0.0]
    ensures Process(c, input).output == [0.0, 0.0]
  {
    ProcessSample(c, input, 0);
    ProcessSample(c, input, 1);
  }

  /** The same stream fed as blocks of 3, 3 and 2 samples: the first block
      fills the history, the second block's trim then keeps none of it,
      and the third block comes out silent, losing the echo. */
  lemma TrimLosesHistory()
    ensures Process(Process(New(2, 0.5), [0.0, 0.0, 0.0]), [0.0, 0.0, 1.0]).prevOutput == []
    ensures Process(Process(Process(New(2, 0.5), [0.0, 0.0, 0.0]), [0.0, 0.0, 1.0]), [0.0, 0.0]).output
         == [0.0, 0.0]
  {
    var c1 := Process(New(2, 0.5), [0.0, 0.0, 0.0]);
    FullHistoryEmptied(c1, [0.0, 0.0, 1.0]);
    SilentStart(Process(c1, [0.0, 0.0, 1.0]), [0.0, 0.0]);
  }
}
