/** The plugin pipeline of src/lib.rs: four feedback combs run on one
    input, their sample-wise mean goes through two allpasses in series, and
    the second allpass's fresh samples are the channel's output.

    The filters here are the free functions `comb_filter` and
    `all_pass_filter`, which append to a persistent vector and read the
    delayed output from its end; `all_pass_filter` reads the delayed input
    from the current block only. Every channel of a buffer threads through
    the same state.
 */
module Reverb {
  import opened DelayLine
  import Comb
  import Allpass

  // ---------------------------------------------------------------------
  // comb_filter
  // ---------------------------------------------------------------------

  /** The delayed output both free functions read from the end of the
      vector: `gain` times the value `delay` places back, silent while the
      vector holds at most `delay` values. */
  function EchoFromEnd(out: seq<real>, delay: nat, gain: real): real
    requires delay >= 1
  {
    if delay >= |out| then 0.0 else gain * out[|out| - delay]
  }

  /** Reading `delay` places from the end of a vector is reading the echo
      at its length in any extension of it. */
  lemma EchoFromEndAt(out: seq<real>, r: seq<real>, delay: nat, gain: real)
    requires delay >= 1 && |out| <= |r| && r[..|out|] == out
    ensures EchoFromEnd(out, delay, gain) == gain * Comb.EchoAt(r, |out|, delay)
  {
    if delay < |out| {
      assert r[|out| - delay] == r[..|out|][|out| - delay];
    }
  }

  // Solver aid with no source counterpart: one product identity, stated
  // apart so that `AllPassFilterFromSample` is stable across solver seeds.
  lemma AllpassValue(gain: real, x: real, xd: real, echo: real, yd: real)
    requires echo == gain * yd
    ensures -gain * x + xd + echo == Allpass.AllpassSample(gain, x, xd, yd)
  {
  }

  /** `comb_filter`: appends one sample per input sample to `output`, the
      input plus `gain` times the value `delay` places from the end of the
      vector, silent while the vector holds at most `delay` values. */
  function CombFilter(input: seq<real>, delay: nat, gain: real, output: seq<real>): (r: seq<real>)
    requires delay >= 1
    ensures |r| == |output| + |input|
    ensures r[..|output|] == output
    decreases |input|
  {
    if input == [] then output
    else
      var r := CombFilter(input[1..], delay, gain, output + [input[0] + EchoFromEnd(output, delay, gain)]);
      assert r[..|output|] == r[..|output| + 1][..|output|];
      r
  }

  /** The `k`-th appended value follows the comb recurrence, reading the
      vector as it stood when that value was pushed. */
  lemma {:induction false} CombFilterSample(input: seq<real>, delay: nat, gain: real, output: seq<real>, k: nat)
    requires delay >= 1 && k < |input|
    ensures CombFilter(input, delay, gain, output)[|output| + k] ==
      Comb.CombSample(gain, input[k], Comb.EchoAt(CombFilter(input, delay, gain, output), |output| + k, delay))
    decreases k
  {
    var out' := output + [input[0] + EchoFromEnd(output, delay, gain)];
    var r := CombFilter(input, delay, gain, output);
    assert r == CombFilter(input[1..], delay, gain, out');
    if k == 0 {
      assert r[|output|] == r[..|out'|][|output|];
      EchoFromEndAt(output, r, delay, gain);
    } else {
      CombFilterSample(input[1..], delay, gain, out', k - 1);
    }
  }

  /** Two calls in a row on an untrimmed vector append what one call on
      the concatenated input appends. */
  lemma {:induction false} CombFilterCompose(u: seq<real>, v: seq<real>, delay: nat, gain: real, output: seq<real>)
    requires delay >= 1
    ensures CombFilter(u + v, delay, gain, output) == CombFilter(v, delay, gain, CombFilter(u, delay, gain, output))
    decreases |u|
  {
    if u == [] {
      assert u + v == v;
    } else {
      var out' := output + [u[0] + EchoFromEnd(output, delay, gain)];
      assert (u + v)[0] == u[0] && (u + v)[1..] == u[1..] + v;
      assert CombFilter(u + v, delay, gain, output) == CombFilter(u[1..] + v, delay, gain, out');
      CombFilterCompose(u[1..], v, delay, gain, out');
    }
  }

  /** The values `CombFilter` appends to `hist`. */
  function CombTail(input: seq<real>, delay: nat, gain: real, hist: seq<real>): (t: seq<real>)
    requires delay >= 1
    ensures |t| == |input|
    ensures CombFilter(input, delay, gain, hist) == hist + t
  {
    CombFilter(input, delay, gain, hist)[|hist|..]
  }

  /** The comb recurrence over the old vector followed by the fresh values. */
  lemma CombTailSample(input: seq<real>, delay: nat, gain: real, hist: seq<real>, i: nat)
    requires delay >= 1 && i < |input|
    ensures CombTail(input, delay, gain, hist)[i] ==
      Comb.CombSample(gain, input[i], Comb.EchoAt(hist + CombTail(input, delay, gain, hist), |hist| + i, delay))
  {
    CombFilterSample(input, delay, gain, hist, i);
  }

  /** On an empty vector `comb_filter` produces what a fresh `Comb` of
      comb.rs produces in one call: both read the echo under the same
      `delay >= len` guard. */
  lemma CombFilterMatchesComb(x: seq<real>, delay: nat, gain: real)
    requires delay >= 1
    ensures CombFilter(x, delay, gain, []) == Comb.Process(Comb.New(delay, gain), x).output
  {
    var a := CombFilter(x, delay, gain, []);
    var b := Comb.Process(Comb.New(delay, gain), x).output;
    CombFilterSolves(x, delay, gain);
    Comb.FreshSolves(delay, gain, x);
    Comb.SolutionUnique(a, b, x, delay, gain, |x|);
    assert a == a[..|x|] && b == b[..|x|];
  }

  lemma CombFilterSolves(x: seq<real>, delay: nat, gain: real)
    requires delay >= 1
    ensures Comb.Solves(CombFilter(x, delay, gain, []), x, delay, gain)
  {
    var a := CombFilter(x, delay, gain, []);
    forall j | 0 <= j < |x|
      ensures a[j] == Comb.CombSample(gain, x[j], Comb.EchoAt(a, j, delay))
    {
      CombFilterSample(x, delay, gain, [], j);
    }
  }

  /** The trim in `process` leaves exactly `delay` values, which the
      `delay >= len` guard then treats as too few: with delay 1 and gain
      0.5 the stream 0 1 0 in one call echoes the 1 at its last sample, but
      fed as 0 1 and then 0, with the vector trimmed in between, the echo
      is lost. */
  lemma TrimSilencesFirstEcho()
    ensures CombFilter([0.0, 1.0, 0.0], 1, 0.5, []) == [0.0, 1.0, 0.5]
    ensures CombFilter([0.0], 1, 0.5, Trim(CombFilter([0.0, 1.0], 1, 0.5, []), 1)) == [1.0, 0.0]
  {
    var whole := CombFilter([0.0, 1.0, 0.0], 1, 0.5, []);
    CombFilterSample([0.0, 1.0, 0.0], 1, 0.5, [], 0);
    CombFilterSample([0.0, 1.0, 0.0], 1, 0.5, [], 1);
    CombFilterSample([0.0, 1.0, 0.0], 1, 0.5, [], 2);
    var first := CombFilter([0.0, 1.0], 1, 0.5, []);
    CombFilterSample([0.0, 1.0], 1, 0.5, [], 0);
    CombFilterSample([0.0, 1.0], 1, 0.5, [], 1);
    assert Trim(first, 1) == [1.0];
    CombFilterSample([0.0], 1, 0.5, [1.0], 0);
  }

  // ---------------------------------------------------------------------
  // all_pass_filter
  // ---------------------------------------------------------------------

  /** The loop of `all_pass_filter` from iteration `k`: the delayed input is
      read from this block only, the delayed output from the end of the
      vector. */
  function AllPassFilterFrom(input: seq<real>, delay: nat, gain: real, out: seq<real>, k: nat): (r: seq<real>)
    requires delay >= 1 && k <= |input|
    ensures |r| == |out| + |input| - k
    ensures r[..|out|] == out
    decreases |input| - k
  {
    if k == |input| then out
    else
      var inDelay := if k < delay then 0.0 else input[k - delay];
      var value := -gain * input[k] + inDelay + EchoFromEnd(out, delay, gain);
      var r := AllPassFilterFrom(input, delay, gain, out + [value], k + 1);
      assert r[..|out|] == r[..|out| + 1][..|out|];
      r
  }

  /** `all_pass_filter`: appends one value per input sample to `output`. */
  function AllPassFilter(input: seq<real>, delay: nat, gain: real, output: seq<real>): (r: seq<real>)
    requires delay >= 1
    ensures |r| == |output| + |input|
    ensures r[..|output|] == output
  {
    AllPassFilterFrom(input, delay, gain, output, 0)
  }

  /** Value `j` appended by the loop follows the allpass formula, with the
      delayed input taken from the block and the delayed output from the
      vector as it stood; `l0` is the vector length before the call. */
  lemma {:induction false} AllPassFilterFromSample(input: seq<real>, delay: nat, gain: real, out: seq<real>, k: nat, j: nat, l0: nat)
    requires delay >= 1 && k <= j < |input| && |out| == l0 + k
    ensures AllPassFilterFrom(input, delay, gain, out, k)[l0 + j] ==
      Allpass.AllpassSample(gain, input[j], DelayedAt(input, j, delay),
        Comb.EchoAt(AllPassFilterFrom(input, delay, gain, out, k), l0 + j, delay))
    decreases j - k
  {
    var inDelay := if k < delay then 0.0 else input[k - delay];
    var outDelay := EchoFromEnd(out, delay, gain);
    var value := -gain * input[k] + inDelay + outDelay;
    var out' := out + [value];
    var r := AllPassFilterFrom(input, delay, gain, out, k);
    assert r == AllPassFilterFrom(input, delay, gain, out', k + 1);
    if j == k {
      assert r[l0 + k] == r[..|out'|][|out|];
      assert inDelay == DelayedAt(input, k, delay);
      EchoFromEndAt(out, r, delay, gain);
      assert r[l0 + j] == value;
      assert outDelay == gain * Comb.EchoAt(r, l0 + j, delay);
      AllpassValue(gain, input[k], inDelay, outDelay, Comb.EchoAt(r, l0 + j, delay));
      assert value == Allpass.AllpassSample(gain, input[k], inDelay, Comb.EchoAt(r, l0 + j, delay));
      assert input[k] == input[j] && inDelay == DelayedAt(input, j, delay);
      assert r[l0 + j] == Allpass.AllpassSample(gain, input[j], DelayedAt(input, j, delay), Comb.EchoAt(r, l0 + j, delay));
    } else {
      AllPassFilterFromSample(input, delay, gain, out', k + 1, j, l0);
      assert r[l0 + j] == Allpass.AllpassSample(gain, input[j], DelayedAt(input, j, delay), Comb.EchoAt(r, l0 + j, delay));
    }
  }

  /** The values `AllPassFilter` appends to `hist`. */
  function AllPassTail(input: seq<real>, delay: nat, gain: real, hist: seq<real>): (t: seq<real>)
    requires delay >= 1
    ensures |t| == |input|
    ensures AllPassFilter(input, delay, gain, hist) == hist + t
  {
    AllPassFilter(input, delay, gain, hist)[|hist|..]
  }

  /** The allpass formula over this block's input and over the old vector
      followed by the fresh values. */
  lemma AllPassTailSample(input: seq<real>, delay: nat, gain: real, hist: seq<real>, i: nat)
    requires delay >= 1 && i < |input|
    ensures AllPassTail(input, delay, gain, hist)[i] ==
      Allpass.AllpassSample(gain, input[i], DelayedAt(input, i, delay),
        Comb.EchoAt(hist + AllPassTail(input, delay, gain, hist), |hist| + i, delay))
  {
    AllPassFilterFromSample(input, delay, gain, hist, 0, i, |hist|);
  }

  /** No input history is carried: with delay 1 and gain 0.5, the stream
      1 0 in one call gives -0.5 1, but in two calls the second value
      loses the delayed input and comes out 0. */
  lemma InputHistoryNotCarried()
    ensures AllPassFilter([1.0, 0.0], 1, 0.5, []) == [-0.5, 1.0]
    ensures AllPassFilter([0.0], 1, 0.5, AllPassFilter([1.0], 1, 0.5, [])) == [-0.5, 0.0]
  {
    var y := AllPassFilter([1.0, 0.0], 1, 0.5, []);
    AllPassTailSample([1.0, 0.0], 1, 0.5, [], 0);
    AllPassTailSample([1.0, 0.0], 1, 0.5, [], 1);
    assert [] + y == y;
    var y1 := AllPassFilter([1.0], 1, 0.5, []);
    AllPassTailSample([1.0], 1, 0.5, [], 0);
    assert [] + y1 == y1;
    var t := AllPassTail([0.0], 1, 0.5, y1);
    AllPassTailSample([0.0], 1, 0.5, y1, 0);
  }

  // ---------------------------------------------------------------------
  // The plugin state and its per-channel pipeline
  // ---------------------------------------------------------------------

  const Comb1Delay: nat := 1621 * 2
  const Comb2Delay: nat := 1400 * 2
  const Comb3Delay: nat := 1819 * 2
  const Comb4Delay: nat := 1843 * 2
  const CombMult: real := 1.0
  const Comb1Gain: real := 0.876 * CombMult
  const Comb2Gain: real := 0.900 * CombMult
  const Comb3Gain: real := 0.852 * CombMult
  const Comb4Gain: real := 0.831 * CombMult
  const Ap1Delay: nat := 451
  const Ap1Gain: real := 0.7
  const Ap2Delay: nat := 199
  const Ap2Gain: real := 0.7

  /** The plugin's fields; `combSum` and `ap2Input` hold the last channel's
      intermediate signals. */
  datatype Reverb = Reverb(
    sampleRate: real,
    comb1Out: seq<real>,
    comb2Out: seq<real>,
    comb3Out: seq<real>,
    comb4Out: seq<real>,
    combSum: seq<real>,
    ap1Output: seq<real>,
    ap2Input: seq<real>,
    ap2Output: seq<real>)

  /** Every filter vector holds the last min(t, delay) values it was given,
      `t` being the number of samples processed so far. */
  predicate HistoryLengths(r: Reverb, t: nat) {
    Lengths(r) == Caps(t)
  }

  /** The lengths of the six filter vectors, combs first. */
  function Lengths(r: Reverb): seq<nat> {
    [|r.comb1Out|, |r.comb2Out|, |r.comb3Out|, |r.comb4Out|, |r.ap1Output|, |r.ap2Output|]
  }

  /** What each vector holds after `t` samples: min(t, delay). */
  function Caps(t: nat): seq<nat> {
    [Min(t, Comb1Delay), Min(t, Comb2Delay), Min(t, Comb3Delay), Min(t, Comb4Delay),
     Min(t, Ap1Delay), Min(t, Ap2Delay)]
  }

  /** No filter vector holds more than its delay. */
  predicate Bounded(r: Reverb) {
    && |r.comb1Out| <= Comb1Delay
    && |r.comb2Out| <= Comb2Delay
    && |r.comb3Out| <= Comb3Delay
    && |r.comb4Out| <= Comb4Delay
    && |r.ap1Output| <= Ap1Delay
    && |r.ap2Output| <= Ap2Delay
  }

  /** `Reverb::new`: the 44.1 kHz default rate and empty vectors. */
  function New(): (r: Reverb)
    ensures r.sampleRate == 44100.0
    ensures HistoryLengths(r, 0)
    ensures r.combSum == [] && r.ap2Input == []
  {
    Reverb(44100.0, [], [], [], [], [], [], [], [])
  }

  /** The last `n` values of `s`: the `len - samples` slices. */
  function Tail(s: seq<real>, n: nat): (t: seq<real>)
    requires n <= |s|
    ensures |t| == n
  {
    s[|s| - n..]
  }

  /** The mean of four comb outputs at one sample. */
  function Mean4(a: real, b: real, c: real, d: real): real {
    (a + b + c + d) / 4.0
  }

  /** The loop filling `comb_sum`: the sample-wise mean of four equally
      long comb outputs. */
  function CombMean(t1: seq<real>, t2: seq<real>, t3: seq<real>, t4: seq<real>): (m: seq<real>)
    requires |t2| == |t1| && |t3| == |t1| && |t4| == |t1|
    ensures |m| == |t1|
    ensures forall i :: 0 <= i < |t1| ==> m[i] == Mean4(t1[i], t2[i], t3[i], t4[i])
    decreases |t1|
  {
    if t1 == [] then []
    else [Mean4(t1[0], t2[0], t3[0], t4[0])] + CombMean(t1[1..], t2[1..], t3[1..], t4[1..])
  }

  /** The body of the channel loop of `Reverb::process`, for one channel:
      the new state and the channel's output buffer. Every tail slice lies
      inside its vector because the filter before it has just appended
      `samples` values; every history keeps its last min(len, delay)
      values. */
  function ProcessChannel(r: Reverb, input: seq<real>): (res: (Reverb, seq<real>))
    ensures |res.1| == |input|
    ensures res.0.sampleRate == r.sampleRate
    ensures |res.0.combSum| == |input| && |res.0.ap2Input| == |input|
    ensures Bounded(res.0)
  {
    var n := |input|;
    var c1 := CombFilter(input, Comb1Delay, Comb1Gain, r.comb1Out);
    var c2 := CombFilter(input, Comb2Delay, Comb2Gain, r.comb2Out);
    var c3 := CombFilter(input, Comb3Delay, Comb3Gain, r.comb3Out);
    var c4 := CombFilter(input, Comb4Delay, Comb4Gain, r.comb4Out);
    var t1, t2, t3, t4 := Tail(c1, n), Tail(c2, n), Tail(c3, n), Tail(c4, n);
    var sum := CombMean(t1, t2, t3, t4);
    var ap1 := AllPassFilter(sum, Ap1Delay, Ap1Gain, r.ap1Output);
    var ap2In := Tail(ap1, n);
    var ap2 := AllPassFilter(ap2In, Ap2Delay, Ap2Gain, r.ap2Output);
    var out := Tail(ap2, n);
    (Reverb(r.sampleRate,
       Trim(c1, Comb1Delay), Trim(c2, Comb2Delay), Trim(c3, Comb3Delay), Trim(c4, Comb4Delay),
       sum, Trim(ap1, Ap1Delay), ap2In, Trim(ap2, Ap2Delay)),
     out)
  }

  /** The signal flow of one channel in terms of the fresh values each
      filter appends: `comb_sum` is the mean of the four fresh comb values,
      the second allpass runs on the fresh values of the first, the output
      is the fresh values of the second, and every vector is trimmed to the
      newest `delay` values of itself followed by its fresh values. */
  lemma ChannelFlow(r: Reverb, input: seq<real>)
    ensures var s := ProcessChannel(r, input).0;
      var t1 := CombTail(input, Comb1Delay, Comb1Gain, r.comb1Out);
      var t2 := CombTail(input, Comb2Delay, Comb2Gain, r.comb2Out);
      var t3 := CombTail(input, Comb3Delay, Comb3Gain, r.comb3Out);
      var t4 := CombTail(input, Comb4Delay, Comb4Gain, r.comb4Out);
      && (forall i :: 0 <= i < |input| ==> s.combSum[i] == Mean4(t1[i], t2[i], t3[i], t4[i]))
      && s.ap2Input == AllPassTail(s.combSum, Ap1Delay, Ap1Gain, r.ap1Output)
      && ProcessChannel(r, input).1 == AllPassTail(s.ap2Input, Ap2Delay, Ap2Gain, r.ap2Output)
      && s.comb1Out == Trim(r.comb1Out + t1, Comb1Delay)
      && s.comb2Out == Trim(r.comb2Out + t2, Comb2Delay)
      && s.comb3Out == Trim(r.comb3Out + t3, Comb3Delay)
      && s.comb4Out == Trim(r.comb4Out + t4, Comb4Delay)
      && s.ap1Output == Trim(r.ap1Output + s.ap2Input, Ap1Delay)
      && s.ap2Output == Trim(r.ap2Output + ProcessChannel(r, input).1, Ap2Delay)
  {
  }

  /** Sample `i` of a channel through the whole chain: each comb value
      follows the comb recurrence over its vector, the mean feeds the first
      allpass, whose value feeds the second, whose value is the output. */
  lemma ChannelSample(r: Reverb, input: seq<real>, i: nat)
    requires i < |input|
    ensures var s := ProcessChannel(r, input).0;
      var out := ProcessChannel(r, input).1;
      var t1 := CombTail(input, Comb1Delay, Comb1Gain, r.comb1Out);
      var t2 := CombTail(input, Comb2Delay, Comb2Gain, r.comb2Out);
      var t3 := CombTail(input, Comb3Delay, Comb3Gain, r.comb3Out);
      var t4 := CombTail(input, Comb4Delay, Comb4Gain, r.comb4Out);
      && t1[i] == Comb.CombSample(Comb1Gain, input[i], Comb.EchoAt(r.comb1Out + t1, |r.comb1Out| + i, Comb1Delay))
      && t2[i] == Comb.CombSample(Comb2Gain, input[i], Comb.EchoAt(r.comb2Out + t2, |r.comb2Out| + i, Comb2Delay))
      && t3[i] == Comb.CombSample(Comb3Gain, input[i], Comb.EchoAt(r.comb3Out + t3, |r.comb3Out| + i, Comb3Delay))
      && t4[i] == Comb.CombSample(Comb4Gain, input[i], Comb.EchoAt(r.comb4Out + t4, |r.comb4Out| + i, Comb4Delay))
      && s.combSum[i] == Mean4(t1[i], t2[i], t3[i], t4[i])
      && s.ap2Input[i] == Allpass.AllpassSample(Ap1Gain, s.combSum[i], DelayedAt(s.combSum, i, Ap1Delay),
           Comb.EchoAt(r.ap1Output + s.ap2Input, |r.ap1Output| + i, Ap1Delay))
      && out[i] == Allpass.AllpassSample(Ap2Gain, s.ap2Input[i], DelayedAt(s.ap2Input, i, Ap2Delay),
           Comb.EchoAt(r.ap2Output + out, |r.ap2Output| + i, Ap2Delay))
  {
    ChannelFlow(r, input);
    var s := ProcessChannel(r, input).0;
    CombTailSample(input, Comb1Delay, Comb1Gain, r.comb1Out, i);
    CombTailSample(input, Comb2Delay, Comb2Gain, r.comb2Out, i);
    CombTailSample(input, Comb3Delay, Comb3Gain, r.comb3Out, i);
    CombTailSample(input, Comb4Delay, Comb4Gain, r.comb4Out, i);
    AllPassTailSample(s.combSum, Ap1Delay, Ap1Gain, r.ap1Output, i);
    AllPassTailSample(s.ap2Input, Ap2Delay, Ap2Gain, r.ap2Output, i);
  }

  /** On a fresh plugin no filter has anything to echo at the first
      sample: the combs pass it, their mean is the sample itself, and each
      allpass scales it by -0.7, so the first output is 0.49 times the
      first input. */
  lemma FreshFirstSample(input: seq<real>)
    requires |input| >= 1
    ensures ProcessChannel(New(), input).1[0] == 0.49 * input[0]
  {
    var r := New();
    var s := ProcessChannel(r, input).0;
    var x := input[0];
    ChannelSample(r, input, 0);
    assert s.combSum[0] == Mean4(x, x, x, x) == x;
    assert s.ap2Input[0] == Allpass.AllpassSample(Ap1Gain, x, 0.0, 0.0) == -0.7 * x;
    assert ProcessChannel(r, input).1[0] == Allpass.AllpassSample(Ap2Gain, -0.7 * x, 0.0, 0.0);
  }

  /** A channel of `n` samples advances the history lengths from `t` to
      `t + n` samples. */
  lemma ChannelKeepsLengths(r: Reverb, input: seq<real>, t: nat)
    requires HistoryLengths(r, t)
    ensures HistoryLengths(ProcessChannel(r, input).0, t + |input|)
  {
    var n, s := |input|, ProcessChannel(r, input).0;
    var ap1 := AllPassFilter(s.combSum, Ap1Delay, Ap1Gain, r.ap1Output);
    TrimmedLength(CombFilter(input, Comb1Delay, Comb1Gain, r.comb1Out), |r.comb1Out|, n, t, Comb1Delay);
    assert |s.comb1Out| == Min(t + n, Comb1Delay);
    TrimmedLength(CombFilter(input, Comb2Delay, Comb2Gain, r.comb2Out), |r.comb2Out|, n, t, Comb2Delay);
    assert |s.comb2Out| == Min(t + n, Comb2Delay);
    TrimmedLength(CombFilter(input, Comb3Delay, Comb3Gain, r.comb3Out), |r.comb3Out|, n, t, Comb3Delay);
    assert |s.comb3Out| == Min(t + n, Comb3Delay);
    TrimmedLength(CombFilter(input, Comb4Delay, Comb4Gain, r.comb4Out), |r.comb4Out|, n, t, Comb4Delay);
    assert |s.comb4Out| == Min(t + n, Comb4Delay);
    TrimmedLength(ap1, |r.ap1Output|, n, t, Ap1Delay);
    assert |s.ap1Output| == Min(t + n, Ap1Delay);
    TrimmedLength(AllPassFilter(s.ap2Input, Ap2Delay, Ap2Gain, r.ap2Output), |r.ap2Output|, n, t, Ap2Delay);
    assert |s.ap2Output| == Min(t + n, Ap2Delay);
    assert HistoryLengths(s, t + n);
  }

  /** A vector that held min(t, d) values, given `n` more and trimmed to
      `d`, holds min(t + n, d). */
  lemma TrimmedLength(v: seq<real>, before: nat, n: nat, t: nat, d: nat)
    requires |v| == before + n && before == Min(t, d)
    ensures |Trim(v, d)| == Min(t + n, d)
  {
  }

  // ---------------------------------------------------------------------
  // Reverb::process and set_sample_rate
  // ---------------------------------------------------------------------

  /** Runs `step` over the channels in order, each from the state the
      previous one left, collecting one output per channel. */
  function Fold(step: (Reverb, seq<real>) -> (Reverb, seq<real>), r: Reverb, buffer: seq<seq<real>>): (res: (Reverb, seq<seq<real>>))
    ensures |res.1| == |buffer|
    decreases |buffer|
  {
    if buffer == [] then (r, [])
    else
      var first := step(r, buffer[0]);
      var rest := Fold(step, first.0, buffer[1..]);
      (rest.0, [first.1] + rest.1)
  }

  /** Folding over two groups of channels is folding over the first and
      then over the second from the state the first leaves. */
  lemma {:induction false} FoldSplit(step: (Reverb, seq<real>) -> (Reverb, seq<real>), r: Reverb, b1: seq<seq<real>>, b2: seq<seq<real>>)
    ensures Fold(step, r, b1 + b2).0 == Fold(step, Fold(step, r, b1).0, b2).0
    ensures Fold(step, r, b1 + b2).1 == Fold(step, r, b1).1 + Fold(step, Fold(step, r, b1).0, b2).1
    decreases |b1|
  {
    if b1 == [] {
      assert b1 + b2 == b2;
    } else {
      var first := step(r, b1[0]);
      assert (b1 + b2)[0] == b1[0] && (b1 + b2)[1..] == b1[1..] + b2;
      FoldSplit(step, first.0, b1[1..], b2);
      var p1 := Fold(step, first.0, b1[1..]);
      assert [first.1] + (p1.1 + Fold(step, p1.0, b2).1) == ([first.1] + p1.1) + Fold(step, p1.0, b2).1;
    }
  }

  /** A fold whose every step advances the history lengths by its channel
      advances them by all the buffer's samples. */
  lemma {:induction false} FoldLengths(step: (Reverb, seq<real>) -> (Reverb, seq<real>), r: Reverb, buffer: seq<seq<real>>, t: nat)
    requires forall s: Reverb, x: seq<real>, u: nat :: HistoryLengths(s, u) ==> HistoryLengths(step(s, x).0, u + |x|)
    requires HistoryLengths(r, t)
    ensures HistoryLengths(Fold(step, r, buffer).0, t + TotalSamples(buffer))
    decreases |buffer|
  {
    if buffer != [] {
      FoldLengths(step, step(r, buffer[0]).0, buffer[1..], t + |buffer[0]|);
    }
  }

  /** `Reverb::process`: the channels of the buffer, in order, each
      through the same state; the result holds one output buffer per
      channel. */
  function Process(r: Reverb, buffer: seq<seq<real>>): (res: (Reverb, seq<seq<real>>))
    ensures |res.1| == |buffer|
  {
    Fold(ProcessChannel, r, buffer)
  }

  /** The number of samples in all channels of a buffer. */
  function TotalSamples(buffer: seq<seq<real>>): nat {
    if buffer == [] then 0 else |buffer[0]| + TotalSamples(buffer[1..])
  }

  /** After a buffer, every vector holds the last min(t, delay) values,
      counting the samples of every channel: the channels share one state. */
  lemma ProcessKeepsLengths(r: Reverb, buffer: seq<seq<real>>, t: nat)
    requires HistoryLengths(r, t)
    ensures HistoryLengths(Process(r, buffer).0, t + TotalSamples(buffer))
  {
    forall s: Reverb, x: seq<real>, u: nat | HistoryLengths(s, u)
      ensures HistoryLengths(ProcessChannel(s, x).0, u + |x|)
    {
      ChannelKeepsLengths(s, x, u);
    }
    FoldLengths(ProcessChannel, r, buffer, t);
  }

  /** A buffer split into two groups of channels is processed as the first
      group followed by the second from the state the first leaves. */
  lemma ProcessSplit(r: Reverb, b1: seq<seq<real>>, b2: seq<seq<real>>)
    ensures Process(r, b1 + b2).0 == Process(Process(r, b1).0, b2).0
    ensures Process(r, b1 + b2).1 == Process(r, b1).1 + Process(Process(r, b1).0, b2).1
  {
    FoldSplit(ProcessChannel, r, b1, b2);
  }

  /** Channel `k`'s output is what the channel pipeline produces from the
      state left by the channels before it. */
  lemma ProcessChannelOutput(r: Reverb, buffer: seq<seq<real>>, k: nat)
    requires k < |buffer|
    ensures Process(r, buffer).1[k] == ProcessChannel(Process(r, buffer[..k]).0, buffer[k]).1
  {
    var pre, post := buffer[..k], buffer[k..];
    assert buffer == pre + post;
    ProcessSplit(r, pre, post);
    assert post[0] == buffer[k];
  }

  /** A two-channel buffer runs the second channel from the state the
      first leaves. */
  lemma TwoChannels(r: Reverb, x0: seq<real>, x1: seq<real>)
    ensures Process(r, [x0, x1]).0 == ProcessChannel(ProcessChannel(r, x0).0, x1).0
  {
    var s1 := ProcessChannel(r, x0).0;
    assert [x0, x1][0] == x0 && [x0, x1][1..] == [x1];
    assert Fold(ProcessChannel, r, [x0, x1]).0 == Fold(ProcessChannel, s1, [x1]).0;
    assert [x1][0] == x1 && [x1][1..] == [];
    assert Fold(ProcessChannel, s1, [x1]).0 == Fold(ProcessChannel, ProcessChannel(s1, x1).0, []).0;
  }

  /** The channels of one buffer share the comb vectors: while the first
      comb's vector has room, two channels append their fresh values to it
      one after the other, the second channel's echoes reading the first's. */
  lemma SecondChannelAppends(r: Reverb, x0: seq<real>, x1: seq<real>)
    requires |r.comb1Out| + |x0| + |x1| <= Comb1Delay
    ensures var t0 := CombTail(x0, Comb1Delay, Comb1Gain, r.comb1Out);
      Process(r, [x0, x1]).0.comb1Out ==
        r.comb1Out + t0 + CombTail(x1, Comb1Delay, Comb1Gain, r.comb1Out + t0)
  {
    var t0 := CombTail(x0, Comb1Delay, Comb1Gain, r.comb1Out);
    var s1 := ProcessChannel(r, x0).0;
    ChannelFlow(r, x0);
    assert s1.comb1Out == r.comb1Out + t0;
    var t1 := CombTail(x1, Comb1Delay, Comb1Gain, s1.comb1Out);
    ChannelFlow(s1, x1);
    assert ProcessChannel(s1, x1).0.comb1Out == s1.comb1Out + t1;
    TwoChannels(r, x0, x1);
  }

  /** After one sample `x` on channel 0 and one silent sample on channel 1
      of a new plugin, the first comb's vector holds x 0: both channels'
      values, in one vector. */
  lemma ChannelsShareState(x: real)
    ensures Process(New(), [[x], [0.0]]).0.comb1Out == [x, 0.0]
  {
    var r0 := New();
    SecondChannelAppends(r0, [x], [0.0]);
    var t0 := CombTail([x], Comb1Delay, Comb1Gain, []);
    CombTailSample([x], Comb1Delay, Comb1Gain, [], 0);
    assert t0 == [x];
    var t1 := CombTail([0.0], Comb1Delay, Comb1Gain, [x]);
    CombTailSample([0.0], Comb1Delay, Comb1Gain, [x], 0);
    assert t1 == [0.0];
    assert [] + t0 + t1 == [x, 0.0];
  }

  /** `set_sample_rate`: stores the rate and touches nothing else. */
  function SetSampleRate(r: Reverb, rate: real): (s: Reverb)
    ensures s.sampleRate == rate
    ensures s.(sampleRate := r.sampleRate) == r
  {
    r.(sampleRate := rate)
  }

  /** The stored rate plays no part in a channel: the output and every
      vector are the same whatever rate was set. */
  lemma ChannelIgnoresRate(r: Reverb, rate: real, x: seq<real>)
    ensures ProcessChannel(SetSampleRate(r, rate), x).1 == ProcessChannel(r, x).1
    ensures ProcessChannel(SetSampleRate(r, rate), x).0 == SetSampleRate(ProcessChannel(r, x).0, rate)
  {
  }

  /** Nor in a whole buffer. */
  lemma {:induction false} SampleRateIgnored(r: Reverb, rate: real, buffer: seq<seq<real>>)
    ensures Process(SetSampleRate(r, rate), buffer).1 == Process(r, buffer).1
    ensures Process(SetSampleRate(r, rate), buffer).0 == SetSampleRate(Process(r, buffer).0, rate)
    decreases |buffer|
  {
    if buffer != [] {
      ChannelIgnoresRate(r, rate, buffer[0]);
      SampleRateIgnored(ProcessChannel(r, buffer[0]).0, rate, buffer[1..]);
    }
  }
}
