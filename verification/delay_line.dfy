/** Trailing-history helpers shared by every delay filter of the crate.

    A history is a `seq<real>` holding the most recent samples of one signal,
    oldest first. The filters read "the sample `delay` positions back" from it
    while they append, and trim it to its last `delay` samples after a block.
 */
module DelayLine {

  function Min(a: nat, b: nat): nat {
    if a <= b then a else b
  }

  /** The sample `d` positions before position `q` of the stream `s`;
      silence (0) while fewer than `d` samples precede `q`. */
  function DelayedAt(s: seq<real>, q: nat, d: nat): real
    requires d >= 1 && q <= |s|
  {
    if q < d then 0.0 else s[q - d]
  }

  /** The sample `d` positions before the next one appended to `s`. */
  function Delayed(s: seq<real>, d: nat): real
    requires d >= 1
  {
    DelayedAt(s, |s|, d)
  }

  /** `if len > d { v = v.split_off(len - d) }`: keeps the newest `d` samples. */
  function Trim(s: seq<real>, d: nat): (r: seq<real>)
    ensures |r| == Min(|s|, d)
    ensures r == s[|s| - |r|..]
  {
    if |s| > d then s[|s| - d..] else s
  }

  /** `h` is a trailing part of the stream `s` that still reaches back
      `d` samples, or to the start of `s` when `s` is shorter. */
  ghost predicate Covers(h: seq<real>, s: seq<real>, d: nat) {
    && |h| <= |s|
    && h == s[|s| - |h|..]
    && |h| >= Min(|s|, d)
  }

  /** A covering history answers every delay-`d` lookup exactly as the
      whole stream would. */
  lemma DelayedThroughCover(h: seq<real>, s: seq<real>, d: nat)
    requires d >= 1 && Covers(h, s, d)
    ensures Delayed(h, d) == Delayed(s, d)
  {
    if d <= |h| {
      assert h[|h| - d] == s[|s| - |h|..][|h| - d];
    }
  }

  lemma CoverExtend(h: seq<real>, s: seq<real>, d: nat, v: real)
    requires Covers(h, s, d)
    ensures Covers(h + [v], s + [v], d)
  {
    assert (s + [v])[|s + [v]| - |h + [v]|..] == s[|s| - |h|..] + [v];
  }

  lemma TrimCovers(s: seq<real>, d: nat)
    ensures Covers(Trim(s, d), s, d)
  {
  }

  /** Trimming a covering history gives the last `d` samples of the stream. */
  lemma TrimThroughCover(h: seq<real>, s: seq<real>, d: nat)
    requires Covers(h, s, d)
    ensures Trim(h, d) == Trim(s, d)
  {
    if |h| > d {
      assert h[|h| - d..] == s[|s| - |h|..][|h| - d..];
    }
  }

  /** The in-loop delayed read of allpass.rs and comb.rs:
      `if i < delay { hist[hist.len() - delay] } else { block[i - delay] }`,
      where the history has already been extended by `block[..i]`.
      Both branches read the same sample. */
  function BlockLookup(hist: seq<real>, block: seq<real>, i: nat, d: nat): (v: real)
    requires 1 <= d <= |hist|
    requires i <= |block| && EndsWith(hist, block[..i])
    ensures v == hist[|hist| - d]
  {
    if i < d then hist[|hist| - d]
    else
      assert hist[|hist| - d] == hist[|hist| - i..][i - d];
      block[i - d]
  }

  // Solver aid with no source counterpart: names associativity so that the
  // chunk proofs stay cheap.
  lemma ConcatAssoc(x: seq<real>, u: seq<real>, v: seq<real>)
    ensures (x + u) + v == x + (u + v)
  {
  }

  /** `h` ends with the samples `s`. */
  predicate EndsWith(h: seq<real>, s: seq<real>) {
    |s| <= |h| && h[|h| - |s|..] == s
  }

  lemma EndsWithAppend(h: seq<real>, s: seq<real>, v: real)
    requires EndsWith(h, s)
    ensures EndsWith(h + [v], s + [v])
  {
    assert (h + [v])[|h + [v]| - |s + [v]|..] == h[|h| - |s|..] + [v];
  }

  lemma AppendNext(h: seq<real>, s: seq<real>, i: nat)
    requires i < |s|
    ensures (h + [s[i]]) + s[i + 1..] == h + s[i..]
  {
    assert s[i..] == [s[i]] + s[i + 1..];
  }

  /** Appending to a stream does not change a delayed read at an earlier
      position. */
  lemma DelayedAtExtend(h: seq<real>, s: seq<real>, q: nat, d: nat)
    requires d >= 1 && q <= |h|
    ensures DelayedAt(h + s, q, d) == DelayedAt(h, q, d)
  {
  }

  // ---------------------------------------------------------------------
  // Block-unaware reference of a first-order delay filter
  // ---------------------------------------------------------------------

  /** The whole-stream output of a delay filter whose sample at position p
      is law(x[p], x[p - d], y[p - d]), defined one sample at a time, with
      the delayed terms silent before the start of the stream. */
  function Reference(law: (real, real, real) -> real, d: nat, x: seq<real>): (y: seq<real>)
    requires d >= 1
    ensures |y| == |x|
    decreases |x|
  {
    if x == [] then []
    else
      var w := x[..|x| - 1];
      var yw := Reference(law, d, w);
      yw + [law(x[|x| - 1], Delayed(w, d), Delayed(yw, d))]
  }

  /** The reference output of a prefix is the prefix of the reference
      output: a sample never depends on later input. */
  lemma {:induction false} ReferencePrefix(law: (real, real, real) -> real, d: nat, x: seq<real>, k: nat)
    requires d >= 1 && k <= |x|
    ensures Reference(law, d, x)[..k] == Reference(law, d, x[..k])
    decreases |x|
  {
    if k < |x| {
      var w := x[..|x| - 1];
      ReferencePrefix(law, d, w, k);
      assert w[..k] == x[..k];
      assert Reference(law, d, x)[..k] == Reference(law, d, w)[..k];
    } else {
      assert x[..k] == x;
    }
  }

  /** The recurrence at every stream position `p`, with the delayed terms
      silent while fewer than `d` samples precede `p`. */
  lemma ReferenceFormula(law: (real, real, real) -> real, d: nat, x: seq<real>, p: nat)
    requires d >= 1 && p < |x|
    ensures Reference(law, d, x)[p] ==
      law(x[p], DelayedAt(x, p, d), DelayedAt(Reference(law, d, x), p, d))
  {
    var x' := x[..p + 1];
    ReferencePrefix(law, d, x, p + 1);
    assert x'[..|x'| - 1] == x[..p];
    var yw := Reference(law, d, x[..p]);
    assert Reference(law, d, x)[p] == Reference(law, d, x')[p];
    ReferencePrefix(law, d, x, p);
    assert yw == Reference(law, d, x)[..p];
    assert Delayed(x[..p], d) == DelayedAt(x, p, d);
    assert Delayed(yw, d) == DelayedAt(Reference(law, d, x), p, d);
  }

  /** The reference output of `x + u + v` past `x`, assembled from the part
      past `x` of `x + u` and the part past `x + u` of the whole. */
  lemma ReferenceSplit(law: (real, real, real) -> real, d: nat, x: seq<real>, u: seq<real>, v: seq<real>)
    requires d >= 1
    ensures Reference(law, d, x + u)[|x|..] + Reference(law, d, (x + u) + v)[|x| + |u|..]
         == Reference(law, d, x + (u + v))[|x|..]
  {
    var whole := x + (u + v);
    assert (x + u) + v == whole;
    assert whole[..|x| + |u|] == x + u;
    ReferencePrefix(law, d, whole, |x| + |u|);
    var y := Reference(law, d, whole);
    assert y[|x|..] == y[..|x| + |u|][|x|..] + y[|x| + |u|..];
  }

  /** Extending the stream by one sample extends the reference by the
      recurrence applied to the stream so far. */
  lemma ReferenceAppend(law: (real, real, real) -> real, d: nat, w: seq<real>, v: real)
    requires d >= 1
    ensures Reference(law, d, w + [v]) ==
      Reference(law, d, w) + [law(v, Delayed(w, d), Delayed(Reference(law, d, w), d))]
  {
    assert (w + [v])[..|w + [v]| - 1] == w;
  }

  // Solver aid with no source counterpart: a substitution step that keeps
  // the chunk proofs stable across solver seeds.
  lemma JoinOutputs(o1: seq<real>, o2: seq<real>, y1: seq<real>, y2: seq<real>, y3: seq<real>)
    requires o1 == y1 && o2 == y2 && y1 + y2 == y3
    ensures o1 + o2 == y3
  {
  }

  /** A unit impulse: one, then silence. */
  predicate IsImpulse(x: seq<real>) {
    |x| >= 1 && x[0] == 1.0 && forall k :: 1 <= k < |x| ==> x[k] == 0.0
  }

  const Impulse10: seq<real> := [1.0, 0.0, 0.0, 0.0, 0.0, 0.0, 0.0, 0.0, 0.0, 0.0]
}
