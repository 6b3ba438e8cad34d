# reverb-rs in Dafny

A model of the signal-processing core of reverb-rs, a VST reverberation
plugin written in Rust. The core is a network of feedback delay filters:

- `Comb` (src/comb.rs): y[p] = x[p] + g * y[p - d].
- `AllPass` (src/allpass.rs): y[p] = -g * x[p] + x[p - d] + g * y[p - d].
- `Reverb::process` (src/lib.rs): runs four combs in parallel on each channel,
  averages them, and passes the mean through two allpasses in series. This
  pipeline uses the free functions `comb_filter` and `all_pass_filter`, not
  the two structs.

Each filter is called once per block of samples. In lib.rs that means once
per channel of a host buffer, and every channel appends to the same
vectors. A filter keeps the tail of its signals in vectors and reads "the
sample `delay` positions back" either from that retained history or from
the current block. The structs trim their histories at the end of each
`process` call; lib.rs trims its vectors after each channel. The `AllPass`
and `Comb` structs have no caller in the crate.

Samples are real numbers. Each Rust loop becomes a per-sample recursive
function with the same branches, guards and trims. Mutable `&mut self` state
becomes an immutable record that each call returns.

The files follow the program's structure:

- `delay_line.dfy` (`DelayLine`) holds the history helpers shared by all
  filters: trimming, delayed reads, and in-block lookup. It also holds
  `Reference`, a block-unaware definition of a first-order delay filter over
  a whole stream. The filters are measured against `Reference`.
- `allpass.dfy` (`Allpass`) models src/allpass.rs. It proves that block-wise
  processing equals the whole-stream reference for every chunking. It also
  covers the unit tests' impulse responses.
- `comb.dfy` (`Comb`) models src/comb.rs exactly as written, including its
  two departures from the comb recurrence (see Findings).
- `comb_corrected.dfy` (`CombCorrected`) is the comb with those two slips
  corrected. It proves the properties the as-written comb lacks.
- `reverb.dfy` (`Reverb`) models src/lib.rs: the two free filter functions,
  the plugin state, the per-channel pipeline, the channel loop of `process`,
  and `set_sample_rate`.

## Model

| member | source | states |
|---|---|---|
| DelayLine.Trim | src/allpass.rs:20-29 | keeping the newest `delay` samples leaves min(len, delay) samples, and they are a suffix of the vector |
| DelayLine.BlockLookup | src/allpass.rs:36-49 | while the history ends with the block's first `i` samples, reading `history[len - delay]` and reading `block[i - delay]` give the same value, so the in-block branch is a pure optimisation |
| DelayLine.ReferenceFormula | src/allpass.rs:31 | the whole-stream reference satisfies its recurrence at every position, with the delayed terms silent before the start of the stream |
| Allpass.AllpassReferenceFormula | src/allpass.rs:31 | the reference output satisfies the doc-comment recurrence output[i] = -(g*input[i]) + input[i-d] + g*output[i-d] at every stream position |
| Allpass.New | src/allpass.rs:10-18 | a new filter has empty histories and output, and tracks the empty stream |
| Allpass.UpdatePrevInout | src/allpass.rs:20-29 | each history keeps its newest min(len, delay) samples; output, delay and gain are unchanged |
| Allpass.Step | src/allpass.rs:35-53 | one loop iteration appends the same new value to `output` and `prev_output` and appends the input sample to `prev_input`; the value is the recurrence on the samples `delay` back in the running histories |
| Allpass.ProcessFrom | src/allpass.rs:35-54 | the loop appends the rest of the block to `prev_input` and its outputs to `prev_output`, and keeps the outputs already produced |
| Allpass.Process | src/allpass.rs:32-56 | one output per input sample; afterwards each history is the newest `delay` samples of the old history followed by this block's input or output |
| Allpass.ProcessSample | src/allpass.rs:31-56 | output sample j follows the doc-comment recurrence, with the delayed input and output read at its own position in old history plus block, silent before the start |
| Allpass.ProcessMatchesReference | src/allpass.rs:31-56 | from a state that tracks stream x, one block's output is the whole-stream reference of x + input at positions past x, and the new state tracks x + input |
| Allpass.ProcessBounded | src/allpass.rs:55 | after a call each history holds exactly min(samples seen, delay) samples; an empty block changes only `output` |
| Allpass.ProcessSampleIsReference | src/allpass.rs:31-56 | from a state that tracks stream x, local output i of a block is the whole-stream reference at stream position \|x\| + i |
| Allpass.ChunkInvariance | src/allpass.rs:99-129 | splitting a block in two leaves the concatenated output and the final histories unchanged |
| Allpass.ProcessBlocks | src/allpass.rs:111-122 | the process-and-append loop of `compare_allpass_outputs` keeps delay and gain and collects exactly as many samples as the blocks hold (its contents are given by `Allpass.BlocksMatchReference`) |
| Allpass.BlocksMatchReference | src/allpass.rs:108-122 | any sequence of blocks fed in order produces the reference output of the concatenated stream and leaves a state that tracks it |
| Allpass.BlocksEqualSingleCall | src/allpass.rs:99-129 | for every split of a stream into blocks, a fresh filter produces the same output and the same final histories as one call on the whole stream |
| Allpass.Chunks | src/allpass.rs:111-122 | the slicing loop of `compare_allpass_outputs` yields blocks of 1 to `sample_size` samples that concatenate back to the input |
| Allpass.CompareOutputs | src/allpass.rs:99-153 | the assertion of `compare_allpass_outputs` for every input size, chunk size, delay and gain: chunked output equals single-call output |
| Allpass.ImpulseResponse | src/allpass.rs:63-76 | a 10-sample unit impulse through `AllPass::new(3, 0.5)` gives -0.5 0 0 0.75 0 0 0.375 0 0 0.1875 |
| Allpass.ImpulseResponseTwoBlocks | src/allpass.rs:78-97 | the same impulse as two blocks of five gives -0.5 0 0 0.75 0, then 0 0.375 0 0 0.1875 |
| Comb.New | src/comb.rs:9-16 | a new comb has empty output and history and meets the state invariant (at most `delay` retained samples) |
| Comb.Step | src/comb.rs:21-31 | one iteration appends input + echo to `output` and `prev_output`; the echo is `gain` times the sample `delay` back in the running history, silent while the history holds at most `delay` samples |
| Comb.ProcessFrom | src/comb.rs:21-32 | the loop appends the block's outputs to the history and keeps the outputs already produced |
| Comb.TrimHistory | src/comb.rs:33-35 | when the history outgrew `delay`, it becomes the last delay + len - L samples of this block's output (L = history length at that point); otherwise it is unchanged |
| Comb.Process | src/comb.rs:18-36 | one output per input; with L0 the history length at entry, a history that would exceed `delay` becomes the last delay - L0 samples of this block, otherwise the block is appended; at most `delay` samples remain |
| Comb.ProcessSample | src/comb.rs:21-31 | output j is input[j] plus `gain` times the sample `delay` back in old history plus block, silent while at most `delay` samples precede it |
| Comb.FreshSample | src/comb.rs:18-32 | on a fresh comb, output j is input[j] plus `gain` times output[j - delay], silent for j <= delay |
| Comb.EchoWithinBlock | src/comb.rs:26-28 | when the echo is heard and its source lies in this block, it reads this block's output `delay` samples earlier |
| Comb.FreshPassThrough | src/comb.rs:22-23 | a fresh comb passes its first min(len, delay + 1) samples through unchanged |
| Comb.SolutionUnique | src/comb.rs:29 | the comb recurrence determines its output: two sequences that satisfy it over the same input are equal |
| Comb.FreshImpulseHasNoEcho | src/comb.rs:22-23 | any unit impulse through any fresh comb comes out unchanged: no echo is ever heard |
| Comb.ImpulseNoEcho | src/comb.rs:22 | `Comb::new(3, 0.5)` maps the 10-sample impulse to itself, so y[3] = 0 where the recurrence gives 0.5 |
| Comb.EchoInOneCall | src/comb.rs:18-32 | with delay 2 and gain 0.5, the stream 0 0 0 0 0 1 0 0 in one call ends with 0 0.5 |
| Comb.FullHistoryEmptied | src/comb.rs:33-35 | a non-empty block that starts on a full history (`delay` samples) ends with an empty history |
| Comb.SilentStart | src/comb.rs:22-23 | with delay 2 and an empty history, the block 0 0 outputs 0 0 |
| Comb.TrimLosesHistory | src/comb.rs:33-35 | the same stream fed as blocks 0 0 0, 0 0 1 and 0 0 empties the history after the second block, and the third block outputs 0 0 instead of 0 0.5 |
| CombCorrected.CombReferenceFormula | src/comb.rs:29 | the comb reference satisfies y[p] = x[p] + g * y[p - d] at every stream position, silent before the start |
| CombCorrected.NewTracks | src/comb.rs:9-16 | a new comb tracks the empty stream |
| CombCorrected.Step | src/comb.rs:21-31 | with the corrected guard `delay > len`, one iteration appends input + `gain` times the sample `delay` back in the running history |
| CombCorrected.Process | src/comb.rs:18-36 | with the corrected trim, one output per input, and the history becomes the newest `delay` samples of old history plus block |
| CombCorrected.ProcessSample | src/comb.rs:21-31 | corrected output j is input[j] plus `gain` times the sample `delay` back in old history plus block, silent only before the start of the stream |
| CombCorrected.ProcessMatchesReference | src/comb.rs:18-36 | from a tracked state, the corrected block output is the whole-stream comb reference, and the new state tracks the longer stream |
| CombCorrected.ChunkInvariance | src/comb.rs:33-35 | with the corrected trim, splitting a block in two leaves the concatenated output and the final history unchanged |
| CombCorrected.ImpulseResponse | src/comb.rs:22-28 | with the corrected guard, the 10-sample impulse through delay 3 and gain 0.5 gives 1 0 0 0.5 0 0 0.25 0 0 0.125 |
| CombCorrected.ImpulseResponseTwoBlocks | src/comb.rs:33-35 | the same impulse as two blocks of five gives the same ten samples, the echo at position 6 reaching back across the block boundary |
| Reverb.CombFilter | src/lib.rs:21-31 | `comb_filter` appends exactly one value per input sample and leaves the existing vector untouched |
| Reverb.CombFilterSample | src/lib.rs:23-29 | appended value k is input[k] plus `gain` times the value `delay` places from the end of the vector as it stood, silent while the vector holds at most `delay` values |
| Reverb.CombFilterCompose | src/lib.rs:21-31 | on an untrimmed vector, two calls in a row equal one call on the concatenated input |
| Reverb.CombFilterMatchesComb | src/lib.rs:24-27 | on an empty vector, `comb_filter` produces exactly what a fresh `Comb` of comb.rs produces in one call, both silencing the echo under the same `delay >= len` guard |
| Reverb.TrimSilencesFirstEcho | src/lib.rs:111-113 | the trim keeps exactly `delay` values, which the guard then treats as too few: 0 1 0 in one call ends with 0.5, but 0 1 then 0 across a trim ends with 0 |
| Reverb.AllPassFilter | src/lib.rs:33-47 | `all_pass_filter` appends exactly one value per input sample and leaves the existing vector untouched |
| Reverb.AllPassFilterFrom | src/lib.rs:35-46 | the loop of `all_pass_filter` from iteration k appends one value per remaining input sample and leaves the vector it started from untouched |
| Reverb.AllPassFilterFromSample | src/lib.rs:35-46 | each appended value is -g*input + (input `delay` back in this block, else 0) + g*(vector value `delay` from the end, silent while it holds at most `delay`) |
| Reverb.AllPassTailSample | src/lib.rs:33-47 | the values appended to a vector follow the allpass recurrence over the block for the delayed input and over vector plus new values for the delayed output |
| Reverb.InputHistoryNotCarried | src/lib.rs:36-39 | no input history crosses calls: with delay 1 and gain 0.5, 1 0 in one call gives -0.5 1, but 1 then 0 in two calls gives -0.5 0 |
| Reverb.New | src/lib.rs:50-62 | a new plugin has the 44100 Hz rate, all vectors empty, and history lengths for zero samples |
| Reverb.CombMean | src/lib.rs:103-106 | `comb_sum` holds, at every index, the mean of the four comb values at that index |
| Reverb.ProcessChannel | src/lib.rs:78-148 | the channel body is total on every state and input, since every `len - samples` slice lies inside its vector; one output per input; `comb_sum` and `ap2_input` have the block's length; every vector holds at most its delay |
| Reverb.ChannelFlow | src/lib.rs:89-147 | `comb_sum` is the mean of the four combs' fresh values; the second allpass runs on the first's fresh values; the output is the second's fresh values; each vector becomes the newest `delay` values of itself plus its fresh values |
| Reverb.ChannelSample | src/lib.rs:89-140 | at every sample, each comb follows its recurrence over its vector, the mean feeds the first allpass, that one's value feeds the second, and the second's value is the output |
| Reverb.FreshFirstSample | src/lib.rs:80-140 | on a new plugin the first output of a channel is 0.49 times its first input: the combs pass it, and each allpass scales it by -0.7 |
| Reverb.ChannelKeepsLengths | src/lib.rs:111-147 | a channel of n samples takes every vector from min(t, delay) to min(t + n, delay) values |
| Reverb.Process | src/lib.rs:76-149 | one output buffer per channel |
| Reverb.ProcessKeepsLengths | src/lib.rs:76-149 | after a buffer every vector holds min(t, delay) values, t counting the samples of every channel, since all channels share one state |
| Reverb.ProcessSplit | src/lib.rs:78 | the channels are processed in order: a buffer split into two groups of channels is processed as the first group, then the second from the state the first leaves |
| Reverb.ProcessChannelOutput | src/lib.rs:78-148 | channel k's output is the channel pipeline run from the state the channels before it leave |
| Reverb.TwoChannels | src/lib.rs:78 | a two-channel buffer runs the second channel from the state the first channel leaves |
| Reverb.SecondChannelAppends | src/lib.rs:78-113 | while the first comb's vector has room, two channels append their fresh values to that one vector in turn, the second channel's echoes reading the first channel's values |
| Reverb.ChannelsShareState | src/lib.rs:78-113 | on a new plugin, one sample x on channel 0 and one silent sample on channel 1 leave the first comb's vector holding x 0 |
| Reverb.SetSampleRate | src/lib.rs:151-153 | the rate is stored and nothing else changes |
| Reverb.SampleRateIgnored | src/lib.rs:151-153 | the stored rate plays no part in processing: every output and every vector are the same whatever rate was set |

## Left out

- VST glue is not modelled, because it is host plumbing and not signal processing: `get_info`, `plugin_main!`, `HostCallback`, and the `AudioBuffer` channel zip (src/lib.rs:64-74, 156).
- `f32` and `f64` arithmetic is modelled as exact real arithmetic. Rounding, NaN and infinities, and the sign of `-0.0` from `gain * 0.0` are not represented. So the exact equalities of the unit tests hold of the model, not of IEEE floats.
- The conversion `f64::from(rate)` in `set_sample_rate` is exact and is modelled as storing a real.
- `buffer.samples()` is taken to be the length of each channel's input. The host guarantees this for an `AudioBuffer`.
- The writes into `output_buffer` (src/lib.rs:138-140) become the returned sequence.
- The lib.rs unit test (src/lib.rs:161-178) only checks that `process` does not panic. `Reverb.ProcessChannel` is total with no precondition, which states the same thing.
- Every filter function and lemma requires `delay >= 1`. With delay 0 the Rust code panics on any non-empty block in allpass.rs (line 48 reads `output[i]`), and on any block of two or more samples in comb.rs (line 27 reads `output[i]`). In lib.rs, `comb_filter` and `all_pass_filter` at delay 0 read `output[output.len()]` (lines 26 and 42) and panic once their vector is non-empty; the pipeline passes only its fixed non-zero delays. The delay-0 cases that do not panic (a comb fed blocks of at most one sample, any filter on an empty block) are not modelled.
- Comb.Process: requires `Valid` (at most `delay` retained samples). `Comb.New` establishes it and `Comb.Process` keeps it. A larger history is unreachable, and on such a history line 34 could slice out of range.
- src/allpass.rs is not used by src/lib.rs, which declares only `mod comb;` and uses neither struct. Both are modelled on their own, and `Reverb.CombFilterMatchesComb` relates `comb_filter` to `Comb`.
- Reverb.ProcessChannel: does not state chunk invariance. The code does not have it: `Reverb.TrimSilencesFirstEcho` shows the comb vectors losing an echo at a block boundary, and `Reverb.InputHistoryNotCarried` shows `all_pass_filter` dropping the delayed input.
- Reverb.Process: does not state that channels are isolated. The code has no per-channel state: all channels of a buffer thread through one `Reverb`, as `Reverb.ProcessChannelOutput` and `Reverb.ProcessKeepsLengths` state. So channel 1's output depends on what channel 0 left behind. `Reverb.ChannelsShareState` gives a concrete buffer whose two channels append to one comb vector.
- Reverb.SetSampleRate: neither rescales delays nor resets the filters, because the code only stores the rate (`Reverb.SampleRateIgnored`). The delays stay the 44.1 kHz constants of src/lib.rs:80-88 and 124-127.
- The commented-out gains (`// 0.835`, `// 0.805`, …) are not modelled. The live constants are `COMB_MULT = 1.0` and the gains 0.876, 0.900, 0.852 and 0.831.
- Stability of the filters (bounded output for bounded input when |gain| < 1) is not stated. It is a property of the recurrence, not of the code's control flow.

## Where the code departs from the intended design

The intended design of this engine calls for four things the code does not do:

- every filter and the whole network should be chunk-invariant;
- each channel should have its own filter state;
- a comb with delay 3 and gain 0.5 should map an impulse to 1 0 0 0.5 0 0 0.25 0 0 0.125;
- a sample-rate change should rescale the delays and discard the history.

The model follows the code. It proves these properties where the code has
them: for the allpass struct and for the corrected comb. Where the code
lacks them, it states the actual behaviour:

- **Chunk invariance.** `Comb.TrimLosesHistory` breaks it for the struct.
  `Reverb.TrimSilencesFirstEcho` shows the same mechanism on `comb_filter`
  at delay 1 and gain 0.5, not at the pipeline's own delays.
  `Reverb.InputHistoryNotCarried` shows `all_pass_filter` dropping the
  delayed input across calls.
- **Shared channel state.** `Reverb.ProcessChannelOutput` and
  `Reverb.ProcessKeepsLengths` state it in general.
  `Reverb.SecondChannelAppends` and `Reverb.ChannelsShareState` show two
  channels appending to one comb vector.
- **Comb impulse response.** `Comb.ImpulseNoEcho` shows the comb leaving an
  impulse unchanged, with no echo.
- **Sample-rate change.** `Reverb.SampleRateIgnored` shows that the rate
  only ever gets stored.

## Findings

| source | as written | input that shows it | evidently intended | confidence | as-written member | corrected member |
|---|---|---|---|---|---|---|
| src/comb.rs:22 | `self.delay >= self.prev_output.len()` silences the echo while exactly `delay` samples are retained, so the sample `delay` back is never read at position `delay` | `Comb::new(3, 0.5)` fed 1 0 0 0 0 0 0 0 0 0 returns the impulse unchanged (y[3] = 0, and every later echo reads a silent sample) | `self.delay > self.prev_output.len()`, as allpass.rs:36 and 43 write it, giving 1 0 0 0.5 0 0 0.25 0 0 0.125 | not executed | Comb.ImpulseNoEcho | CombCorrected.ImpulseResponse |
| src/comb.rs:33-35 | the history is replaced by `self.output[self.prev_output.len() - self.delay..]`, which is the last delay - L0 samples of this block's output (L0 = history length at entry); the carried history is dropped | delay 2, gain 0.5, blocks 0 0 0, then 0 0 1, then 0 0: the second block leaves an empty history and the third outputs 0 0, where one call on the whole stream gives 0 0.5 (`Comb.EchoInOneCall`) | keep the newest `delay` samples of `prev_output` itself, as `update_prev_inout` does in allpass.rs:25-28 | not executed | Comb.TrimLosesHistory | CombCorrected.ChunkInvariance |
