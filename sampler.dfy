/**
 * Pseudo-Gibbs sampling with a trained network, `DAE.sample`
 * (dae.py:433-462). `reconstruct` runs the graph's reconstruction `y` on one
 * row; its second argument stands for the fresh corruption draws each run of
 * the graph takes, so two runs on the same row may differ.
 */
module Sampler {

  /**
   * The rows `sample` writes: row 0 is the reconstruction of the seed row,
   * row i the reconstruction of row i - 1.
   */
  function Chain<R>(reconstruct: (seq<real>, R) -> seq<real>, seed: seq<real>, noise: seq<R>, k: nat): (rows: seq<seq<real>>)
    requires k <= |noise|
    ensures |rows| == k
  {
    if k == 0 then []
    else
      var before := Chain(reconstruct, seed, noise, k - 1);
      before + [reconstruct(if k == 1 then seed else before[k - 2], noise[k - 1])]
  }

  /** Drawing fewer samples gives a prefix of the same chain. */
  lemma {:induction false} ChainPrefix<R>(reconstruct: (seq<real>, R) -> seq<real>, seed: seq<real>, noise: seq<R>, j: nat, k: nat)
    requires j <= k <= |noise|
    ensures Chain(reconstruct, seed, noise, k)[..j] == Chain(reconstruct, seed, noise, j)
    decreases k
  {
    if j < k {
      ChainPrefix(reconstruct, seed, noise, j, k - 1);
      var before := Chain(reconstruct, seed, noise, k - 1);
      assert Chain(reconstruct, seed, noise, k)[..k - 1] == before;
      assert Chain(reconstruct, seed, noise, k)[..j] == before[..j];
    } else {
      assert Chain(reconstruct, seed, noise, k)[..j] == Chain(reconstruct, seed, noise, k);
    }
  }

  /** The feedback of the loop: each row reconstructs the one before it, the first one the seed. */
  lemma {:induction false} ChainFeedback<R>(reconstruct: (seq<real>, R) -> seq<real>, seed: seq<real>, noise: seq<R>, k: nat)
    requires k <= |noise|
    ensures var rows := Chain(reconstruct, seed, noise, k);
      k > 0 ==> rows[0] == reconstruct(seed, noise[0])
    ensures var rows := Chain(reconstruct, seed, noise, k);
      forall i :: 0 < i < k ==> rows[i] == reconstruct(rows[i - 1], noise[i])
  {
    var rows := Chain(reconstruct, seed, noise, k);
    if k > 0 {
      ChainPrefix(reconstruct, seed, noise, 1, k);
      assert rows[0] == Chain(reconstruct, seed, noise, 1)[0];
    }
    forall i | 0 < i < k
      ensures rows[i] == reconstruct(rows[i - 1], noise[i])
    {
      ChainPrefix(reconstruct, seed, noise, i + 1, k);
      var upTo := Chain(reconstruct, seed, noise, i + 1);
      assert rows[i] == upTo[i];
      ChainPrefix(reconstruct, seed, noise, i, k);
      assert rows[i - 1] == Chain(reconstruct, seed, noise, i)[i - 1];
    }
  }

  /** When every reconstruction has `nInput` entries, so does every sample. */
  lemma {:induction false} ChainWidth<R>(reconstruct: (seq<real>, R) -> seq<real>, seed: seq<real>, noise: seq<R>, k: nat, nInput: nat)
    requires k <= |noise|
    requires forall row, r :: |reconstruct(row, r)| == nInput
    ensures forall i :: 0 <= i < k ==> |Chain(reconstruct, seed, noise, k)[i]| == nInput
  {
    if k > 0 {
      ChainWidth(reconstruct, seed, noise, k - 1, nInput);
    }
  }

  /** A seed the network reconstructs unchanged, whatever the draws, is all the sampler ever returns. */
  lemma {:induction false} FixedPointChain<R>(reconstruct: (seq<real>, R) -> seq<real>, seed: seq<real>, noise: seq<R>, k: nat)
    requires k <= |noise|
    requires forall r :: reconstruct(seed, r) == seed
    ensures forall i :: 0 <= i < k ==> Chain(reconstruct, seed, noise, k)[i] == seed
  {
    if k > 0 {
      FixedPointChain(reconstruct, seed, noise, k - 1);
    }
  }

  /**
   * `DAE.sample` (dae.py:433-462): fill a fresh array of `nSamples` rows.
   * `seedIndex` is the draw of `np.random.randint(len(in_samples))`, which
   * raises on an empty `in_samples`; `noise[i]` stands for the draws of the
   * i-th run of the graph.
   */
  method Sample<R>(inSamples: seq<seq<real>>, nSamples: nat, nInput: nat, seedIndex: nat,
                   reconstruct: (seq<real>, R) -> seq<real>, noise: seq<R>)
    returns (samples: array<seq<real>>)
    requires nSamples > 0 ==> seedIndex < |inSamples|
    requires nSamples <= |noise|
    requires forall row, r :: |reconstruct(row, r)| == nInput
    ensures fresh(samples) && samples.Length == nSamples
    ensures nSamples > 0 ==> samples[..] == Chain(reconstruct, inSamples[seedIndex], noise, nSamples)
    ensures forall i :: 0 <= i < nSamples ==> |samples[i]| == nInput
  {
    samples := new seq<real>[nSamples](_ => seq(nInput, _ => 0.0));
    ghost var seed := if nSamples > 0 then inSamples[seedIndex] else [];
    for i := 0 to nSamples
      invariant samples[..i] == Chain(reconstruct, seed, noise, i)
      invariant forall k :: 0 <= k < nSamples ==> |samples[k]| == nInput
    {
      var outSample;
      if i == 0 {
        var inSample := inSamples[seedIndex];
        outSample := reconstruct(inSample, noise[i]);
      } else {
        outSample := reconstruct(samples[i - 1], noise[i]);
      }
      samples[i] := outSample;
      assert samples[..i + 1] == samples[..i] + [outSample];
    }
    assert samples[..] == samples[..nSamples];
  }
}
